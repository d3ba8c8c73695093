/** The render poller: one pass over every persona record, moving each pending render to
    `videos` when the provider reports a URL and to `failures` when it reports a failure,
    then recomputing `status` and writing the record back only if an entry moved.

    The object store is a map from blob key to blob; the provider's status endpoint is an oracle
    indexed by the polling round, so that a job may finish between two rounds; the wall-clock
    budget of one invocation becomes a bound on the number of rounds. */
module VideoProcessor {
  import opened Wrappers
  import opened Text

  // ---------------------------------------------------------------------------------------
  // Records

  /** A prompt as stored. The poller's defaults are objects with a `key`; the upload handler
      stores bare strings, whose `key` is undefined. */
  datatype Prompt = KeyedPrompt(key: string, text: string) | TextPrompt(text: string)

  /** `p.key || ''` */
  function PromptKey(p: Prompt): string {
    if p.KeyedPrompt? then p.key else ""
  }

  /** A captured clip. Clips written by this poller carry `key`; older ones may carry only
      `prompt`. An absent string field is "". */
  datatype Video = Video(key: string, prompt: string, url: string,
                         thumbnailUrl: Option<string>, duration: Option<int>)

  /** `v.key || v.prompt || ''` */
  function VideoKey(v: Video): string {
    if v.key != "" then v.key else v.prompt
  }

  /** The job handle of a pending render (`task_id` for the v2 API, `video_id` for v1). */
  datatype TaskRef = TaskRef(taskId: string, videoId: string)

  /** One property of the `pending` object; a null or otherwise falsy value is None. */
  datatype PendingEntry = PendingEntry(key: string, info: Option<TaskRef>)

  /** A persona record after the defaults of lines 61-67 are applied. `pending` keeps the
      insertion order of the JavaScript object. */
  datatype Persona = Persona(videos: seq<Video>, prompts: seq<Prompt>,
                             pending: seq<PendingEntry>,
                             failures: Option<map<string, string>>,
                             status: Option<string>)

  /** A persona record as parsed from the store: any of the fields may be absent
      (a non-array `videos` or `prompts` is treated as absent). */
  datatype StoredPersona = StoredPersona(videos: Option<seq<Video>>, prompts: Option<seq<Prompt>>,
                                         pending: Option<seq<PendingEntry>>,
                                         failures: Option<map<string, string>>,
                                         status: Option<string>)

  /** What `store.get(key, {type:'text'})` followed by `JSON.parse` yields; `NullJson` is the
      text `null`, which parses to null. */
  datatype Blob = EmptyText | BadJson | NullJson | Json(doc: StoredPersona)

  type Store = map<string, Blob>

  const DefaultPrompts: seq<Prompt> := [
    KeyedPrompt("fun", "What do you like to do for fun?"),
    KeyedPrompt("from", "Where are you from?"),
    KeyedPrompt("relax", "What’s your favorite way to relax?")
  ]

  /** Lines 61-67: `videos` and `pending` default to empty, `prompts` to the three defaults
      when absent or empty. */
  function Normalize(doc: StoredPersona): (p: Persona)
    ensures |p.prompts| > 0
    ensures doc.prompts.Some? && |doc.prompts.value| > 0 ==> p.prompts == doc.prompts.value
    ensures doc.prompts.None? || |doc.prompts.value| == 0 ==> p.prompts == DefaultPrompts
    ensures doc.videos.Some? ==> p.videos == doc.videos.value
    ensures doc.videos.None? ==> p.videos == []
    ensures doc.pending.Some? ==> p.pending == doc.pending.value
    ensures doc.pending.None? ==> p.pending == []
    ensures p.failures == doc.failures && p.status == doc.status
  {
    Persona(
      if doc.videos.Some? then doc.videos.value else [],
      if doc.prompts.Some? && |doc.prompts.value| > 0 then doc.prompts.value else DefaultPrompts,
      if doc.pending.Some? then doc.pending.value else [],
      doc.failures,
      doc.status)
  }

  /** `JSON.stringify(p)` read back as a stored record. */
  function Serialize(p: Persona): StoredPersona {
    StoredPersona(Some(p.videos), Some(p.prompts), Some(p.pending), p.failures, p.status)
  }

  /** A record the poller wrote comes back unchanged the next time it is read. */
  lemma NormalizeSerialize(p: Persona)
    requires |p.prompts| > 0
    ensures Normalize(Serialize(p)) == p
  {
  }

  // ---------------------------------------------------------------------------------------
  // hasAllVideos (lines 48-53)

  /** The lowercased, non-empty prompt keys, in prompt order (`want`). */
  function WantedKeys(prompts: seq<Prompt>): (r: seq<string>)
    ensures forall k :: k in r ==> k != ""
    ensures forall k :: k in r <==> k != "" && exists i :: 0 <= i < |prompts| && Lower(PromptKey(prompts[i])) == k
  {
    if prompts == [] then []
    else
      var k := Lower(PromptKey(prompts[0]));
      var rest := WantedKeys(prompts[1..]);
      assert forall i :: 1 <= i < |prompts| ==> prompts[i] == prompts[1..][i - 1];
      (if k != "" then [k] else []) + rest
  }

  /** The lowercased keys of the captured clips (`got`). */
  function GotKeys(videos: seq<Video>): set<string> {
    set v | v in videos :: Lower(VideoKey(v))
  }

  predicate HasAllVideos(p: Persona) {
    var want := WantedKeys(p.prompts);
    |want| > 0 && forall k :: k in want ==> k in GotKeys(p.videos)
  }

  /** The readiness rule stated on the prompts and clips themselves: some prompt has a key, and
      every keyed prompt has a clip whose key agrees with it up to case. */
  lemma HasAllVideosMeans(p: Persona)
    ensures HasAllVideos(p) <==>
      (exists i :: 0 <= i < |p.prompts| && PromptKey(p.prompts[i]) != "") &&
      (forall i :: 0 <= i < |p.prompts| && PromptKey(p.prompts[i]) != "" ==>
         exists v :: v in p.videos && Lower(VideoKey(v)) == Lower(PromptKey(p.prompts[i])))
  {
    var want := WantedKeys(p.prompts);
    forall i | 0 <= i < |p.prompts|
      ensures PromptKey(p.prompts[i]) != "" <==> Lower(PromptKey(p.prompts[i])) in want
    {
      var k := PromptKey(p.prompts[i]);
      assert |Lower(k)| == |k|;
    }
    if HasAllVideos(p) {
      var k := want[0];
      assert k in want;
      var i :| 0 <= i < |p.prompts| && Lower(PromptKey(p.prompts[i])) == k;
      assert PromptKey(p.prompts[i]) != "";
    }
  }

  /** Prompts stored as bare strings carry no key, so such a record is never ready. */
  lemma {:induction false} TextPromptsNeverReady(p: Persona)
    requires forall i :: 0 <= i < |p.prompts| ==> p.prompts[i].TextPrompt?
    ensures WantedKeys(p.prompts) == []
    ensures !HasAllVideos(p)
    decreases |p.prompts|
  {
    if p.prompts != [] {
      TextPromptsNeverReady(p.(prompts := p.prompts[1..]));
      assert Lower(PromptKey(p.prompts[0])) == [];
    }
  }

  // ---------------------------------------------------------------------------------------
  // checkHeygenTask (lines 28-46)

  datatype Endpoint = TaskStatus(taskId: string) | VideoStatus(videoId: string)

  /** Lines 31-37: the v2 task endpoint when `task_id` is set, else the v1 video endpoint,
      else no request at all. */
  function StatusEndpoint(info: TaskRef): (r: Option<Endpoint>)
    ensures r.None? <==> info.taskId == "" && info.videoId == ""
    ensures r.Some? && r.value.TaskStatus? ==> r.value.taskId == info.taskId
    ensures r.Some? && r.value.VideoStatus? ==> r.value.videoId == info.videoId && info.taskId == ""
    ensures info.taskId != "" ==> r == Some(TaskStatus(info.taskId))
    ensures info.taskId == "" && info.videoId != "" ==> r == Some(VideoStatus(info.videoId))
  {
    if info.taskId != "" then Some(TaskStatus(info.taskId))
    else if info.videoId != "" then Some(VideoStatus(info.videoId))
    else None
  }

  /** The fields the poller reads from a status reply, after the `j.x || j.data.x` fallbacks;
      an absent status or URL is "". */
  datatype StatusReply = StatusReply(status: string, videoUrl: string,
                                     thumbnailUrl: Option<string>, duration: Option<int>)

  datatype HttpReply = Answered(reply: StatusReply) | NotOk(code: int) | NetworkError

  /** The provider, asked in polling round `n` about one job. */
  type Provider = (nat, Endpoint) -> HttpReply

  /** `checkHeygenTask`, with a thrown error as Err. */
  function CheckTask(provider: Provider, round: nat, info: TaskRef): (r: Result<StatusReply, string>)
    ensures StatusEndpoint(info).None? ==> r == Err("task_id or video_id required")
    ensures r.Ok? <==> StatusEndpoint(info).Some? && provider(round, StatusEndpoint(info).value).Answered?
    ensures r.Ok? ==> r.value == provider(round, StatusEndpoint(info).value).reply
  {
    match StatusEndpoint(info)
    case None => Err("task_id or video_id required")
    case Some(ep) =>
      match provider(round, ep)
      case Answered(reply) => Ok(reply)
      case NotOk(code) => Err("heygen status " + IntToString(code))
      case NetworkError => Err("fetch failed")
  }

  datatype Verdict = Completed | Failed | Waiting

  /** Lines 92-103. The completion guard `(completed || succeed || url) && url` holds exactly when
      the reply has a URL, whatever its status says. */
  function Classify(r: StatusReply): (v: Verdict)
    ensures v == Completed <==> r.videoUrl != ""
    ensures v == Failed <==> r.videoUrl == "" && (r.status == "failed" || r.status == "error")
    ensures r.status == "completed" && r.videoUrl == "" ==> v == Waiting
  {
    if (r.status == "completed" || r.status == "succeed" || r.videoUrl != "") && r.videoUrl != "" then Completed
    else if r.status == "failed" || r.status == "error" then Failed
    else Waiting
  }

  // ---------------------------------------------------------------------------------------
  // One polling pass (lines 84-107)

  /** `p.videos.some(v => (v.key || v.prompt) === k)` (exact comparison, no lowercasing). */
  predicate HasVideoFor(videos: seq<Video>, k: string) {
    exists i :: 0 <= i < |videos| && VideoKey(videos[i]) == k
  }

  /** `delete p.pending[k]`: the other entries stay, in their order. */
  function RemoveKey(es: seq<PendingEntry>, k: string): (r: seq<PendingEntry>)
    ensures forall e :: e in r <==> e in es && e.key != k
    ensures |r| <= |es|
    ensures (exists e :: e in es && e.key == k) ==> |r| < |es|
  {
    if es == [] then []
    else
      var rest := RemoveKey(es[1..], k);
      assert forall e :: e in es[1..] ==> e in es;
      (if es[0].key == k then [] else [es[0]]) + rest
  }

  const RenderFailed: string := "render failed"

  /** The state a pass carries: the record, whether an entry moved, and how many entries are
      still waiting (`remaining`). */
  datatype PassState = PassState(p: Persona, moved: bool, remaining: nat)

  /** The effect of one iteration of the inner loop on entry `e`. */
  function Step(p: Persona, e: PendingEntry, round: nat, provider: Provider): (o: PassState)
    ensures e.info.None? || HasVideoFor(p.videos, e.key) ==> o == PassState(p, false, 0)
    ensures o.remaining <= 1 && !(o.moved && o.remaining == 1)
    ensures !o.moved ==> o.p == p
    ensures o.moved ==> o.p.pending == RemoveKey(p.pending, e.key) && o.p.status == p.status
    ensures o.moved ==>
      && e.info.Some? && CheckTask(provider, round, e.info.value).Ok?
      && var r := CheckTask(provider, round, e.info.value).value;
         && (Classify(r) == Completed ==>
               o.p.videos == p.videos + [Video(e.key, "", r.videoUrl, r.thumbnailUrl, r.duration)]
               && o.p.failures == p.failures)
         && (Classify(r) == Failed ==>
               o.p.videos == p.videos && o.p.failures == Some(p.failures.GetOr(map[])[e.key := RenderFailed]))
    ensures Settles(e, round, provider) && !HasVideoFor(p.videos, e.key) ==> o.moved
    ensures o.remaining == 1 <==>
      e.info.Some? && !HasVideoFor(p.videos, e.key) &&
      match CheckTask(provider, round, e.info.value)
      case Err(_) => true
      case Ok(r) => Classify(r) == Waiting
  {
    if e.info.None? || HasVideoFor(p.videos, e.key) then PassState(p, false, 0)
    else
      match CheckTask(provider, round, e.info.value)
      case Err(_) => PassState(p, false, 1)
      case Ok(r) =>
        match Classify(r)
        case Completed =>
          var v := Video(e.key, "", r.videoUrl, r.thumbnailUrl, r.duration);
          PassState(p.(videos := p.videos + [v], pending := RemoveKey(p.pending, e.key)), true, 0)
        case Failed =>
          var f := p.failures.GetOr(map[]);
          PassState(p.(failures := Some(f[e.key := RenderFailed]), pending := RemoveKey(p.pending, e.key)), true, 0)
        case Waiting => PassState(p, false, 1)
  }

  /** The provider answered for `e` in this round, with a URL or with a failure. */
  predicate Settles(e: PendingEntry, round: nat, provider: Provider) {
    && e.info.Some?
    && CheckTask(provider, round, e.info.value).Ok?
    && Classify(CheckTask(provider, round, e.info.value).value) != Waiting
  }

  /** The inner `for` loop over a snapshot `es` of the pending entries. */
  function Pass(p: Persona, es: seq<PendingEntry>, round: nat, provider: Provider): (o: PassState)
    ensures o.p.status == p.status
    ensures !o.moved ==> o.p == p
    ensures o.remaining <= |es|
    decreases |es|
  {
    if es == [] then PassState(p, false, 0)
    else
      var s := Step(p, es[0], round, provider);
      var rest := Pass(s.p, es[1..], round, provider);
      PassState(rest.p, s.moved || rest.moved, s.remaining + rest.remaining)
  }

  /** The outer loop, with the time budget replaced by at most `rounds` passes: it stops after
      the first pass in which no entry is still waiting. Returns the record and `changed`. */
  function Poll(p: Persona, round: nat, rounds: nat, provider: Provider): (Persona, bool)
    decreases rounds - round
  {
    if round >= rounds then (p, false)
    else
      var o := Pass(p, p.pending, round, provider);
      if o.remaining == 0 then (o.p, o.moved)
      else
        var next := Poll(o.p, round + 1, rounds, provider);
        (next.0, o.moved || next.1)
  }

  // ---------------------------------------------------------------------------------------
  // processPersona (lines 55-118)

  datatype PersonaResult = Skip(key: string, reason: string) | Done(key: string, status: string)

  /** The returned result and the record written back, if any; or the message of what
      `processPersona` threw. */
  datatype Outcome = Outcome(result: PersonaResult, write: Option<Persona>) | Threw(message: string)

  /** Line 61 on a record that parsed to null: `p.videos = …` throws this `TypeError`. */
  const NullRecordError: string := "Cannot set properties of null (setting 'videos')"

  predicate FastReady(p: Persona) {
    p.pending == [] && HasAllVideos(p)
  }

  function Process(blobs: Store, key: string, rounds: nat, provider: Provider): (o: Outcome)
    ensures o.Threw? <==> key in blobs && blobs[key] == NullJson
    ensures o.Threw? ==> o.message == NullRecordError
    ensures o.Outcome? ==> o.result.key == key
    ensures o.Outcome? ==> ((key !in blobs || blobs[key] == EmptyText || blobs[key] == BadJson) <==> o.result.Skip?)
    ensures o.Outcome? && o.result.Skip? ==> o.write.None?
    ensures o.Outcome? && o.result.Done? ==> o.result.status == "ready" || o.result.status == "processing"
    ensures o.Outcome? && o.write.Some? ==> o.result.Done? && o.write.value.status == Some(o.result.status)
  {
    if key !in blobs || blobs[key] == EmptyText then Outcome(Skip(key, "missing blob"), None)
    else if blobs[key] == BadJson then Outcome(Skip(key, "bad json"), None)
    else if blobs[key] == NullJson then Threw(NullRecordError)
    else ProcessRecord(key, Normalize(blobs[key].doc), rounds, provider)
  }

  /** A parsed record: the fast path, or the polling rounds and the final status. */
  function ProcessRecord(key: string, p: Persona, rounds: nat, provider: Provider): (o: Outcome)
    ensures o.Outcome?
    ensures o.result == Done(key, "ready") || o.result == Done(key, "processing")
    ensures o.write.Some? ==> o.write.value.status == Some(o.result.status)
  {
    if FastReady(p) then
      if p.status != Some("ready") then Outcome(Done(key, "ready"), Some(p.(status := Some("ready"))))
      else Outcome(Done(key, "ready"), None)
    else Settle(key, p, rounds, provider)
  }

  /** Lines 81-121: the rounds, then `ready` exactly when every prompt has its video, and a
      write exactly when a pass moved something. */
  function Settle(key: string, p: Persona, rounds: nat, provider: Provider): (o: Outcome)
    ensures o.Outcome?
    ensures o.result == Done(key, if HasAllVideos(Poll(p, 0, rounds, provider).0) then "ready" else "processing")
    ensures o.write.Some? <==> Poll(p, 0, rounds, provider).1
    ensures o.write.Some? ==> o.write.value == Poll(p, 0, rounds, provider).0.(status := Some(o.result.status))
  {
    var (q, changed) := Poll(p, 0, rounds, provider);
    var st := if HasAllVideos(q) then "ready" else "processing";
    Outcome(Done(key, st), if changed then Some(q.(status := Some(st))) else None)
  }

  /** The store after `Process`: the record is replaced only when it is written. */
  function Apply(blobs: Store, key: string, o: Outcome): Store {
    if o.Outcome? && o.write.Some? then blobs[key := Json(Serialize(o.write.value))] else blobs
  }

  /** `processPersona` as the source writes it: the defaults, the fast path, the outer
      round loop and the inner loop over a snapshot of `pending`, then the final status and
      the conditional write. */
  method ProcessPersona(blobs: Store, key: string, rounds: nat, provider: Provider)
    returns (result: Result<PersonaResult, string>, blobs': Store, wrote: bool)
    ensures var o := Process(blobs, key, rounds, provider);
      && (o.Threw? ==> result == Err(o.message) && blobs' == blobs && !wrote)
      && (o.Outcome? ==> result == Ok(o.result) && wrote == o.write.Some? && blobs' == Apply(blobs, key, o))
  {
    if key !in blobs || blobs[key] == EmptyText {
      return Ok(Skip(key, "missing blob")), blobs, false;
    }
    if blobs[key] == BadJson {
      return Ok(Skip(key, "bad json")), blobs, false;
    }
    if blobs[key] == NullJson {
      return Err(NullRecordError), blobs, false;
    }
    var doc := blobs[key].doc;
    var p := Persona([], [], [], doc.failures, doc.status);
    p := p.(videos := if doc.videos.Some? then doc.videos.value else []);
    p := p.(prompts := if doc.prompts.Some? && |doc.prompts.value| > 0 then doc.prompts.value else DefaultPrompts);
    p := p.(pending := if doc.pending.Some? then doc.pending.value else []);
    assert p == Normalize(doc);

    if |p.pending| == 0 && HasAllVideos(p) {
      if p.status != Some("ready") {
        p := p.(status := Some("ready"));
        return Ok(Done(key, "ready")), blobs[key := Json(Serialize(p))], true;
      }
      return Ok(Done(key, "ready")), blobs, false;
    }
    var r;
    r, blobs', wrote := PollAndSettle(blobs, key, p, rounds, provider);
    result := Ok(r);
  }

  /** Lines 81-121 as the source writes them. */
  method PollAndSettle(blobs: Store, key: string, p0: Persona, rounds: nat, provider: Provider)
    returns (result: PersonaResult, blobs': Store, wrote: bool)
    ensures var o := Settle(key, p0, rounds, provider);
      result == o.result && wrote == o.write.Some? && blobs' == Apply(blobs, key, o)
  {
    var p, changed := PollRounds(p0, rounds, provider);
    var st := if HasAllVideos(p) then "ready" else "processing";
    p := p.(status := Some(st));
    result := Done(key, st);
    if changed {
      blobs', wrote := blobs[key := Json(Serialize(p))], true;
    } else {
      blobs', wrote := blobs, false;
    }
  }

  /** The outer `while` of lines 81-111: passes until one leaves nothing waiting, at most
      `rounds` of them. */
  method PollRounds(p0: Persona, rounds: nat, provider: Provider) returns (p: Persona, changed: bool)
    ensures (p, changed) == Poll(p0, 0, rounds, provider)
  {
    p := p0;
    changed := false;
    var round: nat := 0;
    while round < rounds
      invariant round <= rounds
      invariant Poll(p, round, rounds, provider).0 == Poll(p0, 0, rounds, provider).0
      invariant (changed || Poll(p, round, rounds, provider).1) == Poll(p0, 0, rounds, provider).1
      decreases rounds - round
    {
      var moved, remaining;
      p, moved, remaining := PollPass(p, round, provider);
      changed := changed || moved;
      if remaining == 0 {
        break;
      }
      round := round + 1;
    }
  }

  /** The inner `for` loop of lines 84-107, over a snapshot of the pending entries. */
  method PollPass(p0: Persona, round: nat, provider: Provider) returns (p: Persona, moved: bool, remaining: nat)
    ensures PassState(p, moved, remaining) == Pass(p0, p0.pending, round, provider)
  {
    p := p0;
    moved := false;
    remaining := 0;
    var entries := p0.pending;
    var i := 0;
    while i < |entries|
      invariant i <= |entries|
      invariant Pass(p, entries[i..], round, provider).p == Pass(p0, entries, round, provider).p
      invariant (moved || Pass(p, entries[i..], round, provider).moved) == Pass(p0, entries, round, provider).moved
      invariant remaining + Pass(p, entries[i..], round, provider).remaining == Pass(p0, entries, round, provider).remaining
    {
      assert entries[i..][0] == entries[i] && entries[i..][1..] == entries[i + 1..];
      var k := entries[i].key;
      var info := entries[i].info;
      if info.None? || HasVideoFor(p.videos, k) {
        i := i + 1;
        continue;
      }
      var res := CheckTask(provider, round, info.value);
      if res.Err? {
        remaining := remaining + 1;
      } else {
        var r := res.value;
        if (r.status == "completed" || r.status == "succeed" || r.videoUrl != "") && r.videoUrl != "" {
          p := p.(videos := p.videos + [Video(k, "", r.videoUrl, r.thumbnailUrl, r.duration)]);
          p := p.(pending := RemoveKey(p.pending, k));
          moved := true;
        } else if r.status == "failed" || r.status == "error" {
          p := p.(failures := Some(p.failures.GetOr(map[])[k := RenderFailed]));
          p := p.(pending := RemoveKey(p.pending, k));
          moved := true;
        } else {
          remaining := remaining + 1;
        }
      }
      i := i + 1;
    }
    assert entries[i..] == [];
  }

  // ---------------------------------------------------------------------------------------
  // The handler (lines 120-143)

  /** Line 131: only listed keys ending in `.json` are processed. */
  function JsonKeys(listed: seq<string>): (r: seq<string>)
    ensures forall k :: k in r <==> k in listed && EndsWith(k, ".json")
    ensures |r| <= |listed|
    ensures |listed| == 1 ==> r == (if EndsWith(listed[0], ".json") then listed else [])
  {
    if listed == [] then []
    else (if EndsWith(listed[0], ".json") then [listed[0]] else []) + JsonKeys(listed[1..])
  }

  /** The filter keeps the listing's order and its repetitions: filtering two listings one
      after the other is filtering their concatenation. */
  lemma {:induction false} JsonKeysAppend(a: seq<string>, b: seq<string>)
    ensures JsonKeys(a + b) == JsonKeys(a) + JsonKeys(b)
    decreases |a|
  {
    if a != [] {
      assert (a + b)[0] == a[0] && (a + b)[1..] == a[1..] + b;
      JsonKeysAppend(a[1..], b);
    } else {
      assert a + b == b;
    }
  }

  /** The state of the batch loop: the results so far, the store, and the message of what a
      `processPersona` call threw, which ends the loop. */
  datatype Batch = Batch(results: seq<PersonaResult>, store: Store, thrown: Option<string>)

  predicate IsNull(blobs: Store, k: string) {
    k in blobs && blobs[k] == NullJson
  }

  /** The keys processed one after the other, each on the store left by the previous one,
      until one of them throws. The writes made before the throw stay in the store. */
  function ProcessEach(blobs: Store, keys: seq<string>, rounds: nat, provider: Provider): (r: Batch)
    ensures |r.results| <= |keys|
    ensures forall i :: 0 <= i < |r.results| ==> r.results[i].key == keys[i]
    ensures r.thrown.None? <==> forall i :: 0 <= i < |keys| ==> !IsNull(blobs, keys[i])
    ensures r.thrown.None? ==> |r.results| == |keys|
    ensures r.thrown.Some? ==>
      && r.thrown.value == NullRecordError
      && |r.results| < |keys| && IsNull(blobs, keys[|r.results|])
      && forall i :: 0 <= i < |r.results| ==> !IsNull(blobs, keys[i])
    ensures r.store.Keys == blobs.Keys
    ensures forall k :: k in blobs ==> (IsNull(r.store, k) <==> IsNull(blobs, k))
    ensures forall k :: k in blobs && k !in keys ==> r.store[k] == blobs[k]
  {
    if keys == [] then Batch([], blobs, None)
    else
      var prev := ProcessEach(blobs, keys[..|keys| - 1], rounds, provider);
      var r := NextBatch(prev, keys[|keys| - 1], rounds, provider);
      EachStep(blobs, keys, prev, rounds, provider);
      r
  }

  /** One iteration of the batch loop: nothing more once a key has thrown. */
  function NextBatch(prev: Batch, key: string, rounds: nat, provider: Provider): Batch {
    if prev.thrown.Some? then prev
    else
      var o := Process(prev.store, key, rounds, provider);
      if o.Threw? then Batch(prev.results, prev.store, Some(o.message))
      else Batch(prev.results + [o.result], Apply(prev.store, key, o), None)
  }

  /** What `ProcessEach` promises of a batch over `keys`. */
  predicate BatchFacts(blobs: Store, keys: seq<string>, r: Batch) {
    && |r.results| <= |keys|
    && (forall i :: 0 <= i < |r.results| ==> r.results[i].key == keys[i])
    && (r.thrown.None? <==> forall i :: 0 <= i < |keys| ==> !IsNull(blobs, keys[i]))
    && (r.thrown.None? ==> |r.results| == |keys|)
    && (r.thrown.Some? ==>
          && r.thrown.value == NullRecordError
          && |r.results| < |keys| && IsNull(blobs, keys[|r.results|])
          && forall i :: 0 <= i < |r.results| ==> !IsNull(blobs, keys[i]))
    && r.store.Keys == blobs.Keys
    && (forall k :: k in blobs ==> (IsNull(r.store, k) <==> IsNull(blobs, k)))
    && (forall k :: k in blobs && k !in keys ==> r.store[k] == blobs[k])
  }

  /** One more key keeps the batch facts: after a throw nothing changes; otherwise the key's
      result is appended and only its record can change, or it throws and nothing changes. */
  lemma EachStep(blobs: Store, keys: seq<string>, prev: Batch, rounds: nat, provider: Provider)
    requires keys != [] && BatchFacts(blobs, keys[..|keys| - 1], prev)
    ensures BatchFacts(blobs, keys, NextBatch(prev, keys[|keys| - 1], rounds, provider))
  {
    var front, last := keys[..|keys| - 1], keys[|keys| - 1];
    assert keys == front + [last];
    if prev.thrown.Some? {
      EachAfterThrow(blobs, front, last, prev);
    } else {
      var o := Process(prev.store, last, rounds, provider);
      ApplyKeepsOthers(prev.store, last, o);
      if o.Threw? {
        EachThrows(blobs, front, last, prev);
      } else {
        EachAppends(blobs, front, last, prev, o);
      }
    }
  }

  lemma EachAfterThrow(blobs: Store, front: seq<string>, last: string, prev: Batch)
    requires BatchFacts(blobs, front, prev) && prev.thrown.Some?
    ensures BatchFacts(blobs, front + [last], prev)
  {
    var keys := front + [last];
    assert forall i :: 0 <= i < |front| ==> keys[i] == front[i];
  }

  lemma EachThrows(blobs: Store, front: seq<string>, last: string, prev: Batch)
    requires BatchFacts(blobs, front, prev) && prev.thrown.None? && IsNull(prev.store, last)
    ensures BatchFacts(blobs, front + [last], Batch(prev.results, prev.store, Some(NullRecordError)))
  {
    var keys := front + [last];
    assert forall i :: 0 <= i < |front| ==> keys[i] == front[i];
    assert keys[|front|] == last;
  }

  lemma EachAppends(blobs: Store, front: seq<string>, last: string, prev: Batch, o: Outcome)
    requires BatchFacts(blobs, front, prev) && prev.thrown.None? && !IsNull(prev.store, last)
    requires o.Outcome? && o.result.key == last && (o.write.Some? ==> last in prev.store)
    ensures BatchFacts(blobs, front + [last], Batch(prev.results + [o.result], Apply(prev.store, last, o), None))
  {
    var keys := front + [last];
    assert forall i :: 0 <= i < |front| ==> keys[i] == front[i];
    assert keys[|front|] == last;
    ApplyKeepsOthers(prev.store, last, o);
  }

  /** Only the record processed can change, no key is added or dropped, and a write never
      leaves a null record. */
  lemma ApplyKeepsOthers(blobs: Store, key: string, o: Outcome)
    requires o.Outcome? && o.write.Some? ==> key in blobs
    ensures Apply(blobs, key, o).Keys == blobs.Keys
    ensures forall k :: k in blobs && k != key ==> Apply(blobs, key, o)[k] == blobs[k]
    ensures o.Outcome? && o.write.Some? ==> Apply(blobs, key, o)[key].Json?
  {
  }

  datatype HandlerResponse =
    | NoContent
    | Processed(processed: nat, results: seq<PersonaResult>)
    | ProcessorFailed(message: string)

  /** Lines 120-143: each listed `.json` key in turn; a throw ends the batch with
      `processor_failed` and its message, after the earlier records were written. */
  method Handler(httpMethod: string, blobs: Store, listed: seq<string>, rounds: nat, provider: Provider)
    returns (resp: HandlerResponse, blobs': Store)
    ensures httpMethod == "OPTIONS" ==> resp == NoContent && blobs' == blobs
    ensures httpMethod != "OPTIONS" ==>
      var keys := JsonKeys(listed);
      var b := ProcessEach(blobs, keys, rounds, provider);
      && blobs' == b.store
      && (b.thrown.None? ==> resp == Processed(|keys|, b.results))
      && (b.thrown.Some? ==> resp == ProcessorFailed(b.thrown.value))
  {
    if httpMethod == "OPTIONS" {
      return NoContent, blobs;
    }
    var items := JsonKeys(listed);
    var results: seq<PersonaResult> := [];
    blobs' := blobs;
    var i := 0;
    while i < |items|
      invariant i <= |items|
      invariant ProcessEach(blobs, items[..i], rounds, provider) == Batch(results, blobs', None)
    {
      var res, wrote;
      res, blobs', wrote := ProcessPersona(blobs', items[i], rounds, provider);
      ProcessEachOneMore(blobs, items, i, rounds, provider);
      if res.Err? {
        ProcessEachThrown(blobs, items, i + 1, rounds, provider);
        return ProcessorFailed(res.error), blobs';
      }
      results := results + [res.value];
      i := i + 1;
    }
    assert items[..i] == items;
    resp := Processed(|results|, results);
  }

  /** A batch over one more key is one more step of the loop. */
  lemma ProcessEachOneMore(blobs: Store, keys: seq<string>, i: nat, rounds: nat, provider: Provider)
    requires i < |keys|
    ensures ProcessEach(blobs, keys[..i + 1], rounds, provider)
         == NextBatch(ProcessEach(blobs, keys[..i], rounds, provider), keys[i], rounds, provider)
  {
    assert keys[..i + 1][..i] == keys[..i];
  }

  /** Once a prefix of the keys has thrown, the rest of the keys change nothing. */
  lemma {:induction false} ProcessEachThrown(blobs: Store, keys: seq<string>, n: nat, rounds: nat, provider: Provider)
    requires n <= |keys| && ProcessEach(blobs, keys[..n], rounds, provider).thrown.Some?
    ensures ProcessEach(blobs, keys, rounds, provider) == ProcessEach(blobs, keys[..n], rounds, provider)
    decreases |keys|
  {
    if n < |keys| {
      var front := keys[..|keys| - 1];
      assert front[..n] == keys[..n];
      ProcessEachThrown(blobs, front, n, rounds, provider);
      NextBatchThrown(ProcessEach(blobs, front, rounds, provider), keys[|keys| - 1], rounds, provider);
    } else {
      assert keys[..n] == keys;
    }
  }

  lemma NextBatchThrown(b: Batch, key: string, rounds: nat, provider: Provider)
    requires b.thrown.Some?
    ensures NextBatch(b, key, rounds, provider) == b
  {
  }

  // ---------------------------------------------------------------------------------------
  // Invariants of the reconciliation

  function PendingKeys(es: seq<PendingEntry>): set<string> {
    set e | e in es :: e.key
  }

  function VideoKeys(vs: seq<Video>): set<string> {
    set v | v in vs :: VideoKey(v)
  }

  function FailureKeys(f: Option<map<string, string>>): set<string> {
    if f.Some? then f.value.Keys else {}
  }

  /** The keys of a JavaScript object are distinct. */
  predicate DistinctKeys(es: seq<PendingEntry>) {
    forall i, j :: 0 <= i < j < |es| ==> es[i].key != es[j].key
  }

  /** No key is at once pending, captured and failed. */
  predicate Disjoint(p: Persona) {
    && DistinctKeys(p.pending)
    && PendingKeys(p.pending) !! VideoKeys(p.videos)
    && PendingKeys(p.pending) !! FailureKeys(p.failures)
    && VideoKeys(p.videos) !! FailureKeys(p.failures)
  }

  /** Every key the record knows of, wherever it is. */
  function Tracked(p: Persona): set<string> {
    PendingKeys(p.pending) + VideoKeys(p.videos) + FailureKeys(p.failures)
  }

  lemma {:induction false} RemoveKeyDistinct(es: seq<PendingEntry>, k: string)
    requires DistinctKeys(es)
    ensures DistinctKeys(RemoveKey(es, k))
    ensures PendingKeys(RemoveKey(es, k)) == PendingKeys(es) - {k}
  {
    if es != [] {
      var tail := es[1..];
      HeadAndTail(es);
      RemoveKeyDistinct(tail, k);
      var rest := RemoveKey(tail, k);
      if es[0].key != k {
        assert RemoveKey(es, k) == [es[0]] + rest;
        ConsDistinct(es[0], rest);
      } else {
        assert RemoveKey(es, k) == rest;
      }
    }
  }

  /** The tail of a list of distinct keys has distinct keys, none of them the head's. */
  lemma HeadAndTail(es: seq<PendingEntry>)
    requires es != [] && DistinctKeys(es)
    ensures DistinctKeys(es[1..])
    ensures forall e :: e in es[1..] ==> e.key != es[0].key
  {
    var tail := es[1..];
    forall i, j | 0 <= i < j < |tail| ensures tail[i].key != tail[j].key {
      assert tail[i] == es[i + 1] && tail[j] == es[j + 1];
    }
    forall e | e in tail ensures e.key != es[0].key {
      var m :| 0 <= m < |tail| && tail[m] == e;
      assert es[m + 1] == e;
    }
  }

  lemma ConsDistinct(x: PendingEntry, rest: seq<PendingEntry>)
    requires DistinctKeys(rest) && forall e :: e in rest ==> e.key != x.key
    ensures DistinctKeys([x] + rest)
  {
    var r := [x] + rest;
    forall i, j | 0 <= i < j < |r| ensures r[i].key != r[j].key {
      assert r[j] == rest[j - 1];
      if i > 0 {
        assert r[i] == rest[i - 1];
      }
    }
  }


  /** The step on an entry that is still pending: only that entry's key can move, and it moves
      from `pending` into `videos` or `failures`, never elsewhere. */
  lemma StepFacts(p: Persona, e: PendingEntry, round: nat, provider: Provider)
    requires DistinctKeys(p.pending) && e in p.pending
    ensures var o := Step(p, e, round, provider);
      && DistinctKeys(o.p.pending)
      && (forall x :: x in o.p.pending ==> x in p.pending)
      && (o.moved ==> PendingKeys(o.p.pending) == PendingKeys(p.pending) - {e.key})
      && (Disjoint(p) ==> Disjoint(o.p) && Tracked(o.p) == Tracked(p))
  {
    var o := Step(p, e, round, provider);
    if o.moved {
      RemoveKeyDistinct(p.pending, e.key);
      assert e.key in PendingKeys(p.pending);
      if Disjoint(p) {
        var r := CheckTask(provider, round, e.info.value).value;
        if Classify(r) == Completed {
          var v := Video(e.key, "", r.videoUrl, r.thumbnailUrl, r.duration);
          assert VideoKey(v) == e.key;
          assert VideoKeys(o.p.videos) == VideoKeys(p.videos) + {e.key};
        } else {
          assert FailureKeys(o.p.failures) == FailureKeys(p.failures) + {e.key};
        }
      }
    }
  }

  /** A pass over distinct entries that are all pending. */
  lemma {:induction false} PassFacts(p: Persona, es: seq<PendingEntry>, round: nat, provider: Provider)
    requires DistinctKeys(p.pending) && DistinctKeys(es)
    requires forall e :: e in es ==> e in p.pending
    ensures var o := Pass(p, es, round, provider);
      && DistinctKeys(o.p.pending)
      && (forall x :: x in o.p.pending ==> x in p.pending)
      && (o.moved ==> PendingKeys(o.p.pending) < PendingKeys(p.pending))
      && (!o.moved ==> o.p == p)
      && (Disjoint(p) ==> Disjoint(o.p) && Tracked(o.p) == Tracked(p))
    decreases |es|
  {
    if es != [] {
      var s := Step(p, es[0], round, provider);
      StepFacts(p, es[0], round, provider);
      assert DistinctKeys(es[1..]) by {
        forall i, j | 0 <= i < j < |es[1..]| ensures es[1..][i].key != es[1..][j].key {
          assert es[1..][i] == es[i + 1] && es[1..][j] == es[j + 1];
        }
      }
      forall e | e in es[1..] ensures e in s.p.pending {
        var j :| 0 <= j < |es[1..]| && es[1..][j] == e;
        assert es[j + 1] == e && es[j + 1].key != es[0].key;
        if s.moved {
          assert s.p.pending == RemoveKey(p.pending, es[0].key);
        }
      }
      PassFacts(s.p, es[1..], round, provider);
      if s.moved {
        assert es[0].key in PendingKeys(p.pending);
      }
    }
  }

  /** A pass only removes pending entries and only appends clips. */
  lemma {:induction false} PassGrows(p: Persona, es: seq<PendingEntry>, round: nat, provider: Provider)
    ensures var o := Pass(p, es, round, provider);
      && (forall x :: x in o.p.pending ==> x in p.pending)
      && p.videos <= o.p.videos
    decreases |es|
  {
    if es != [] {
      var s := Step(p, es[0], round, provider);
      PassGrows(s.p, es[1..], round, provider);
    }
  }

  lemma VideoForPrefix(vs: seq<Video>, ws: seq<Video>, k: string)
    requires vs <= ws && HasVideoFor(vs, k)
    ensures HasVideoFor(ws, k)
  {
    var i :| 0 <= i < |vs| && VideoKey(vs[i]) == k;
    assert ws[i] == vs[i];
  }

  /** Lines 92-103 over the whole pass: an entry for which the provider reports a URL or a
      failure leaves `pending`, unless a clip for its key was already there, in which case it
      was skipped. */
  lemma {:induction false} PassSettles(p: Persona, es: seq<PendingEntry>, round: nat, provider: Provider)
    ensures var o := Pass(p, es, round, provider);
      forall i :: 0 <= i < |es| && Settles(es[i], round, provider) ==>
        es[i].key !in PendingKeys(o.p.pending) || HasVideoFor(o.p.videos, es[i].key)
    decreases |es|
  {
    if es != [] {
      var o := Pass(p, es, round, provider);
      var s := Step(p, es[0], round, provider);
      PassSettles(s.p, es[1..], round, provider);
      PassGrows(s.p, es[1..], round, provider);
      assert p.videos <= s.p.videos;
      forall i | 0 <= i < |es| && Settles(es[i], round, provider)
        ensures es[i].key !in PendingKeys(o.p.pending) || HasVideoFor(o.p.videos, es[i].key)
      {
        if i > 0 {
          assert es[1..][i - 1] == es[i];
        } else if HasVideoFor(p.videos, es[0].key) {
          VideoForPrefix(p.videos, o.p.videos, es[0].key);
        } else {
          assert s.moved;
          assert es[0].key !in PendingKeys(s.p.pending);
        }
      }
    }
  }

  /** The rounds of one invocation keep the same facts. */
  lemma PollFacts(p: Persona, round: nat, rounds: nat, provider: Provider)
    requires DistinctKeys(p.pending)
    ensures var (q, changed) := Poll(p, round, rounds, provider);
      && (changed ==> PendingKeys(q.pending) < PendingKeys(p.pending))
      && (!changed ==> q == p)
      && (Disjoint(p) ==> Disjoint(q) && Tracked(q) == Tracked(p))
    decreases rounds - round
  {
    if round < rounds {
      PassFacts(p, p.pending, round, provider);
      var o := Pass(p, p.pending, round, provider);
      if o.remaining != 0 {
        PollFacts(o.p, round + 1, rounds, provider);
      }
    }
  }

  /** The record `processPersona` reconciles to, before its status is recomputed. */
  function Reconciled(p: Persona, rounds: nat, provider: Provider): Persona {
    if FastReady(p) then p else Poll(p, 0, rounds, provider).0
  }

  /** The reported status is `ready` exactly when the reconciled record has every clip, and
      whatever is written is that record with that status. */
  lemma ReadyIffAllVideos(blobs: Store, key: string, rounds: nat, provider: Provider)
    requires key in blobs && blobs[key].Json?
    ensures var p := Normalize(blobs[key].doc);
      var o := Process(blobs, key, rounds, provider);
      var q := Reconciled(p, rounds, provider);
      && o.result.Done?
      && (o.result.status == "ready" <==> HasAllVideos(q))
      && (o.write.Some? ==> o.write.value == q.(status := Some(o.result.status)))
  {
  }

  /** Lines 70-76: with nothing pending and every clip present, the result is `ready`, and the
      record is written only when its stored status was not already `ready`. */
  lemma FastPath(blobs: Store, key: string, rounds: nat, provider: Provider)
    requires key in blobs && blobs[key].Json?
    requires var p := Normalize(blobs[key].doc); p.pending == [] && HasAllVideos(p)
    ensures var p := Normalize(blobs[key].doc);
      var o := Process(blobs, key, rounds, provider);
      && o.result == Done(key, "ready")
      && (o.write.Some? <==> p.status != Some("ready"))
      && (o.write.Some? ==> o.write.value == p.(status := Some("ready")))
  {
  }

  /** Lines 113-116: on the polling path the record is written exactly when at least one
      pending key moved out of `pending`. */
  lemma WriteIffMoved(blobs: Store, key: string, rounds: nat, provider: Provider)
    requires key in blobs && blobs[key].Json?
    requires var p := Normalize(blobs[key].doc); DistinctKeys(p.pending) && !FastReady(p)
    ensures var p := Normalize(blobs[key].doc);
      var o := Process(blobs, key, rounds, provider);
      var q := Reconciled(p, rounds, provider);
      o.write.Some? <==> PendingKeys(q.pending) < PendingKeys(p.pending)
  {
    PollFacts(Normalize(blobs[key].doc), 0, rounds, provider);
  }

  /** A record whose keys were pairwise separated stays so, and no key is lost or invented:
      every key that leaves `pending` is now in `videos` or in `failures`. */
  lemma ProcessKeepsDisjoint(blobs: Store, key: string, rounds: nat, provider: Provider)
    requires key in blobs && blobs[key].Json? && Disjoint(Normalize(blobs[key].doc))
    ensures var p := Normalize(blobs[key].doc);
      var o := Process(blobs, key, rounds, provider);
      o.write.Some? ==> Disjoint(o.write.value) && Tracked(o.write.value) == Tracked(p)
  {
    var p := Normalize(blobs[key].doc);
    if !FastReady(p) {
      PollFacts(p, 0, rounds, provider);
    }
  }

  /** A record written with nothing left pending is a fixed point: the next invocation, with any
      budget and any provider replies, reports the same status and writes nothing. */
  lemma SettledRecordIsFixedPoint(blobs: Store, key: string, rounds: nat, provider: Provider,
                                  rounds': nat, provider': Provider)
    requires var o := Process(blobs, key, rounds, provider); o.Outcome? && o.write.Some? && o.write.value.pending == []
    ensures var o := Process(blobs, key, rounds, provider);
      Process(Apply(blobs, key, o), key, rounds', provider') == Outcome(o.result, None)
  {
    var o := Process(blobs, key, rounds, provider);
    var w := o.write.value;
    var p := Normalize(blobs[key].doc);
    assert |w.prompts| > 0 by {
      if !FastReady(p) { PromptsKept(p, 0, rounds, provider); }
    }
    NormalizeSerialize(w);
    if !HasAllVideos(w) {
      assert Pass(w, w.pending, 0, provider') == PassState(w, false, 0);
    }
  }

  lemma PromptsKept(p: Persona, round: nat, rounds: nat, provider: Provider)
    ensures Poll(p, round, rounds, provider).0.prompts == p.prompts
    decreases rounds - round
  {
    if round < rounds {
      PassPromptsKept(p, p.pending, round, provider);
      var o := Pass(p, p.pending, round, provider);
      if o.remaining != 0 {
        PromptsKept(o.p, round + 1, rounds, provider);
      }
    }
  }

  lemma {:induction false} PassPromptsKept(p: Persona, es: seq<PendingEntry>, round: nat, provider: Provider)
    ensures Pass(p, es, round, provider).p.prompts == p.prompts
    decreases |es|
  {
    if es != [] {
      PassPromptsKept(Step(p, es[0], round, provider).p, es[1..], round, provider);
    }
  }

  // ---------------------------------------------------------------------------------------
  // Scenarios

  const SampleKey: string := "personas/p1.json"
  const SampleUrl: string := "https://cdn.example/fun.mp4"

  function OneKeyedPrompt(): seq<Prompt> { [KeyedPrompt("fun", "What do you like to do for fun?")] }

  /** A provider that gives the same answer to every request in every round. */
  function Constant(reply: StatusReply): Provider { (n: nat, ep: Endpoint) => Answered(reply) }

  /** A render that completes is captured, the record becomes `ready` and is written. */
  lemma CompletionIsCaptured()
    ensures var doc := StoredPersona(None, Some(OneKeyedPrompt()),
                                     Some([PendingEntry("fun", Some(TaskRef("t1", "")))]), None, Some("processing"));
      var o := Process(map[SampleKey := Json(doc)], SampleKey, 1, Constant(StatusReply("completed", SampleUrl, None, None)));
      o == Outcome(Done(SampleKey, "ready"),
                   Some(Persona([Video("fun", "", SampleUrl, None, None)], OneKeyedPrompt(), [], None, Some("ready"))))
  {
    var pend := [PendingEntry("fun", Some(TaskRef("t1", "")))];
    var doc := StoredPersona(None, Some(OneKeyedPrompt()), Some(pend), None, Some("processing"));
    var provider := Constant(StatusReply("completed", SampleUrl, None, None));
    var p := Normalize(doc);
    assert p == Persona([], OneKeyedPrompt(), pend, None, Some("processing"));
    var q := Persona([Video("fun", "", SampleUrl, None, None)], OneKeyedPrompt(), [], None, Some("processing"));
    CompletedInOnePass(p, q);
    CapturedIsComplete(q);
  }

  lemma CompletedInOnePass(p: Persona, q: Persona)
    requires p == Persona([], OneKeyedPrompt(), [PendingEntry("fun", Some(TaskRef("t1", "")))], None, Some("processing"))
    requires q == Persona([Video("fun", "", SampleUrl, None, None)], OneKeyedPrompt(), [], None, Some("processing"))
    ensures Poll(p, 0, 1, Constant(StatusReply("completed", SampleUrl, None, None))) == (q, true)
  {
    var pend := p.pending;
    var reply := StatusReply("completed", SampleUrl, None, None);
    var provider := Constant(reply);
    assert CheckTask(provider, 0, TaskRef("t1", "")) == Ok(reply);
    assert !HasVideoFor([], "fun");
    assert RemoveKey(pend, "fun") == [];
    assert Step(p, pend[0], 0, provider) == PassState(q, true, 0);
    assert pend[1..] == [];
    assert Pass(p, pend, 0, provider) == PassState(q, true, 0);
  }

  lemma CapturedIsComplete(q: Persona)
    requires q == Persona([Video("fun", "", SampleUrl, None, None)], OneKeyedPrompt(), [], None, Some("processing"))
    ensures HasAllVideos(q)
  {
    OneKeyedPromptWanted();
    assert Lower(VideoKey(q.videos[0])) == "fun";
    assert "fun" in GotKeys(q.videos);
  }

  lemma OneKeyedPromptWanted()
    ensures WantedKeys(OneKeyedPrompt()) == ["fun"]
  {
    assert Lower("fun") == "fun";
    assert OneKeyedPrompt()[1..] == [];
  }

  /** A failed render moves to `failures`; the record is written but stays `processing`. */
  lemma FailureIsRecorded()
    ensures var doc := StoredPersona(None, Some(OneKeyedPrompt()),
                                     Some([PendingEntry("fun", Some(TaskRef("", "v1")))]), None, None);
      var o := Process(map[SampleKey := Json(doc)], SampleKey, 3, Constant(StatusReply("failed", "", None, None)));
      o == Outcome(Done(SampleKey, "processing"),
                   Some(Persona([], OneKeyedPrompt(), [], Some(map["fun" := RenderFailed]), Some("processing"))))
  {
    var pend := [PendingEntry("fun", Some(TaskRef("", "v1")))];
    var doc := StoredPersona(None, Some(OneKeyedPrompt()), Some(pend), None, None);
    var reply := StatusReply("failed", "", None, None);
    var provider := Constant(reply);
    var p := Normalize(doc);
    assert p == Persona([], OneKeyedPrompt(), pend, None, None);
    assert CheckTask(provider, 0, TaskRef("", "v1")) == Ok(reply);
    assert !HasVideoFor([], "fun");
    assert RemoveKey(pend, "fun") == [];
    var q := Persona([], OneKeyedPrompt(), [], Some(map["fun" := RenderFailed]), None);
    assert Step(p, pend[0], 0, provider) == PassState(q, true, 0);
    assert pend[1..] == [];
    assert Pass(p, pend, 0, provider) == PassState(q, true, 0);
    assert Poll(p, 0, 3, provider) == (q, true);
    OneKeyedPromptWanted();
    assert "fun" in WantedKeys(q.prompts) && "fun" !in GotKeys(q.videos);
  }

  /** A pending entry whose value is null blocks the fast path and is never polled: the result
      is `ready` but nothing is written, so the stored status stays `processing`. */
  lemma NullPendingLeavesStaleStatus()
    ensures var doc := StoredPersona(Some([Video("fun", "", SampleUrl, None, None)]), Some(OneKeyedPrompt()),
                                     Some([PendingEntry("fun", None)]), None, Some("processing"));
      var o := Process(map[SampleKey := Json(doc)], SampleKey, 5, Constant(StatusReply("", "", None, None)));
      o == Outcome(Done(SampleKey, "ready"), None)
  {
    var pend := [PendingEntry("fun", None)];
    var vs := [Video("fun", "", SampleUrl, None, None)];
    var doc := StoredPersona(Some(vs), Some(OneKeyedPrompt()), Some(pend), None, Some("processing"));
    var provider := Constant(StatusReply("", "", None, None));
    var p := Normalize(doc);
    assert p == Persona(vs, OneKeyedPrompt(), pend, None, Some("processing"));
    assert pend[1..] == [];
    assert Pass(p, pend, 0, provider) == PassState(p, false, 0);
    assert Poll(p, 0, 5, provider) == (p, false);
    OneKeyedPromptWanted();
    assert Lower(VideoKey(vs[0])) == "fun";
    assert "fun" in GotKeys(vs);
    assert HasAllVideos(p);
  }
}
