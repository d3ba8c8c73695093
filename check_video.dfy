/** The progress endpoint: a stored persona record is read by id and summarised as counts of
    wanted, finished and requested videos, a percentage and a time estimate.

    The store read is a given result and `JSON.parse` a given function; the `lastUpdated`
    clock reading is left out. */
module CheckVideo {
  import opened Wrappers
  import opened Text

  /** What the progress computation reads from a parsed record: the `length` of `prompts`,
      `videos` and `pending.videoRequests` when they are present, and `status` ("" when absent
      or falsy). */
  datatype VideoRecord = VideoRecord(prompts: Option<nat>, videos: Option<nat>,
                                     videoRequests: Option<nat>, status: string)

  datatype Progress = Progress(dopId: string, status: string, totalVideos: nat,
                               completedVideos: nat, pendingRequests: nat,
                               progressPercent: nat, estimatedTimeRemaining: string)

  /** The 204 answer to a CORS preflight, the 200 progress reply, or an error status. */
  datatype CheckResponse = Preflight | Reply(progress: Progress) | Failure(statusCode: int, error: string)

  // ---------------------------------------------------------------------------------------
  // The counts (lines 52-56)

  /** `persona.prompts?.length || 3`: never zero. */
  function TotalVideos(rec: VideoRecord): (r: nat)
    ensures r > 0
    ensures rec.prompts.Some? && rec.prompts.value > 0 ==> r == rec.prompts.value
    ensures rec.prompts.None? || rec.prompts.value == 0 ==> r == 3
  {
    match rec.prompts
    case Some(n) => if n > 0 then n else 3
    case None => 3
  }

  /** `x?.length || 0` */
  function LengthOrZero(o: Option<nat>): nat {
    if o.Some? then o.value else 0
  }

  /** `persona.status || 'unknown'` */
  function StatusOf(rec: VideoRecord): (r: string)
    ensures r != []
    ensures rec.status != "" ==> r == rec.status
    ensures rec.status == "" ==> r == "unknown"
  {
    if rec.status != "" then rec.status else "unknown"
  }

  // ---------------------------------------------------------------------------------------
  // Percent and estimate (lines 57-67)

  /** `Math.floor((completed / total) * 100)`, computed on integers. */
  function Percent(completed: nat, total: nat): (r: nat)
    requires total > 0
  {
    (completed * 100) / total
  }

  /** The percentage is below 100 exactly while videos are still missing, and 0 exactly
      while none is done. */
  lemma PercentBounds(completed: nat, total: nat)
    requires total > 0
    ensures Percent(completed, total) < 100 <==> completed < total
    ensures Percent(completed, total) == 0 <==> completed * 100 < total
    ensures completed <= total ==> Percent(completed, total) <= 100
  {
    FloorAtLeast(completed * 100, total, 100);
    FloorAtLeast(completed * 100, total, 1);
    FloorAtLeast(completed * 100, total, 101);
  }

  /** The floor of `x / t` reaches `k` exactly when `x` reaches `k * t`. */
  lemma FloorAtLeast(x: nat, t: nat, k: nat)
    requires t > 0
    ensures x / t >= k <==> x >= k * t
  {
    var q := x / t;
    assert q * t <= x < q * t + t;
    if q >= k {
      MulMono(k, q, t);
    } else {
      MulMono(q + 1, k, t);
    }
  }

  lemma MulMono(a: int, b: int, t: nat)
    requires a <= b
    ensures a * t <= b * t
  {
    assert b * t - a * t == (b - a) * t;
  }

  /** `Math.max(1, (total - completed) * 2)` */
  function MinutesLeft(total: nat, completed: nat): (r: int)
    ensures r >= 1
    ensures completed < total ==> r == 2 * (total - completed)
    ensures completed >= total ==> r == 1
  {
    Max(1, (total - completed) * 2)
  }

  const EstimatePrefix: string := "Estimated "

  function Estimate(status: string, total: nat, completed: nat): (r: string)
    ensures status == "ready" ==> r == "Ready!"
    ensures status != "processing" && status != "ready" ==> r == "A few minutes"
    ensures status == "processing" ==>
      r == EstimatePrefix + IntToString(MinutesLeft(total, completed)) + " minutes remaining"
  {
    if status == "processing" then
      EstimatePrefix + IntToString(MinutesLeft(total, completed)) + " minutes remaining"
    else if status == "ready" then "Ready!"
    else "A few minutes"
  }

  /** Reading the number back out of a processing estimate gives the minutes left. */
  lemma EstimateReadsBack(total: nat, completed: nat)
    ensures var e := Estimate("processing", total, completed);
      |EstimatePrefix| <= |e| && e[..|EstimatePrefix|] == EstimatePrefix
      && ParseInt(e[|EstimatePrefix|..]) == Some(MinutesLeft(total, completed))
  {
    var m := MinutesLeft(total, completed);
    var digits := NatToString(m);
    var tail := " minutes remaining";
    var e := EstimatePrefix + digits + tail;
    assert e[|EstimatePrefix|..] == digits + tail;
    ReadDigits(digits, tail);
    NatToStringValue(m);
  }

  /** `parseInt` reads a run of digits up to the first character that is not one. */
  lemma ReadDigits(d: string, t: string)
    requires d != [] && forall i :: 0 <= i < |d| ==> IsDigit(d[i])
    requires t != [] && !IsDigit(t[0])
    ensures ParseInt(d + t) == Some(DigitsValue(d))
  {
    var s := d + t;
    assert s[0] == d[0];
    ParseIntOfDigitStart(s);
    DigitsThenSpace(d, t);
  }

  lemma {:induction false} DigitsThenSpace(d: string, t: string)
    requires forall i :: 0 <= i < |d| ==> IsDigit(d[i])
    requires t != [] && !IsDigit(t[0])
    ensures DigitPrefix(d + t) == d
  {
    if d != [] {
      assert (d + t)[1..] == d[1..] + t;
      DigitsThenSpace(d[1..], t);
    }
  }

  /** The whole progress summary of a parsed record. */
  function ProgressOf(dopId: string, rec: VideoRecord): (r: Progress)
    ensures r.dopId == dopId && r.status == StatusOf(rec)
    ensures r.totalVideos == TotalVideos(rec) > 0
    ensures r.completedVideos == LengthOrZero(rec.videos)
    ensures r.pendingRequests == LengthOrZero(rec.videoRequests)
    ensures r.progressPercent == Percent(r.completedVideos, r.totalVideos)
    ensures r.estimatedTimeRemaining == Estimate(r.status, r.totalVideos, r.completedVideos)
  {
    var total := TotalVideos(rec);
    var completed := LengthOrZero(rec.videos);
    var status := StatusOf(rec);
    Progress(dopId, status, total, completed, LengthOrZero(rec.videoRequests),
             Percent(completed, total), Estimate(status, total, completed))
  }

  /** A record without a status is reported as `unknown` with the vague estimate. */
  lemma NoStatusIsUnknown(dopId: string, rec: VideoRecord)
    requires rec.status == ""
    ensures ProgressOf(dopId, rec).status == "unknown"
    ensures ProgressOf(dopId, rec).estimatedTimeRemaining == "A few minutes"
  {
  }

  // ---------------------------------------------------------------------------------------
  // The handler (lines 12-97)

  type RecordParser = string -> Option<VideoRecord>

  /** What `store.get` of line 39 gives: the text (`""` and null both read as no record), or a
      thrown error. */
  datatype StoreRead = Stored(text: string) | NoRecord | ReadFailed

  /** A parse failure is the thrown error of line 49; it and a failed read both reach the
      catch of lines 86-95. */
  function Handle(httpMethod: string, idParam: string, read: StoreRead, parse: RecordParser)
    : (r: CheckResponse)
    ensures httpMethod == "OPTIONS" ==> r == Preflight
    ensures httpMethod != "OPTIONS" && httpMethod != "GET" ==> r == Failure(405, "Method not allowed")
    ensures httpMethod == "GET" && idParam == "" ==> r == Failure(400, "dopId is required")
    ensures httpMethod == "GET" && idParam != "" && read.ReadFailed? ==>
      r == Failure(500, "Failed to check video status")
    ensures httpMethod == "GET" && idParam != "" && (read.NoRecord? || read == Stored("")) ==>
      r == Failure(404, "DOP not found")
    ensures httpMethod == "GET" && idParam != "" && read.Stored? && read.text != "" ==>
      match parse(read.text)
      case None => r == Failure(500, "Failed to check video status")
      case Some(rec) => r == Reply(ProgressOf(idParam, rec))
    ensures r.Reply? ==> httpMethod == "GET" && r.progress.dopId == idParam != ""
  {
    if httpMethod == "OPTIONS" then Preflight
    else if httpMethod != "GET" then Failure(405, "Method not allowed")
    else if idParam == "" then Failure(400, "dopId is required")
    else match read
      case ReadFailed => Failure(500, "Failed to check video status")
      case NoRecord => Failure(404, "DOP not found")
      case Stored(raw) =>
        if raw == "" then Failure(404, "DOP not found")
        else match parse(raw)
          case None => Failure(500, "Failed to check video status")
          case Some(rec) => Reply(ProgressOf(idParam, rec))
  }
}
