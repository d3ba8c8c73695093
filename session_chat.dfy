/** The in-memory chat session endpoint: a table from session id to a session object whose
    history the handler appends to and caps in place, at most ten turns. The clock reading is a
    parameter; a request body that does not parse is None. */
module SessionChat {
  import opened Wrappers
  import opened Text
  import opened Seqs

  const MaxTurns: nat := 10

  /** One history entry. `clip` is the `meta.clip` of an assistant turn that played a clip.
      Turns supplied by the client are taken as they come, so `role` is any string. */
  datatype Turn = Turn(role: string, content: string, clip: Option<string>)

  // ---------------------------------------------------------------------------------------
  // pickClip (lines 13-25)

  datatype ClipRule = ClipRule(keywords: seq<string>, clip: string)

  const ClipRules: seq<ClipRule> := [
    ClipRule(["fun", "do for fun"], "assets/p_fun.mp4"),
    ClipRule(["from", "where are you from"], "assets/p_from.mp4"),
    ClipRule(["relax", "favorite way to relax"], "assets/p_relax.mp4")
  ]

  /** `rule.k.some(kw => t.includes(kw))` */
  predicate RuleMatches(rule: ClipRule, t: string) {
    exists j :: 0 <= j < |rule.keywords| && Contains(t, rule.keywords[j])
  }

  /** The `for` loop with its early return: the clip of the first matching rule. */
  function FirstMatch(rules: seq<ClipRule>, t: string): (r: Option<string>)
    ensures r.None? <==> forall i :: 0 <= i < |rules| ==> !RuleMatches(rules[i], t)
    ensures r.Some? ==> exists i :: 0 <= i < |rules| && RuleMatches(rules[i], t) && r.value == rules[i].clip &&
                                     forall j :: 0 <= j < i ==> !RuleMatches(rules[j], t)
  {
    if rules == [] then None
    else if RuleMatches(rules[0], t) then Some(rules[0].clip)
    else
      var r := FirstMatch(rules[1..], t);
      assert forall i :: 1 <= i < |rules| ==> rules[i] == rules[1..][i - 1];
      assert r.Some? ==> exists i :: 0 <= i < |rules| && RuleMatches(rules[i], t) && r.value == rules[i].clip &&
                                     forall j :: 0 <= j < i ==> !RuleMatches(rules[j], t) by {
        if r.Some? {
          var i :| 0 <= i < |rules[1..]| && RuleMatches(rules[1..][i], t) && r.value == rules[1..][i].clip &&
                   forall j :: 0 <= j < i ==> !RuleMatches(rules[1..][j], t);
          assert forall j :: 0 <= j < i + 1 ==> !RuleMatches(rules[j], t) by {
            forall j | 0 <= j < i + 1 ensures !RuleMatches(rules[j], t) {
              if j > 0 { assert rules[j] == rules[1..][j - 1]; }
            }
          }
          assert RuleMatches(rules[i + 1], t) && r.value == rules[i + 1].clip;
        }
      }
      r
  }

  /** `pickClip`: the clip of the first rule having a keyword inside the lowercased text. */
  function PickClip(text: string): Option<string> {
    FirstMatch(ClipRules, Lower(text))
  }

  /** A picked clip is one of the three rule clips. */
  lemma PickClipIsRuleClip(text: string)
    ensures PickClip(text).Some? ==> PickClip(text).value in {"assets/p_fun.mp4", "assets/p_from.mp4", "assets/p_relax.mp4"}
  {
  }

  /** The long keywords add nothing: each contains its rule's short keyword, so the picker is
      decided by `fun`, `from` and `relax` alone, in that order. */
  lemma PickClipByShortKeywords(text: string)
    ensures var t := Lower(text);
      PickClip(text) ==
        if Contains(t, "fun") then Some("assets/p_fun.mp4")
        else if Contains(t, "from") then Some("assets/p_from.mp4")
        else if Contains(t, "relax") then Some("assets/p_relax.mp4")
        else None
  {
    var t := Lower(text);
    assert "do for fun"[7..10] == "fun" && OccursAt("do for fun", "fun", 7);
    assert "where are you from"[14..18] == "from" && OccursAt("where are you from", "from", 14);
    assert "favorite way to relax"[16..21] == "relax" && OccursAt("favorite way to relax", "relax", 16);
    if Contains(t, "do for fun") { ContainsTransitive(t, "do for fun", "fun"); }
    if Contains(t, "where are you from") { ContainsTransitive(t, "where are you from", "from"); }
    if Contains(t, "favorite way to relax") { ContainsTransitive(t, "favorite way to relax", "relax"); }
    TwoKeywords(ClipRules[0], t);
    TwoKeywords(ClipRules[1], t);
    TwoKeywords(ClipRules[2], t);
    assert ClipRules[1..][1..] == [ClipRules[2]];
  }

  lemma TwoKeywords(rule: ClipRule, t: string)
    requires |rule.keywords| == 2
    ensures RuleMatches(rule, t) <==> Contains(t, rule.keywords[0]) || Contains(t, rule.keywords[1])
  {
  }

  /** Lines 67-71: the assistant line chosen by clip name. */
  function AssistantLine(clip: string): string {
    if Contains(clip, "p_fun") then "Let me show you what I do for fun. 😄"
    else if Contains(clip, "p_from") then "Here’s a bit about where I’m from."
    else if Contains(clip, "p_relax") then "This is how I like to relax."
    else "Got it — playing a clip."
  }

  /** Each rule clip has its own line, so the generic line is never used for a picked clip. */
  lemma FunLine()
    ensures AssistantLine("assets/p_fun.mp4") == "Let me show you what I do for fun. 😄"
  {
    var c := "assets/p_fun.mp4";
    assert c[7..12] == "p_fun";
    assert OccursAt(c, "p_fun", 7);
  }

  lemma FromLine()
    ensures AssistantLine("assets/p_from.mp4") == "Here’s a bit about where I’m from."
  {
    var c := "assets/p_from.mp4";
    assert c[7..13] == "p_from";
    assert OccursAt(c, "p_from", 7);
    NoOccurrence(c, "p_fun", 7, 3);
  }

  lemma RelaxLine()
    ensures AssistantLine("assets/p_relax.mp4") == "This is how I like to relax."
  {
    var c := "assets/p_relax.mp4";
    assert c[7..14] == "p_relax";
    assert OccursAt(c, "p_relax", 7);
    NoFunInRelax();
    NoFromInRelax();
  }

  lemma NoFunInRelax()
    ensures !Contains("assets/p_relax.mp4", "p_fun")
  {
    NoOccurrence("assets/p_relax.mp4", "p_fun", 7, 2);
  }

  lemma NoFromInRelax()
    ensures !Contains("assets/p_relax.mp4", "p_from")
  {
    NoOccurrence("assets/p_relax.mp4", "p_from", 7, 2);
  }

  lemma ContainsSuffix(a: string, b: string, t: string)
    requires Contains(b, t)
    ensures Contains(a + b, t)
  {
    var i :| OccursAt(b, t, i);
    assert (a + b)[|a| + i..|a| + i + |t|] == b[i..i + |t|];
    assert OccursAt(a + b, t, |a| + i);
  }

  /** `t` does not occur in `s` when the only index from which it could start with `t[0]` is
      `p`, and it differs from `s` at offset `q` from there. */
  lemma NoOccurrence(s: string, t: string, p: int, q: int)
    requires |t| > 1 && 0 <= p && p + |t| <= |s| && 0 <= q < |t|
    requires forall i :: 0 <= i <= |s| - |t| && i != p ==> s[i] != t[0]
    requires s[p + q] != t[q]
    ensures !Contains(s, t)
  {
    forall i | 0 <= i <= |s| - |t| ensures !OccursAt(s, t, i) {
      if i == p {
        assert s[i..i + |t|][q] == s[p + q];
      } else {
        assert s[i..i + |t|][0] == s[i];
      }
    }
  }

  // ---------------------------------------------------------------------------------------
  // The request and the history update (lines 39-82)

  /** The request body. A falsy string field is "". */
  datatype Request = Request(sessionId: string, session_id: string, text: string, message: string,
                             history: Option<seq<Turn>>)

  datatype Response =
    | Answer(sessionId: string, matchedClip: Option<string>, fallbackResponse: Option<string>, history: seq<Turn>)
    | ServerError

  /** Line 42. */
  function SessionIdOf(req: Request): (r: string)
    ensures req.sessionId == "" && req.session_id == "" ==> r == "anon"
    ensures req.sessionId != "" ==> r == req.sessionId
    ensures req.sessionId == "" && req.session_id != "" ==> r == req.session_id
    ensures r != ""
  {
    if req.sessionId != "" then req.sessionId else if req.session_id != "" then req.session_id else "anon"
  }

  /** Line 43. */
  function UserText(req: Request): string {
    Trim(if req.text != "" then req.text else req.message)
  }

  /** Lines 62-79: the matched clip, the assistant turn and the text reply. */
  datatype Reply = Reply(clip: Option<string>, turn: Turn, fallback: string)

  function ReplyFor(userText: string): (r: Reply)
    ensures r.clip == PickClip(userText)
    ensures r.turn.role == "assistant" && r.turn.clip == r.clip
    ensures r.clip.Some? ==> r.fallback == "" && r.turn.content == AssistantLine(r.clip.value)
    ensures r.clip.None? ==> r.fallback != "" && r.turn.content == r.fallback
    ensures r.clip.None? && userText == "" ==> r.fallback == "Hi! What should we talk about?"
    ensures r.clip.None? && userText != "" ==> r.fallback == "Okay — " + userText
  {
    match PickClip(userText)
    case Some(c) => Reply(Some(c), Turn("assistant", AssistantLine(c), Some(c)), "")
    case None =>
      var f := if userText != "" then "Okay — " + userText else "Hi! What should we talk about?";
      Reply(None, Turn("assistant", f, None), f)
  }

  /** A `push` followed by `capHistory`: the new turn is last and the previous last turn is just
      before it. */
  function Push(h: seq<Turn>, x: Turn): (r: seq<Turn>)
    ensures 1 <= |r| <= MaxTurns && r[|r| - 1] == x
    ensures |h| >= 1 ==> |r| >= 2 && r[|r| - 2] == h[|h| - 1]
    ensures |h| < MaxTurns ==> r == h + [x]
  {
    var s := h + [x];
    var r := TakeLast(s, MaxTurns);
    assert r == s[|s| - |r|..];
    assert r[|r| - 1] == s[|s| - 1];
    assert |h| >= 1 && |r| >= 2 ==> r[|r| - 2] == s[|s| - 2];
    r
  }

  /** Lines 48-54: the client's turns seed an empty server history. */
  function Seed(prev: seq<Turn>, client: Option<seq<Turn>>): (r: seq<Turn>)
    ensures prev != [] || client.None? ==> r == prev
  {
    var turns := if client.Some? then client.value else [];
    if |turns| > 0 && |prev| == 0 then TakeLast(turns, MaxTurns) else prev
  }

  /** Lines 56-59. */
  function AddUser(h: seq<Turn>, t: string): seq<Turn> {
    if t != "" then Push(h, Turn("user", t, None)) else h
  }

  /** Lines 48-81 on the history: seed, push the user turn if there is text, push the assistant
      turn, each push capped. */
  function Appended(prev: seq<Turn>, client: Option<seq<Turn>>, userText: string, assistant: Turn): (r: seq<Turn>)
    ensures 1 <= |r| <= MaxTurns && r[|r| - 1] == assistant
    ensures userText != "" ==> |r| >= 2 && r[|r| - 2] == Turn("user", userText, None)
  {
    Push(AddUser(Seed(prev, client), userText), assistant)
  }

  /** The history after one request, from the history the session had before it. */
  function NextHistory(prev: seq<Turn>, req: Request): (r: seq<Turn>)
    ensures 1 <= |r| <= MaxTurns
    ensures r[|r| - 1] == ReplyFor(UserText(req)).turn
    ensures UserText(req) != "" ==> |r| >= 2 && r[|r| - 2] == Turn("user", UserText(req), None)
  {
    var t := UserText(req);
    Appended(prev, req.history, t, ReplyFor(t).turn)
  }

  /** Lines 48-54: the client's turns are used only to seed an empty session. */
  lemma ClientHistoryIgnoredWhenServerHasTurns(prev: seq<Turn>, req: Request, other: Option<seq<Turn>>)
    requires prev != []
    ensures NextHistory(prev, req) == NextHistory(prev, req.(history := other))
  {
  }

  /** An empty session is seeded with the last ten client turns. */
  lemma EmptySessionSeededFromClient(req: Request)
    requires req.history.Some? && req.history.value != []
    ensures NextHistory([], req) == NextHistory(TakeLast(req.history.value, MaxTurns), req.(history := None))
  {
  }

  /** The reply for a request with empty text: no user turn and the greeting, unless the empty
      text matches a clip, which it cannot. */
  lemma EmptyTextGreets(req: Request)
    requires UserText(req) == ""
    ensures ReplyFor("").fallback == "Hi! What should we talk about?"
    ensures NextHistory([], req.(history := None)) == [Turn("assistant", "Hi! What should we talk about?", None)]
  {
    assert Lower("") == "";
    assert forall i :: 0 <= i < |ClipRules| ==> !RuleMatches(ClipRules[i], "") by {
      forall i, j | 0 <= i < |ClipRules| && 0 <= j < |ClipRules[i].keywords|
        ensures !Contains("", ClipRules[i].keywords[j])
      {
        assert |ClipRules[i].keywords[j]| > 0;
      }
    }
  }

  /** Lines 85-92: the response body, for a session whose history before the request was
      `prev`. `fallbackResponse: "" || undefined` drops the field. */
  function ResponseFor(req: Request, prev: seq<Turn>): (r: Response)
    ensures r.Answer? && r.sessionId == SessionIdOf(req) && r.history == NextHistory(prev, req)
    ensures r.matchedClip == PickClip(UserText(req))
    ensures r.matchedClip.Some? <==> r.fallbackResponse.None?
  {
    var reply := ReplyFor(UserText(req));
    Answer(SessionIdOf(req), reply.clip, if reply.fallback == "" then None else Some(reply.fallback),
           NextHistory(prev, req))
  }

  // ---------------------------------------------------------------------------------------
  // The session objects and the table

  class Session {
    var history: seq<Turn>
    var lastUpdated: int

    constructor (now: int)
      ensures history == [] && lastUpdated == now
    {
      history := [];
      lastUpdated := now;
    }

    /** `capHistory`: drops the oldest turns beyond the cap, in place. */
    method CapHistory()
      modifies this
      ensures history == TakeLast(old(history), MaxTurns)
      ensures lastUpdated == old(lastUpdated)
    {
      if |history| > MaxTurns {
        history := history[|history| - MaxTurns..];
      }
    }

    /** Lines 48-82 on the session object: seed from the client, push the user turn and cap,
        push the assistant turn and cap, stamp. */
    method Update(client: Option<seq<Turn>>, userText: string, assistant: Turn, now: int)
      modifies this
      ensures history == Appended(old(history), client, userText, assistant)
      ensures lastUpdated == now
    {
      var clientTurns := if client.Some? then client.value else [];
      if |clientTurns| > 0 && |history| == 0 {
        history := TakeLast(clientTurns, MaxTurns);
      }
      assert history == Seed(old(history), client);
      if userText != "" {
        history := history + [Turn("user", userText, None)];
        CapHistory();
      }
      assert history == AddUser(Seed(old(history), client), userText);
      history := history + [assistant];
      CapHistory();
      lastUpdated := now;
    }
  }

  class SessionStore {
    /** The module-level `SESSIONS` map. */
    var sessions: map<string, Session>
    /** The session objects the table has handed out. */
    ghost var Repr: set<Session>

    constructor ()
      ensures sessions == map[] && Valid()
    {
      sessions := map[];
      Repr := {};
    }

    /** Every id's session is one the table handed out, no two ids share a session object,
        and every history is within the cap. */
    ghost predicate Valid()
      reads this, Repr
    {
      && (forall id :: id in sessions ==> sessions[id] in Repr)
      && Unshared()
      && forall s :: s in Repr ==> |s.history| <= MaxTurns
    }

    /** No two ids share a session object. */
    predicate Unshared()
      reads this
    {
      forall a, b :: a in sessions && b in sessions && a != b ==> sessions[a] != sessions[b]
    }

    /** `ensureSession`: a fresh empty session only when the id is absent. */
    method EnsureSession(id: string, now: int) returns (s: Session)
      requires Valid()
      modifies this
      ensures Valid()
      ensures id in sessions && s == sessions[id]
      ensures sessions.Keys == old(sessions.Keys) + {id}
      ensures id in old(sessions) ==> sessions == old(sessions) && Repr == old(Repr)
      ensures id !in old(sessions) ==>
        fresh(s) && sessions == old(sessions)[id := s] && Repr == old(Repr) + {s} &&
        s.history == [] && s.lastUpdated == now
      ensures id in old(sessions) ==> s.history == old(sessions[id].history)
      ensures forall other :: other in old(sessions) && other != id ==>
        sessions[other] == old(sessions[other]) && sessions[other] != s
        && sessions[other].history == old(sessions[other].history)
    {
      if id !in sessions {
        s := new Session(now);
        sessions := sessions[id := s];
        Repr := Repr + {s};
      } else {
        s := sessions[id];
      }
    }

    /** The handler: a body that does not parse gives 500 and changes nothing; otherwise the
        session is updated and the response carries its new history. */
    method Handle(body: Option<Request>, now: int) returns (resp: Response)
      requires Valid()
      modifies this, Repr
      ensures Valid()
      ensures body.None? ==> resp == ServerError && sessions == old(sessions)
      ensures body.None? ==> forall s :: s in sessions ==> sessions[s].history == old(sessions[s].history)
      ensures body.Some? ==>
        var req := body.value;
        var id := SessionIdOf(req);
        var prev := if id in old(sessions) then old(sessions[id].history) else [];
        && sessions.Keys == old(sessions.Keys) + {id}
        && sessions[id].history == NextHistory(prev, req)
        && sessions[id].lastUpdated == now
        && resp == ResponseFor(req, prev)
      ensures body.Some? ==> forall s :: s in old(sessions) && s != SessionIdOf(body.value) ==>
        sessions[s] == old(sessions[s]) && sessions[s].history == old(sessions[s].history)
    {
      if body.None? {
        return ServerError;
      }
      var req := body.value;
      var id := SessionIdOf(req);
      var userText := UserText(req);
      var reply := ReplyFor(userText);
      Record(id, req.history, userText, reply.turn, now);
      resp := Answer(id, reply.clip, if reply.fallback == "" then None else Some(reply.fallback), sessions[id].history);
    }

    /** Lines 45-82: resolve the session, seed it from the client, append the user turn and
        the assistant turn, cap, and stamp it. Every other session keeps its object and its
        history. */
    method Record(id: string, client: Option<seq<Turn>>, userText: string, assistant: Turn, now: int)
      requires Valid()
      modifies this, Repr
      ensures Valid()
      ensures var prev := if id in old(sessions) then old(sessions[id].history) else [];
        && sessions.Keys == old(sessions.Keys) + {id}
        && sessions[id].history == Appended(prev, client, userText, assistant)
        && sessions[id].lastUpdated == now
      ensures forall other :: other in old(sessions) && other != id ==>
        sessions[other] == old(sessions[other]) && sessions[other].history == old(sessions[other].history)
    {
      var sess := EnsureSession(id, now);
      UpdateSession(id, sess, client, userText, assistant, now);
    }

    /** The update of one id's session object, which leaves the table and every other
        session as they were. */
    method UpdateSession(id: string, sess: Session, client: Option<seq<Turn>>, userText: string,
                         assistant: Turn, now: int)
      requires Valid() && id in sessions && sessions[id] == sess
      modifies sess
      ensures Valid()
      ensures sessions == old(sessions) && Repr == old(Repr)
      ensures sess.history == Appended(old(sess.history), client, userText, assistant)
      ensures sess.lastUpdated == now
      ensures forall other :: other in sessions && other != id ==>
        sessions[other].history == old(sessions[other].history)
    {
      assert (this as object) != (sess as object);
      sess.Update(client, userText, assistant, now);
      forall k | k in sessions ensures |sessions[k].history| <= MaxTurns {
        if k != id { assert sessions[k] != sess; }
      }
    }
  }
}
