/** The project-capsule endpoint: the JSONL log is split into lines, the last `n` rows of the
    wanted session are collected by a backward scan, and the last ten of them are summarized.

    `JSON.parse` of one line is a given function to `Option<LogRow>` (None when it throws);
    fetching the log is a given result. */
module DopContext {
  import opened Wrappers
  import opened Text
  import opened Seqs

  /** One parsed log row; an absent or falsy string field is "", a non-array `tags` is None. */
  datatype LogRow = LogRow(session: string, step: string, summary: string,
                           tags: Option<seq<string>>, phase: string, next: string)

  type Parser = string -> Option<LogRow>

  // ---------------------------------------------------------------------------------------
  // Lines (line 44)

  /** Drops the `\r` of a `\r\n` line end. */
  function DropCR(line: string): string {
    if line != [] && line[|line| - 1] == '\r' then line[..|line| - 1] else line
  }

  /** `filter(Boolean)` on strings: the non-empty ones, in order and with repeats. */
  function NonEmpty(ls: seq<string>): (r: seq<string>)
    ensures |r| <= |ls|
    ensures |ls| == 1 ==> r == (if ls[0] != "" then ls else [])
    ensures forall i :: 0 <= i < |r| ==> r[i] != ""
    ensures forall l :: l in r <==> l in ls && l != ""
  {
    if ls == [] then []
    else (if ls[0] != "" then [ls[0]] else []) + NonEmpty(ls[1..])
  }

  /** The filter distributes over concatenation, so it keeps order and repeats. */
  lemma {:induction false} NonEmptyAppend(a: seq<string>, b: seq<string>)
    ensures NonEmpty(a + b) == NonEmpty(a) + NonEmpty(b)
  {
    if a != [] {
      assert (a + b)[0] == a[0];
      assert (a + b)[1..] == a[1..] + b;
      NonEmptyAppend(a[1..], b);
    } else {
      assert a + b == b;
    }
  }

  /** `DropCR` on every piece. */
  function DropCRs(pieces: seq<string>): (r: seq<string>)
    requires forall i :: 0 <= i < |pieces| ==> '\n' !in pieces[i]
    ensures |r| == |pieces|
    ensures forall i :: 0 <= i < |r| ==> r[i] == DropCR(pieces[i]) && '\n' !in r[i]
  {
    if pieces == [] then []
    else
      assert forall i :: 1 <= i < |pieces| ==> pieces[1..][i - 1] == pieces[i];
      [DropCR(pieces[0])] + DropCRs(pieces[1..])
  }

  /** `jsonl.trim().split(/\r?\n/).filter(Boolean)`. Splitting on `\n` and dropping one `\r`
      from each piece is the same split: the last piece ends where the trimmed text ends, so it
      has no `\r` to drop. */
  function Lines(jsonl: string): (r: seq<string>)
    ensures forall i :: 0 <= i < |r| ==> r[i] != "" && '\n' !in r[i]
    ensures forall l :: l in r <==> l != "" && FromPiece(Split(Trim(jsonl), '\n'), l)
  {
    var pieces := Split(Trim(jsonl), '\n');
    NoNewlineKept(DropCRs(pieces));
    LinesOfPieces(pieces);
    NonEmpty(DropCRs(pieces))
  }

  /** `l` is some piece with its `\r` dropped. */
  predicate FromPiece(pieces: seq<string>, l: string) {
    exists i :: 0 <= i < |pieces| && l == DropCR(pieces[i])
  }

  /** The lines are the non-empty pieces with their `\r` dropped. */
  lemma LinesOfPieces(pieces: seq<string>)
    requires forall i :: 0 <= i < |pieces| ==> '\n' !in pieces[i]
    ensures forall l :: l in NonEmpty(DropCRs(pieces)) <==> l != "" && FromPiece(pieces, l)
  {
    var d := DropCRs(pieces);
    forall l ensures l in d <==> FromPiece(pieces, l) {
      if l in d {
        var i :| 0 <= i < |d| && d[i] == l;
        assert l == DropCR(pieces[i]);
      }
      if exists i :: 0 <= i < |pieces| && l == DropCR(pieces[i]) {
        var i :| 0 <= i < |pieces| && l == DropCR(pieces[i]);
        assert d[i] == l;
      }
    }
  }

  lemma NoNewlineKept(ls: seq<string>)
    requires forall i :: 0 <= i < |ls| ==> '\n' !in ls[i]
    ensures forall i :: 0 <= i < |NonEmpty(ls)| ==> '\n' !in NonEmpty(ls)[i]
  {
    var r := NonEmpty(ls);
    forall i | 0 <= i < |r| ensures '\n' !in r[i] {
      assert r[i] in ls;
      var j :| 0 <= j < |ls| && ls[j] == r[i];
    }
  }

  // ---------------------------------------------------------------------------------------
  // parseLastN (lines 43-54)

  /** Line 49 lets a row through unless a filter is set and the row names another session. */
  predicate Qualifies(row: LogRow, filter: string) {
    !(filter != "" && row.session != "" && row.session != filter)
  }

  /** The rows the scan may collect, in file order: lines that parse and qualify. */
  function Kept(lines: seq<string>, parse: Parser, filter: string): (r: seq<LogRow>)
    ensures |r| <= |lines|
  {
    if lines == [] then []
    else
      RowOf(lines[0], parse, filter) + Kept(lines[1..], parse, filter)
  }

  /** A row is kept exactly when some line parses to it and it qualifies. */
  lemma {:induction false} KeptMeans(lines: seq<string>, parse: Parser, filter: string, row: LogRow)
    ensures row in Kept(lines, parse, filter) <==>
            Qualifies(row, filter) && exists i :: 0 <= i < |lines| && parse(lines[i]) == Some(row)
  {
    if lines != [] {
      KeptMeans(lines[1..], parse, filter, row);
      if exists i :: 0 <= i < |lines| && parse(lines[i]) == Some(row) {
        var i :| 0 <= i < |lines| && parse(lines[i]) == Some(row);
        if i > 0 { assert lines[1..][i - 1] == lines[i]; }
      }
      if exists i :: 0 <= i < |lines[1..]| && parse(lines[1..][i]) == Some(row) {
        var i :| 0 <= i < |lines[1..]| && parse(lines[1..][i]) == Some(row);
        assert lines[i + 1] == lines[1..][i];
      }
    }
  }

  lemma {:induction false} KeptAppend(a: seq<string>, b: seq<string>, parse: Parser, filter: string)
    ensures Kept(a + b, parse, filter) == Kept(a, parse, filter) + Kept(b, parse, filter)
  {
    if a != [] {
      assert (a + b)[0] == a[0];
      assert (a + b)[1..] == a[1..] + b;
      KeptAppend(a[1..], b, parse, filter);
    } else {
      assert a + b == b;
    }
  }

  /** The row line `i` contributes, if any. */
  function RowOf(line: string, parse: Parser, filter: string): seq<LogRow> {
    match parse(line)
    case Some(row) => if Qualifies(row, filter) then [row] else []
    case None => []
  }

  lemma KeptFrom(lines: seq<string>, i: nat, parse: Parser, filter: string)
    requires i < |lines|
    ensures Kept(lines[i..], parse, filter) == RowOf(lines[i], parse, filter) + Kept(lines[i + 1..], parse, filter)
  {
    assert lines[i..][0] == lines[i];
    assert lines[i..][1..] == lines[i + 1..];
  }

  /** At most `n` rows: `slice(-n)` for positive `n`, nothing otherwise (the scan never starts). */
  function LastN(rows: seq<LogRow>, n: int): seq<LogRow> {
    if n <= 0 then [] else TakeLast(rows, n)
  }

  /** `parseLastN`: the lines of the log, scanned backwards. */
  method ParseLastN(jsonl: string, n: int, filter: string, parse: Parser) returns (rows: seq<LogRow>)
    ensures rows == LastN(Kept(Lines(jsonl), parse, filter), n)
    ensures |rows| <= if n <= 0 then 0 else n
  {
    var lines := Lines(jsonl);
    rows := ScanBack(lines, n, filter, parse);
  }

  /** The loop of lines 46-52, which stops once `n` rows are collected, then the reversal. */
  method ScanBack(lines: seq<string>, n: int, filter: string, parse: Parser) returns (rows: seq<LogRow>)
    ensures rows == LastN(Kept(lines, parse, filter), n)
  {
    var out: seq<LogRow> := [];
    var i := |lines| - 1;
    while i >= 0 && |out| < n
      invariant -1 <= i < |lines|
      invariant out == Reverse(Kept(lines[i + 1..], parse, filter))
      invariant |out| <= if n <= 0 then 0 else n
      decreases i
    {
      KeptFrom(lines, i, parse, filter);
      match parse(lines[i]) {
        case Some(obj) =>
          if Qualifies(obj, filter) {
            ReverseCons(obj, Kept(lines[i + 1..], parse, filter));
            out := out + [obj];
          }
        case None =>
      }
      i := i - 1;
    }
    ReverseReverse(Kept(lines[i + 1..], parse, filter));
    rows := Reverse(out);
    ScanStops(lines, i, n, parse, filter);
  }

  /** Where the scan stops, the rows it collected are the last `n` of the file. */
  lemma ScanStops(lines: seq<string>, i: int, n: int, parse: Parser, filter: string)
    requires -1 <= i < |lines|
    requires i < 0 || |Kept(lines[i + 1..], parse, filter)| >= n
    requires |Kept(lines[i + 1..], parse, filter)| <= if n <= 0 then 0 else n
    ensures Kept(lines[i + 1..], parse, filter) == LastN(Kept(lines, parse, filter), n)
  {
    if n > 0 {
      if i < 0 {
        assert lines[0..] == lines;
      } else {
        ScanFull(lines, i + 1, parse, filter);
      }
    }
  }

  /** Once the rows from `j` on are collected, they are the last ones of the whole file. */
  lemma ScanFull(lines: seq<string>, j: nat, parse: Parser, filter: string)
    requires j <= |lines|
    ensures TakeLast(Kept(lines, parse, filter), |Kept(lines[j..], parse, filter)|) == Kept(lines[j..], parse, filter)
  {
    assert lines == lines[..j] + lines[j..];
    KeptAppend(lines[..j], lines[j..], parse, filter);
    TakeLastOfSuffix(Kept(lines[..j], parse, filter), Kept(lines[j..], parse, filter));
  }

  // ---------------------------------------------------------------------------------------
  // summarize (lines 56-87)

  /** One line of RECENT WORK: `- [step] summary`, then `  #tags` when the joined tags are not
      empty. */
  function RowLine(r: LogRow): string {
    var t := if r.tags.Some? then Join(r.tags.value, ",") else "";
    "- [" + (if r.step != "" then r.step else "step") + "] " +
    (if r.summary != "" then r.summary else "(no summary)") +
    (if t != "" then "  #" + t else "")
  }

  /** The variable parts of the capsule; the fixed text around them is in `Render`. */
  datatype Capsule = Capsule(phase: string, step: string, recent: seq<string>, nextAction: string)

  const DefaultNextAction: string := "Continue the next subtask of Step 27 (HeyGen avatar creation flow in-app)."

  function Summarize(rows: seq<LogRow>): (c: Capsule)
    ensures |c.recent| <= 10 && |c.recent| == if |rows| < 10 then |rows| else 10
    ensures forall i :: 0 <= i < |c.recent| ==> c.recent[i] == RowLine(rows[|rows| - |c.recent| + i])
    ensures rows == [] ==> c == Capsule("MVP", "unknown", [], DefaultNextAction)
    ensures rows != [] ==> c.phase == (if rows[|rows| - 1].phase != "" then rows[|rows| - 1].phase else "MVP")
    ensures rows != [] ==> c.step == (if rows[|rows| - 1].step != "" then rows[|rows| - 1].step else "unknown")
    ensures rows != [] ==> c.nextAction == (if rows[|rows| - 1].next != "" then rows[|rows| - 1].next else DefaultNextAction)
  {
    var recentRows := TakeLast(rows, 10);
    var recent := seq(|recentRows|, i requires 0 <= i < |recentRows| => RowLine(recentRows[i]));
    if rows == [] then Capsule("MVP", "unknown", recent, DefaultNextAction)
    else
      var last := rows[|rows| - 1];
      Capsule(if last.phase != "" then last.phase else "MVP",
              if last.step != "" then last.step else "unknown",
              recent,
              if last.next != "" then last.next else DefaultNextAction)
  }

  function Render(c: Capsule): string {
    "PROJECT: Dopple Talent Agency — DOP\n\n" +
    "GOAL: Users upload photo + voice + 5 bio facts → HeyGen avatar + ElevenLabs voice → shareable DOP URL (tiered pricing). Keep voice baseline. Netlify Functions (Node 18+, CJS); single index.html.\n\n" +
    "STACK: Netlify Functions, OpenAI (LLM), ElevenLabs (voice), HeyGen (avatar). Env: OPENAI_API_KEY, ELEVENLABS_API_KEY, HEYGEN_API_KEY, NETLIFY_SITE_ID, NETLIFY_BLOBS_TOKEN.\n\n" +
    "CURRENT STEP: " + c.phase + " / " + c.step + "\n\n" +
    "RECENT WORK (latest 10):\n" +
    (if c.recent != [] then Join(c.recent, "\n") else "- (no recent rows)") + "\n\n" +
    "NEXT ACTION (hint): " + c.nextAction + "\n\n" +
    "RULES:\n" +
    "- One step at a time, mapping to roadmap.\n" +
    "- Return FULL FILES for any code change (no snippets).\n" +
    "- Add-only unless I explicitly approve deletions.\n" +
    "- Include exact file paths + env vars if needed.\n"
  }

  // ---------------------------------------------------------------------------------------
  // The handler (lines 89-117)

  /** The default count parses as itself. */
  lemma ParseThirty()
    ensures ParseInt("30") == Some(30)
  {
    ParseIntOfIntToString(30);
    assert IntToString(30) == "30" by {
      assert NatToString(30) == NatToString(3) + [DigitChar(0)];
    }
  }

  /** `Math.min(parseInt(q.n || "30", 10) || 30, 200)`; an absent parameter is "". */
  function EffectiveN(nParam: string): (n: int)
    ensures n <= 200 && n != 0
    ensures ParseInt(nParam).None? ==> n == 30
    ensures ParseInt(nParam) == Some(0) ==> n == 30
    ensures ParseInt(nParam).Some? && ParseInt(nParam).value != 0 ==> n == Min(ParseInt(nParam).value, 200)
  {
    ParseThirty();
    var parsed := ParseInt(if nParam != "" then nParam else "30");
    var k := if parsed.None? || parsed.value == 0 then 30 else parsed.value;
    Min(k, 200)
  }

  /** The session filter: default `dopple`. */
  function SessionFilter(sessionParam: string): (f: string)
    ensures f != ""
    ensures sessionParam != "" ==> f == sessionParam
  {
    if sessionParam != "" then sessionParam else "dopple"
  }

  /** The log read: its text, or the error of a missing setting, a non-2xx status or the
      network. */
  datatype LogFetch = Fetched(text: string) | FetchFailed(message: string)

  datatype ContextResponse = ContextResponse(statusCode: int, body: string)

  method Handle(nParam: string, sessionParam: string, fetched: LogFetch, parse: Parser)
    returns (r: ContextResponse)
    ensures fetched.FetchFailed? ==> r == ContextResponse(500, "dop_context error: " + fetched.message)
    ensures fetched.Fetched? && fetched.text == "" ==> r == ContextResponse(200, "No logs yet.\n")
    ensures fetched.Fetched? && fetched.text != "" ==>
      r == ContextResponse(200, Render(Summarize(LastN(Kept(Lines(fetched.text), parse, SessionFilter(sessionParam)),
                                                       EffectiveN(nParam)))))
  {
    var n := EffectiveN(nParam);
    var session := SessionFilter(sessionParam);
    match fetched {
      case FetchFailed(m) => r := ContextResponse(500, "dop_context error: " + m);
      case Fetched(text) =>
        if text == "" {
          r := ContextResponse(200, "No logs yet.\n");
        } else {
          var rows := ParseLastN(text, n, session, parse);
          r := ContextResponse(200, Render(Summarize(rows)));
        }
    }
  }
}
