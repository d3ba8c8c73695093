/** The log viewer: the JSONL log is read (a missing log is empty), its lines parsed, the
    entries sorted by `ts` in place and the last `limit` of them returned.

    The read is a given result and `JSON.parse` of one line a given function; `localeCompare`
    is taken as the order of code points. */
module LogView {
  import opened Wrappers
  import opened Text
  import opened Seqs
  import opened Sorting

  /** A parsed entry: its `ts` ("" when absent or falsy) and the rest of the object. */
  datatype Entry = Entry(ts: string, fields: string)

  type Parser = string -> Option<Entry>

  // ---------------------------------------------------------------------------------------
  // The order on `ts`

  /** Code-point order on strings, a prefix first. */
  predicate LexLe(x: string, y: string)
    decreases |x|
  {
    x == [] || (y != [] && (x[0] < y[0] || (x[0] == y[0] && LexLe(x[1..], y[1..]))))
  }

  lemma {:induction false} LexLeTotal(x: string, y: string)
    ensures LexLe(x, y) || LexLe(y, x)
    decreases |x|
  {
    if x != [] && y != [] && x[0] == y[0] {
      LexLeTotal(x[1..], y[1..]);
    }
  }

  lemma {:induction false} LexLeTransitive(x: string, y: string, z: string)
    requires LexLe(x, y) && LexLe(y, z)
    ensures LexLe(x, z)
    decreases |x|
  {
    if x != [] && x[0] == y[0] && y[0] == z[0] {
      LexLeTransitive(x[1..], y[1..], z[1..]);
    }
  }

  predicate TsLe(a: Entry, b: Entry) { LexLe(a.ts, b.ts) }

  /** Ordering entries by `ts` is a total preorder, so the sort may use it. */
  lemma TsLeIsTotalPreorder()
    ensures TotalPreorder(TsLe)
  {
    forall x: Entry, y: Entry ensures TsLe(x, y) || TsLe(y, x) {
      LexLeTotal(x.ts, y.ts);
    }
    forall x: Entry, y: Entry, z: Entry | TsLe(x, y) && TsLe(y, z) ensures TsLe(x, z) {
      LexLeTransitive(x.ts, y.ts, z.ts);
    }
  }

  // ---------------------------------------------------------------------------------------
  // Lines and the parse loop (lines 52-58)

  /** `text.split("\n").filter((l) => l.trim().length > 0)` */
  function NonBlankLines(text: string): (r: seq<string>)
    ensures |r| <= |Split(text, '\n')|
    ensures forall l :: l in r <==> l in Split(text, '\n') && !AllSpace(l)
  {
    NonBlank(Split(text, '\n'))
  }

  /** The lines that are not blank, in order and with repeats. */
  function NonBlank(ls: seq<string>): (r: seq<string>)
    ensures |r| <= |ls|
    ensures |ls| == 1 ==> r == (if !AllSpace(ls[0]) then ls else [])
    ensures forall l :: l in r <==> l in ls && !AllSpace(l)
  {
    if ls == [] then []
    else (if !AllSpace(ls[0]) then [ls[0]] else []) + NonBlank(ls[1..])
  }

  /** The filter distributes over concatenation, so it keeps order and repeats. */
  lemma {:induction false} NonBlankAppend(a: seq<string>, b: seq<string>)
    ensures NonBlank(a + b) == NonBlank(a) + NonBlank(b)
  {
    if a != [] {
      assert (a + b)[0] == a[0];
      assert (a + b)[1..] == a[1..] + b;
      NonBlankAppend(a[1..], b);
    } else {
      assert a + b == b;
    }
  }

  /** The entries of the lines that parse, in file order. */
  function Parsed(lines: seq<string>, parse: Parser): (r: seq<Entry>)
    ensures |r| <= |lines|
    ensures |lines| == 1 ==> r == (if parse(lines[0]).Some? then [parse(lines[0]).value] else [])
  {
    if lines == [] then []
    else
      var last := lines[|lines| - 1];
      Parsed(lines[..|lines| - 1], parse) + (if parse(last).Some? then [parse(last).value] else [])
  }

  /** Parsing distributes over concatenation: the entries keep the order and repeats of their
      lines. */
  lemma {:induction false} ParsedAppend(a: seq<string>, b: seq<string>, parse: Parser)
    ensures Parsed(a + b, parse) == Parsed(a, parse) + Parsed(b, parse)
    decreases |b|
  {
    if b == [] {
      assert a + b == a;
    } else {
      var front := b[..|b| - 1];
      assert (a + b)[..|a + b| - 1] == a + front;
      assert (a + b)[|a + b| - 1] == b[|b| - 1];
      ParsedAppend(a, front, parse);
    }
  }

  /** An entry is parsed exactly when some line parses to it. */
  lemma {:induction false} ParsedMeans(lines: seq<string>, parse: Parser, e: Entry)
    ensures e in Parsed(lines, parse) <==> exists i :: 0 <= i < |lines| && parse(lines[i]) == Some(e)
    decreases |lines|
  {
    if lines != [] {
      var n := |lines| - 1;
      var front := lines[..n];
      ParsedMeans(front, parse, e);
      if exists i :: 0 <= i < |lines| && parse(lines[i]) == Some(e) {
        var i :| 0 <= i < |lines| && parse(lines[i]) == Some(e);
        if i < n { assert front[i] == lines[i]; }
      }
      if exists i :: 0 <= i < |front| && parse(front[i]) == Some(e) {
        var i :| 0 <= i < |front| && parse(front[i]) == Some(e);
        assert lines[i] == front[i];
      }
    }
  }

  /** The `for ... of` loop with its `try`/`catch`. */
  method ParseLines(lines: seq<string>, parse: Parser) returns (parsed: seq<Entry>)
    ensures parsed == Parsed(lines, parse)
  {
    parsed := [];
    var i := 0;
    while i < |lines|
      invariant 0 <= i <= |lines|
      invariant parsed == Parsed(lines[..i], parse)
    {
      assert lines[..i + 1][..i] == lines[..i];
      match parse(lines[i]) {
        case Some(e) => parsed := parsed + [e];
        case None =>
      }
      i := i + 1;
    }
    assert lines[..i] == lines;
  }

  // ---------------------------------------------------------------------------------------
  // The query (lines 22-27)

  /** `Math.max(1, Math.min(parseInt(q.limit || "200", 10), 2000))`; an absent parameter is "".
      None is NaN, which makes `slice(-limit)` keep every entry. */
  function Limit(limitParam: string): (r: Option<int>)
    ensures r.Some? ==> 1 <= r.value <= 2000
    ensures limitParam != "" && ParseInt(limitParam).None? ==> r.None?
    ensures limitParam != "" && ParseInt(limitParam).Some? ==> r == Some(Max(1, Min(ParseInt(limitParam).value, 2000)))
    ensures limitParam == "" ==> r == Some(200)
  {
    DefaultLimitParses();
    match ParseInt(if limitParam != "" then limitParam else "200")
    case None => None
    case Some(n) => Some(Max(1, Min(n, 2000)))
  }

  lemma DefaultLimitParses()
    ensures ParseInt("200") == Some(200)
  {
    var s := "200";
    TrimStartOfNonSpace(s);
    DigitPrefixOfDigits(s);
    var s2 := s[..2];
    var s1 := s2[..1];
    assert s2 == "20" && s1 == "2";
    assert DigitsValue(s1[..0]) == 0;
    assert DigitsValue(s1) == 2;
    assert DigitsValue(s2) == 20;
    assert DigitsValue(s) == 200;
  }

  /** `parsed.slice(-limit)` */
  function Tail(s: seq<Entry>, limit: Option<int>): (r: seq<Entry>)
    ensures limit.None? ==> r == s
    ensures limit.Some? && limit.value >= 1 ==> |r| == Min(|s|, limit.value) && r == s[|s| - |r|..]
  {
    if limit.None? || limit.value < 1 then s else TakeLast(s, limit.value)
  }

  // ---------------------------------------------------------------------------------------
  // The handler (lines 2-75)

  /** The blob read: an `ok` response (status 200-299) with its text, a response that is not
      `ok` with its status and body, or a thrown error. `ReadStatus` always means "not ok": the
      caller supplies a 2xx response as `ReadOk`. */
  datatype ReadResult = ReadOk(text: string) | ReadStatus(status: int, text: string) | ReadThrew(message: string)

  datatype ViewResponse = ServerError(message: string)
                        | RawText(text: string)
                        | Listing(project: string, count: nat, items: seq<Entry>)

  /** The log text the handler goes on with, or the error it answers with. */
  function LogText(read: ReadResult): (r: Result<string, string>)
    ensures read.ReadOk? ==> r == Ok(read.text)
    ensures read.ReadStatus? && read.status == 404 ==> r == Ok("")
    ensures read.ReadStatus? && read.status != 404 ==>
      r == Err("Read failed: " + IntToString(read.status) + " " + read.text)
    ensures read.ReadThrew? ==> r == Err("Error: " + read.message)
  {
    match read
    case ReadOk(t) => Ok(t)
    case ReadStatus(s, t) => if s == 404 then Ok("") else Err("Read failed: " + IntToString(s) + " " + t)
    case ReadThrew(m) => Err("Error: " + m)
  }

  method Handle(siteId: string, token: string, projectName: string, limitParam: string, formatParam: string,
                read: ReadResult, parse: Parser)
    returns (r: ViewResponse)
    ensures siteId == "" || token == "" ==> r == ServerError("Missing NETLIFY_SITE_ID and/or NETLIFY_BLOBS_TOKEN")
    ensures siteId != "" && token != "" && LogText(read).Err? ==> r == ServerError(LogText(read).error)
    ensures siteId != "" && token != "" && LogText(read).Ok? && Lower(formatParam) == "raw" ==>
      r == RawText(LogText(read).value)
    ensures siteId != "" && token != "" && LogText(read).Ok? && Lower(formatParam) != "raw" ==>
      && r.Listing?
      && r.project == Lower(if projectName != "" then projectName else "dopple")
      && r.count == |r.items|
      && exists sorted :: Sorted(sorted, TsLe)
           && multiset(sorted) == multiset(Parsed(NonBlankLines(LogText(read).value), parse))
           && r.items == Tail(sorted, Limit(limitParam))
  {
    if siteId == "" || token == "" {
      return ServerError("Missing NETLIFY_SITE_ID and/or NETLIFY_BLOBS_TOKEN");
    }
    var project := Lower(if projectName != "" then projectName else "dopple");
    var limit := Limit(limitParam);
    var format := Lower(if formatParam != "" then formatParam else "json");
    assert format == "raw" <==> Lower(formatParam) == "raw" by {
      if formatParam == "" { assert Lower("json") != "raw"; }
    }
    var text := LogText(read);
    if text.Err? {
      return ServerError(text.error);
    }
    if format == "raw" {
      return RawText(text.value);
    }
    var parsed := ParseLines(NonBlankLines(text.value), parse);
    var tail := SortedTail(parsed, limit);
    r := Listing(project, |tail|, tail);
  }

  /** Lines 60-62: the entries are copied into an array, sorted in place by `ts`, and the tail
      is taken. */
  method SortedTail(parsed: seq<Entry>, limit: Option<int>) returns (tail: seq<Entry>)
    ensures exists sorted :: Sorted(sorted, TsLe) && multiset(sorted) == multiset(parsed)
                             && tail == Tail(sorted, limit)
  {
    var a := new Entry[|parsed|](k requires 0 <= k < |parsed| => parsed[k]);
    assert a[..] == parsed;
    TsLeIsTotalPreorder();
    Sort(a, TsLe);
    tail := Tail(a[..], limit);
  }
}
