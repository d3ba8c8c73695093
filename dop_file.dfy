/** The file endpoint: a blob is fetched by key from the Netlify Blobs REST API and returned
    with a content type guessed from the key's suffix, as UTF-8 text for JSON and base64 for
    everything else.

    The HTTP fetch is a given result; the base64 and UTF-8 encodings are not modelled, the
    body keeps the fetched bytes together with the encoding chosen for them. */
module DopFile {
  import opened Text

  type byte = bv8

  const JsonType: string := "application/json; charset=utf-8"
  const OctetStream: string := "application/octet-stream"

  // ---------------------------------------------------------------------------------------
  // guessType (lines 5-15)

  /** The first definition of `guessType`: suffixes of the lowercased key, tried in order. */
  function GuessType(key: string): string {
    var k := Lower(key);
    if EndsWith(k, ".json") then JsonType
    else if EndsWith(k, ".png") then "image/png"
    else if EndsWith(k, ".jpg") || EndsWith(k, ".jpeg") then "image/jpeg"
    else if EndsWith(k, ".webp") then "image/webp"
    else if EndsWith(k, ".mp3") || EndsWith(k, ".mpeg") then "audio/mpeg"
    else if EndsWith(k, ".wav") then "audio/wav"
    else if EndsWith(k, ".webm") then "audio/webm"
    else OctetStream
  }

  /** The suffix table the `if` chain reads as, one row per suffix. */
  const Table: seq<(string, string)> :=
    [(".json", JsonType), (".png", "image/png"), (".jpg", "image/jpeg"), (".jpeg", "image/jpeg"),
     (".webp", "image/webp"), (".mp3", "audio/mpeg"), (".mpeg", "audio/mpeg"),
     (".wav", "audio/wav"), (".webm", "audio/webm")]

  /** The type of the first row whose suffix ends `k`, or the octet-stream default. */
  function FirstMatch(table: seq<(string, string)>, k: string): string {
    if table == [] then OctetStream
    else if EndsWith(k, table[0].0) then table[0].1
    else FirstMatch(table[1..], k)
  }

  /** The default comes out when no row matches. */
  lemma {:induction false} FirstMatchNone(table: seq<(string, string)>, k: string)
    requires forall i :: 0 <= i < |table| ==> !EndsWith(k, table[i].0)
    ensures FirstMatch(table, k) == OctetStream
  {
    if table != [] {
      assert forall j :: 0 <= j < |table| - 1 ==> table[1..][j] == table[j + 1];
      FirstMatchNone(table[1..], k);
    }
  }

  /** Otherwise the type of the first row that matches comes out. */
  lemma {:induction false} FirstMatchAt(table: seq<(string, string)>, k: string, i: nat)
    requires i < |table| && EndsWith(k, table[i].0)
    requires forall j :: 0 <= j < i ==> !EndsWith(k, table[j].0)
    ensures FirstMatch(table, k) == table[i].1
  {
    if i > 0 {
      assert !EndsWith(k, table[0].0);
      assert table[1..][i - 1] == table[i];
      forall j | 0 <= j < i - 1 ensures !EndsWith(k, table[1..][j].0) {
        assert table[1..][j] == table[j + 1];
      }
      FirstMatchAt(table[1..], k, i - 1);
    }
  }

  /** The `if` chain is the table read in order. */
  lemma GuessTypeIsTable(key: string)
    ensures GuessType(key) == FirstMatch(Table, Lower(key))
  {
    var k := Lower(key);
    Row(k, 0); Row(k, 1); Row(k, 2); Row(k, 3);
    LaterRows(k);
    assert Table[0..] == Table;
  }

  /** The rows from `.webp` on. */
  lemma LaterRows(k: string)
    ensures FirstMatch(Table[4..], k)
         == if EndsWith(k, ".webp") then "image/webp"
            else if EndsWith(k, ".mp3") || EndsWith(k, ".mpeg") then "audio/mpeg"
            else if EndsWith(k, ".wav") then "audio/wav"
            else if EndsWith(k, ".webm") then "audio/webm"
            else OctetStream
  {
    Row(k, 4); Row(k, 5); Row(k, 6); Row(k, 7); Row(k, 8);
    assert Table[9..] == [];
  }

  /** Reading row `i` of the table. */
  lemma Row(k: string, i: nat)
    requires i < |Table|
    ensures FirstMatch(Table[i..], k)
         == if EndsWith(k, Table[i].0) then Table[i].1 else FirstMatch(Table[i + 1..], k)
  {
    assert Table[i..][0] == Table[i];
    assert Table[i..][1..] == Table[i + 1..];
  }

  /** No row of the table names the default, so the default means that no suffix matched. */
  lemma OctetIffNoSuffix(key: string)
    ensures GuessType(key) == OctetStream <==>
      forall i :: 0 <= i < |Table| ==> !EndsWith(Lower(key), Table[i].0)
  {
    GuessTypeIsTable(key);
    var k := Lower(key);
    if forall i :: 0 <= i < |Table| ==> !EndsWith(k, Table[i].0) {
      FirstMatchNone(Table, k);
    }
    forall i | 0 <= i < |Table| && EndsWith(k, Table[i].0) ensures GuessType(key) != OctetStream {
      var m := FirstIndex(Table, k, i);
      FirstMatchAt(Table, k, m);
      assert Table[m].1 != OctetStream;
    }
  }

  /** The first matching row at or before a matching row `i`. */
  lemma FirstIndex(table: seq<(string, string)>, k: string, i: nat) returns (m: nat)
    requires i < |table| && EndsWith(k, table[i].0)
    ensures m <= i && EndsWith(k, table[m].0)
    ensures forall j :: 0 <= j < m ==> !EndsWith(k, table[j].0)
  {
    m := 0;
    while !EndsWith(k, table[m].0)
      invariant m <= i
      invariant forall j :: 0 <= j < m ==> !EndsWith(k, table[j].0)
      decreases i - m
    {
      m := m + 1;
    }
  }

  /** The match ignores case. */
  lemma GuessTypeIgnoresCase(key: string)
    ensures GuessType(Lower(key)) == GuessType(key)
  {
    LowerIdempotent(key);
  }

  predicate IsJson(contentType: string) { StartsWith(contentType, "application/json") }

  /** Exactly the `.json` keys get a JSON type, and so a text body. */
  lemma JsonIffJsonSuffix(key: string)
    ensures IsJson(GuessType(key)) <==> EndsWith(Lower(key), ".json")
  {
    assert IsJson(JsonType);
    assert !IsJson(OctetStream) by {
      assert OctetStream[..16][12] != "application/json"[12];
    }
  }

  /** The second definition of `guessType` (lines 17-26), which the first one's name clashes
      with: it has no `.json` row. */
  function GuessTypeRedeclared(key: string): string {
    var k := Lower(key);
    if EndsWith(k, ".png") then "image/png"
    else if EndsWith(k, ".jpg") || EndsWith(k, ".jpeg") then "image/jpeg"
    else if EndsWith(k, ".webp") then "image/webp"
    else if EndsWith(k, ".mp3") || EndsWith(k, ".mpeg") then "audio/mpeg"
    else if EndsWith(k, ".wav") then "audio/wav"
    else if EndsWith(k, ".webm") then "audio/webm"
    else OctetStream
  }

  /** The two definitions differ just on `.json` keys, which the second serves as opaque
      bytes. */
  lemma RedeclaredDiffersOnJson(key: string)
    ensures GuessTypeRedeclared(key) == GuessType(key) <==> !EndsWith(Lower(key), ".json")
    ensures EndsWith(Lower(key), ".json") ==> GuessTypeRedeclared(key) == OctetStream
  {
    var k := Lower(key);
    if EndsWith(k, ".json") {
      var n := |k|;
      assert k[n - 1] == 'n' && k[n - 2] == 'o' && k[n - 3] == 's' && k[n - 4] == 'j' by {
        assert k[n - 5..] == ".json";
        assert k[n - 5..][4] == k[n - 1];
        assert k[n - 5..][3] == k[n - 2];
        assert k[n - 5..][2] == k[n - 3];
        assert k[n - 5..][1] == k[n - 4];
      }
      NotEndingWith(k, ".png");
      NotEndingWith(k, ".jpg");
      NotEndingWith(k, ".jpeg");
      NotEndingWith(k, ".webp");
      NotEndingWith(k, ".mp3");
      NotEndingWith(k, ".mpeg");
      NotEndingWith(k, ".wav");
      NotEndingWith(k, ".webm");
    }
  }

  lemma NotEndingWith(k: string, suffix: string)
    requires |suffix| > 0 && |k| > 0 && k[|k| - 1] != suffix[|suffix| - 1]
    ensures !EndsWith(k, suffix)
  {
    if |suffix| <= |k| {
      assert k[|k| - |suffix|..][|suffix| - 1] == k[|k| - 1];
    }
  }

  // ---------------------------------------------------------------------------------------
  // The handler (lines 28-121)

  /** The REST reply: a status with the body bytes and, for a failure, its text; or a throw. */
  datatype FetchResult = Fetched(status: int, bytes: seq<byte>, errorText: string)
                       | FetchThrew(message: string)

  /** The bytes and the encoding the response carries them in. */
  datatype FileBody = Utf8Text(bytes: seq<byte>) | Base64Text(bytes: seq<byte>)

  datatype FileResponse = Served(contentType: string, contentLength: nat, body: FileBody,
                                 isBase64Encoded: bool)
                        | ErrorReply(statusCode: int, error: string, details: string)

  /** `response.ok` */
  predicate IsOk(status: int) { 200 <= status <= 299 }

  /** The success return of lines 94-108. */
  function Serve(key: string, bytes: seq<byte>): (r: FileResponse)
    ensures r.Served? && r.contentType == GuessType(key) && r.contentLength == |bytes|
    ensures r.body.bytes == bytes
    ensures r.isBase64Encoded <==> !EndsWith(Lower(key), ".json")
    ensures r.body.Utf8Text? <==> !r.isBase64Encoded
  {
    JsonIffJsonSuffix(key);
    var contentType := GuessType(key);
    var isJson := IsJson(contentType);
    Served(contentType, |bytes|, if isJson then Utf8Text(bytes) else Base64Text(bytes), !isJson)
  }

  function Handle(keyParam: string, siteId: string, token: string, fetched: FetchResult)
    : (r: FileResponse)
    ensures keyParam == "" ==> r == ErrorReply(400, "Missing key parameter", "")
    ensures keyParam != "" && (siteId == "" || token == "") ==>
      r == ErrorReply(500, "Missing Netlify Blobs credentials", "")
    ensures keyParam != "" && siteId != "" && token != "" ==>
      match fetched
      case FetchThrew(m) => r == ErrorReply(500, "Internal server error", m)
      case Fetched(status, bytes, text) =>
        && (status == 404 ==> r == ErrorReply(404, "File not found", ""))
        && (status != 404 && !IsOk(status) ==>
              r == ErrorReply(status, "Failed to fetch from Netlify Blobs", text))
        && (IsOk(status) ==> r == Serve(keyParam, bytes))
    ensures r.Served? ==> keyParam != "" && fetched.Fetched? && IsOk(fetched.status)
  {
    if keyParam == "" then ErrorReply(400, "Missing key parameter", "")
    else if siteId == "" || token == "" then ErrorReply(500, "Missing Netlify Blobs credentials", "")
    else match fetched
      case FetchThrew(m) => ErrorReply(500, "Internal server error", m)
      case Fetched(status, bytes, text) =>
        if status == 404 then ErrorReply(404, "File not found", "")
        else if !IsOk(status) then ErrorReply(status, "Failed to fetch from Netlify Blobs", text)
        else Serve(keyParam, bytes)
  }
}
