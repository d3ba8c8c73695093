/** The viewer page for one persona: its first listed image and first listed voice sample are
    embedded with a MIME type taken from the key's extension.

    The store's listing and reads are given results that may fail, and a failure answers 500
    with its message; the blob bytes, their base64 data URLs and the HTML around them are not
    modelled. */
module DopView {
  import opened Wrappers
  import opened Text

  const OctetStream: string := "application/octet-stream"

  // ---------------------------------------------------------------------------------------
  // mimeFromKey (lines 7-18)

  /** `(key.split(".").pop() || "").toLowerCase()` */
  function Extension(key: string): string {
    var parts := Split(key, '.');
    Lower(parts[|parts| - 1])
  }

  /** The extension is what follows the last `.`. */
  lemma ExtensionAfterLastDot(key: string)
    ensures Extension(key) == Lower(key[LastIndexOf(key, '.') + 1..])
  {
    LastPiece(key);
  }

  /** A key without a `.` is its own extension, up to case. */
  lemma ExtensionWithoutDot(key: string)
    requires '.' !in key
    ensures Extension(key) == Lower(key)
  {
    LastPiece(key);
    var r := LastIndexOf(key, '.');
    assert forall j :: 0 <= j < |key| ==> key[j] != '.';
    assert r == -1;
    assert key[0..] == key;
  }

  /** An extension never holds a `.`. */
  lemma ExtensionHasNoDot(key: string)
    ensures '.' !in Extension(key)
  {
    var parts := Split(key, '.');
    LowerKeepsDot(parts[|parts| - 1]);
  }

  /** The last piece of a split is what follows the last separator. */
  lemma LastPiece(key: string)
    ensures var parts := Split(key, '.'); parts[|parts| - 1] == key[LastIndexOf(key, '.') + 1..]
  {
    var parts := Split(key, '.');
    var n := |parts|;
    var last := parts[n - 1];
    if n == 1 {
      assert key == last;
      assert '.' !in key;
      assert LastIndexOf(key, '.') == -1;
    } else {
      var front := Join(parts[..n - 1], ".");
      JoinLast(parts, ".");
      assert key == front + "." + last;
      var d := |front|;
      assert key[d] == '.';
      assert key[d + 1..] == last;
      forall j | d < j < |key| ensures key[j] != '.' {
        assert key[j] == last[j - d - 1];
      }
      assert LastIndexOf(key, '.') == d;
    }
  }

  /** A join of at least two parts ends with the separator and the last part. */
  lemma {:induction false} JoinLast(parts: seq<string>, sep: string)
    requires |parts| >= 2
    ensures Join(parts, sep) == Join(parts[..|parts| - 1], sep) + sep + parts[|parts| - 1]
  {
    if |parts| > 2 {
      JoinLast(parts[1..], sep);
      assert parts[1..][..|parts| - 2] == parts[..|parts| - 1][1..];
    }
  }

  /** Lowercasing neither adds nor removes a `.`. */
  lemma LowerKeepsDot(s: string)
    ensures '.' in Lower(s) <==> '.' in s
  {
    if '.' in Lower(s) {
      var i :| 0 <= i < |s| && Lower(s)[i] == '.';
      assert s[i] == '.';
    }
    if '.' in s {
      var i :| 0 <= i < |s| && s[i] == '.';
      assert Lower(s)[i] == '.';
    }
  }

  function MimeFromKey(key: string): string {
    MimeOfExtension(Extension(key))
  }

  /** The `includes` checks, in order. */
  function MimeOfExtension(ext: string): string {
    if ext in ["png"] then "image/png"
    else if ext in ["jpg", "jpeg"] then "image/jpeg"
    else if ext in ["webp"] then "image/webp"
    else if ext in ["gif"] then "image/gif"
    else if ext in ["mp3", "mpeg"] then "audio/mpeg"
    else if ext in ["wav"] then "audio/wav"
    else if ext in ["webm"] then "audio/webm"
    else if ext in ["m4a", "mp4"] then "audio/mp4"
    else OctetStream
  }

  /** The table the checks spell out: each known extension and its type. */
  const Types: map<string, string> :=
    map["png" := "image/png", "jpg" := "image/jpeg", "jpeg" := "image/jpeg",
        "webp" := "image/webp", "gif" := "image/gif", "mp3" := "audio/mpeg",
        "mpeg" := "audio/mpeg", "wav" := "audio/wav", "webm" := "audio/webm",
        "m4a" := "audio/mp4", "mp4" := "audio/mp4"]

  /** A known extension gets its type from the table, any other one (the empty extension
      included) the octet-stream default. */
  lemma MimeIsTableLookup(ext: string)
    ensures ext in Types ==> MimeOfExtension(ext) == Types[ext]
    ensures MimeOfExtension(ext) == OctetStream <==> ext !in Types
  {
    assert forall e :: e in Types ==> Types[e] != OctetStream;
  }

  /** The case of the key does not matter. */
  lemma MimeIgnoresCase(key: string)
    ensures MimeFromKey(Lower(key)) == MimeFromKey(key)
  {
    ExtensionOfLower(key);
  }

  lemma ExtensionOfLower(key: string)
    ensures Extension(Lower(key)) == Extension(key)
  {
    ExtensionAfterLastDot(Lower(key));
    LoweredTailOfLower(key);
    ExtensionAfterLastDot(key);
  }

  /** Lowering the key keeps the last `.`, and lowering twice is lowering once. */
  lemma LoweredTailOfLower(key: string)
    ensures Lower(Lower(key)[LastIndexOf(Lower(key), '.') + 1..]) == Lower(key[LastIndexOf(key, '.') + 1..])
  {
    var tail := key[LastIndexOf(key, '.') + 1..];
    LastDotOfLower(key);
    LowerOfSuffix(key, LastIndexOf(key, '.') + 1);
    LowerIdempotent(tail);
  }

  lemma LowerOfSuffix(s: string, n: nat)
    requires n <= |s|
    ensures Lower(s)[n..] == Lower(s[n..])
  {
    assert forall k :: 0 <= k < |s| - n ==> Lower(s)[n..][k] == LowerChar(s[n + k]) == Lower(s[n..])[k];
  }

  lemma LastDotOfLower(key: string)
    ensures LastIndexOf(Lower(key), '.') == LastIndexOf(key, '.')
  {
    var i := LastIndexOf(key, '.');
    var j := LastIndexOf(Lower(key), '.');
    if i >= 0 { assert Lower(key)[i] == '.'; }
    if j >= 0 { assert key[j] == '.'; }
  }

  // ---------------------------------------------------------------------------------------
  // The handler (lines 20-89)

  /** `qs.id || qs.dopId`, absent parameters being "". */
  function DopIdParam(id: string, dopId: string): (r: Option<string>)
    ensures r.Some? <==> id != "" || dopId != ""
    ensures r.Some? ==> r.value == (if id != "" then id else dopId)
  {
    if id != "" then Some(id) else if dopId != "" then Some(dopId) else None
  }

  /** What `store.list` gives for a prefix: the listed keys in order, or the thrown error's
      message. */
  datatype Listing = Listed(keys: seq<string>) | ListFailed(message: string)

  type Lister = string -> Listing

  /** What `store.get` gives for a key: the bytes (not modelled), `null`, or the thrown error's
      message. */
  datatype Fetched = Bytes | NoBlob | GetFailed(message: string)

  type Getter = string -> Fetched

  /** The message of the `TypeError` that `Buffer.from(null)` throws. */
  const BufferFromNullError: string :=
    "The first argument must be of type string or an instance of Buffer, ArrayBuffer, or Array or an Array-like Object. Received null"

  function ImagePrefix(dopId: string): string { "images/" + dopId + "/" }
  function VoicePrefix(dopId: string): string { "voices/" + dopId + "/" }

  /** The first listed key (`list?.blobs?.[0]?.key`), when it is there and not empty. */
  function FirstKey(keys: seq<string>): (r: Option<string>)
    ensures r.Some? <==> keys != [] && keys[0] != ""
    ensures r.Some? ==> r.value == keys[0]
  {
    if keys != [] && keys[0] != "" then Some(keys[0]) else None
  }

  /** An embedded file: its key and the MIME type of its data URL. */
  datatype Embedded = Embedded(key: string, mime: string)

  datatype ViewResponse = BadRequest(message: string)
                        | ServerError(message: string)
                        | Page(dopId: string, image: Option<Embedded>, voice: Option<Embedded>)

  function Embed(key: Option<string>): (r: Option<Embedded>)
    ensures r.Some? <==> key.Some?
    ensures r.Some? ==> r.value.key == key.value && r.value.mime == MimeFromKey(key.value)
  {
    if key.Some? then Some(Embedded(key.value, MimeFromKey(key.value))) else None
  }

  /** Lines 46-55 for one file: no key embeds nothing; a key is read and embedded, and a read
      that throws or gives `null` is the error that reaches the catch. */
  function Load(key: Option<string>, get: Getter): (r: Result<Option<Embedded>, string>)
    ensures key.None? ==> r == Ok(None)
    ensures key.Some? && get(key.value).Bytes? ==> r == Ok(Embed(key))
    ensures key.Some? && get(key.value).NoBlob? ==> r == Err(BufferFromNullError)
    ensures key.Some? && get(key.value).GetFailed? ==> r == Err(get(key.value).message)
  {
    match key
    case None => Ok(None)
    case Some(k) =>
      match get(k)
      case Bytes => Ok(Embed(key))
      case NoBlob => Err(BufferFromNullError)
      case GetFailed(m) => Err(m)
  }

  /** The page once the credentials are set: the two listings, then the two reads, the first
      error among them answering 500 with its message (lines 86-87). */
  function View(d: string, list: Lister, get: Getter): ViewResponse {
    match list(ImagePrefix(d))
    case ListFailed(m) => ServerError(m)
    case Listed(images) =>
      match list(VoicePrefix(d))
      case ListFailed(m) => ServerError(m)
      case Listed(voices) =>
        match Load(FirstKey(images), get)
        case Err(m) => ServerError(m)
        case Ok(image) =>
          match Load(FirstKey(voices), get)
          case Err(m) => ServerError(m)
          case Ok(voice) => Page(d, image, voice)
  }

  function Handle(id: string, dopId: string, siteId: string, token: string, list: Lister, get: Getter)
    : (r: ViewResponse)
    ensures id == "" && dopId == "" ==> r == BadRequest("Missing dopId")
    ensures (id != "" || dopId != "") && (siteId == "" || token == "") ==>
      r == ServerError("Blobs credentials missing (NETLIFY_SITE_ID / NETLIFY_BLOBS_TOKEN)")
    ensures (id != "" || dopId != "") && siteId != "" && token != "" ==>
      var d := DopIdParam(id, dopId).value;
      var li := list(ImagePrefix(d));
      var lv := list(VoicePrefix(d));
      && (li.ListFailed? ==> r == ServerError(li.message))
      && (li.Listed? && lv.ListFailed? ==> r == ServerError(lv.message))
      && (li.Listed? && lv.Listed? ==>
            var image := Load(FirstKey(li.keys), get);
            var voice := Load(FirstKey(lv.keys), get);
            && (image.Err? ==> r == ServerError(image.error))
            && (image.Ok? && voice.Err? ==> r == ServerError(voice.error))
            && (image.Ok? && voice.Ok? ==> r == Page(d, image.value, voice.value)))
    ensures r.Page? ==>
      && siteId != "" && token != ""
      && r.dopId == DopIdParam(id, dopId).value
      && list(ImagePrefix(r.dopId)).Listed? && list(VoicePrefix(r.dopId)).Listed?
      && r.image == Embed(FirstKey(list(ImagePrefix(r.dopId)).keys))
      && r.voice == Embed(FirstKey(list(VoicePrefix(r.dopId)).keys))
  {
    match DopIdParam(id, dopId)
    case None => BadRequest("Missing dopId")
    case Some(d) =>
      if siteId == "" || token == "" then
        ServerError("Blobs credentials missing (NETLIFY_SITE_ID / NETLIFY_BLOBS_TOKEN)")
      else
        View(d, list, get)
  }
}
