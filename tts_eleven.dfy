/** The text-to-speech endpoint: the voice is chosen from an explicit id or from the clip name,
    the text is trimmed and clamped at a sentence end, and the speech service is an oracle from
    (voice, text) to its reply. The two clip-name patterns are written out as matchers. */
module TtsEleven {
  import opened Wrappers
  import opened Text

  const Intents: seq<string> := ["fun", "from", "relax"]

  // ---------------------------------------------------------------------------------------
  // intentFromClip (lines 26-33)

  /** `(fun|from|relax)(?:\.|$)` at index `c`: the intent word, followed by a dot or the end. */
  function WordAt(s: string, c: nat): (r: Option<string>)
    ensures r.Some? ==> r.value in Intents && c + |r.value| <= |s| && s[c..c + |r.value|] == r.value
    ensures r.Some? ==> c + |r.value| == |s| || s[c + |r.value|] == '.'
  {
    if c > |s| then None
    else if WordEndsAt(s, c, "fun") then Some("fun")
    else if WordEndsAt(s, c, "from") then Some("from")
    else if WordEndsAt(s, c, "relax") then Some("relax")
    else None
  }

  predicate WordEndsAt(s: string, c: nat, w: string) {
    c + |w| <= |s| && s[c..c + |w|] == w && (c + |w| == |s| || s[c + |w|] == '.')
  }

  /** `p?_` then the word, from index `c`: an optional `p`, an underscore, the word. */
  function UnderscoreWordAt(s: string, c: nat): (r: Option<string>)
    ensures r.Some? ==> r.value in Intents
  {
    if c + 1 < |s| && s[c] == 'p' && s[c + 1] == '_' then WordAt(s, c + 2)
    else if c < |s| && s[c] == '_' then WordAt(s, c + 1)
    else None
  }

  predicate IsSeparator(ch: char) { ch == '/' || ch == '_' }

  /** A match starting at index `i`: `^` (only at 0), else a `/` or `_` there, followed by
      `rest(s, after)`. The two patterns differ only in `rest`. */
  function MatchAt(s: string, i: nat, underscore: bool): (r: Option<string>)
    requires i < |s|
    ensures r.Some? ==> r.value in Intents
  {
    var viaStart := if i == 0 then Rest(s, 0, underscore) else None;
    if viaStart.Some? then viaStart
    else if IsSeparator(s[i]) then Rest(s, i + 1, underscore)
    else None
  }

  function Rest(s: string, c: nat, underscore: bool): (r: Option<string>)
    ensures r.Some? ==> r.value in Intents
  {
    if underscore then UnderscoreWordAt(s, c) else WordAt(s, c)
  }

  /** `s.match(pattern)`: the leftmost index from `i` on at which the pattern matches; its
      captured word. (The empty string matches neither pattern.) */
  function Leftmost(s: string, i: nat, underscore: bool): (r: Option<string>)
    ensures r.Some? ==> r.value in Intents
    ensures r.None? ==> forall k :: i <= k < |s| ==> MatchAt(s, k, underscore).None?
    decreases |s| - i
  {
    if i >= |s| then None
    else
      var m := MatchAt(s, i, underscore);
      if m.Some? then m else Leftmost(s, i + 1, underscore)
  }

  /** A match found is the one at the leftmost matching index. */
  lemma {:induction false} LeftmostIsFirst(s: string, i: nat, underscore: bool) returns (k: nat)
    requires Leftmost(s, i, underscore).Some?
    ensures i <= k < |s| && MatchAt(s, k, underscore) == Leftmost(s, i, underscore)
    ensures forall j :: i <= j < k ==> MatchAt(s, j, underscore).None?
    decreases |s| - i
  {
    if MatchAt(s, i, underscore).Some? {
      k := i;
    } else {
      k := LeftmostIsFirst(s, i + 1, underscore);
    }
  }

  /** Indices without a match are skipped over. */
  lemma {:induction false} LeftmostSkips(s: string, i: nat, j: nat, underscore: bool)
    requires i <= j <= |s|
    requires forall k :: i <= k < j ==> MatchAt(s, k, underscore).None?
    ensures Leftmost(s, i, underscore) == Leftmost(s, j, underscore)
    decreases j - i
  {
    if i < j {
      LeftmostSkips(s, i + 1, j, underscore);
    }
  }

  /** `intentFromClip`: the first pattern (with `p_`) is tried before the bare one. An absent
      clip is "". */
  function IntentFromClip(clip: string): (r: Option<string>)
    ensures clip == "" ==> r.None?
    ensures r.Some? ==> r.value in Intents
  {
    if clip == "" then None
    else
      var s := Lower(clip);
      var m := Leftmost(s, 0, true);
      if m.Some? then m else Leftmost(s, 0, false)
  }

  /** Upper and lower case are not told apart. */
  lemma IntentFromClipIgnoresCase(clip: string)
    ensures IntentFromClip(Lower(clip)) == IntentFromClip(clip)
  {
    LowerIdempotent(clip);
  }

  lemma LowerOfLowercase(s: string)
    requires forall i :: 0 <= i < |s| ==> !IsUpper(s[i])
    ensures Lower(s) == s
  {
  }

  /** `p_fun` and the like: the first pattern matches at the start. */
  lemma PrefixedIntent(w: string)
    requires w in Intents
    ensures IntentFromClip("p_" + w) == Some(w)
  {
    var s := "p_" + w;
    LowerOfLowercase(s);
    assert s[2..2 + |w|] == w;
    assert WordAt(s, 2) == Some(w);
    assert MatchAt(s, 0, true) == Some(w);
  }

  /** `fun` and the like: no separator, so only the second pattern matches, at the start. */
  lemma BareIntent(w: string)
    requires w in Intents
    ensures IntentFromClip(w) == Some(w)
  {
    LowerOfLowercase(w);
    assert w[0] != 'p' && w[0] != '_';
    forall k | 0 <= k < |w| ensures MatchAt(w, k, true).None? {
      assert !IsSeparator(w[k]);
    }
    LeftmostSkips(w, 0, |w|, true);
    assert w[0..|w|] == w;
    assert MatchAt(w, 0, false) == Some(w);
  }

  /** `assets/p_fun.mp4` and the like: the first pattern matches at the slash. */
  lemma AssetIntent(w: string)
    requires w in Intents
    ensures IntentFromClip("assets/p_" + w + ".mp4") == Some(w)
  {
    var s := "assets/p_" + w + ".mp4";
    LowerOfLowercase(s);
    AssetMatch(s, w);
  }

  lemma AssetMatch(s: string, w: string)
    requires w in Intents && s == "assets/p_" + w + ".mp4"
    ensures Leftmost(s, 0, true) == Some(w)
  {
    forall k | 0 <= k < 6 ensures MatchAt(s, k, true).None? {
      assert !IsSeparator(s[k]);
    }
    assert s[9..9 + |w|] == w && s[9 + |w|] == '.';
    assert WordAt(s, 9) == Some(w);
    assert MatchAt(s, 6, true) == Some(w);
    LeftmostSkips(s, 0, 6, true);
  }

  // ---------------------------------------------------------------------------------------
  // pickVoiceId (lines 9-14, 35-39)

  const DefaultVoice: string := "kDIJK53VQMjfQj3fCrML"

  function IntentVoice(intent: string): string {
    if intent == "fun" then "WEyBkfNR4P8pL1cFo2jV"
    else if intent == "from" then "DqdcNywG9XLHBlbqaZYM"
    else "IcsVrJwpE5wPKqWalifC"
  }

  /** `VOICES.fallback`: the `DEFAULT_VOICE_ID` setting, else the built-in voice. */
  function FallbackVoice(defaultVoiceSetting: string): string {
    if defaultVoiceSetting != "" then defaultVoiceSetting else DefaultVoice
  }

  /** `pickVoiceId`. Absent string fields are "". */
  function PickVoiceId(voiceId: string, clip: string, defaultVoiceSetting: string): (r: string)
    ensures voiceId != "" ==> r == voiceId
    ensures voiceId == "" && IntentFromClip(clip).Some? ==> r == IntentVoice(IntentFromClip(clip).value)
    ensures voiceId == "" && IntentFromClip(clip).None? ==> r == FallbackVoice(defaultVoiceSetting)
    ensures r != ""
  {
    if voiceId != "" then voiceId
    else match IntentFromClip(clip)
      case Some(g) => IntentVoice(g)
      case None => FallbackVoice(defaultVoiceSetting)
  }

  // ---------------------------------------------------------------------------------------
  // clampText (lines 41-47)

  const DefaultMax: nat := 220
  const Ellipsis: char := '…'

  predicate IsPunct(c: char) { c == '.' || c == '!' || c == '?' }

  /** `Math.max(cut.lastIndexOf('.'), cut.lastIndexOf('!'), cut.lastIndexOf('?'))`: the last
      sentence end in `cut`, or -1. */
  function LastPunct(cut: string): (r: int)
    ensures -1 <= r < |cut|
    ensures r >= 0 ==> IsPunct(cut[r])
    ensures forall j :: r < j < |cut| ==> !IsPunct(cut[j])
  {
    Max(LastIndexOf(cut, '.'), Max(LastIndexOf(cut, '!'), LastIndexOf(cut, '?')))
  }

  function ClampText(s: string, max: nat): (r: string)
    ensures r == [] <==> AllSpace(s)
    ensures |Trim(s)| <= max ==> r == Trim(s)
    ensures |Trim(s)| > max ==>
      && 1 <= |r| <= max + 1 && r[|r| - 1] == Ellipsis
      && var k := |r| - 1;
         && r[..k] == Trim(s)[..k]
         && (k == max || (120 < k - 1 && IsPunct(Trim(s)[k - 1])))
         && (forall j :: k <= j < max && 120 < j ==> !IsPunct(Trim(s)[j]))
         && ((exists j :: 120 < j < max && IsPunct(Trim(s)[j])) ==> 120 < k - 1 && IsPunct(Trim(s)[k - 1]))
         && ((forall j :: 120 < j < max ==> !IsPunct(Trim(s)[j])) ==> k == max)
  {
    var str := Trim(s);
    if |str| <= max then str else Truncate(str, max)
  }

  /** A text over the limit cut at the limit, or just after the last sentence end past
      index 120 before it, and ended with an ellipsis. */
  function Truncate(str: string, max: nat): (r: string)
    requires |str| > max
    ensures 1 <= |r| <= max + 1 && r[|r| - 1] == Ellipsis
    ensures var k := |r| - 1;
      && r[..k] == str[..k]
      && (k == max || (120 < k - 1 && IsPunct(str[k - 1])))
      && (forall j :: k <= j < max && 120 < j ==> !IsPunct(str[j]))
      && ((exists j :: 120 < j < max && IsPunct(str[j])) ==> 120 < k - 1 && IsPunct(str[k - 1]))
      && ((forall j :: 120 < j < max ==> !IsPunct(str[j])) ==> k == max)
  {
    var cut := str[..max];
    var p := LastPunct(cut);
    var kept := if p > 120 then cut[..p + 1] else cut;
    assert kept == str[..|kept|];
    kept + [Ellipsis]
  }

  // ---------------------------------------------------------------------------------------
  // The handler (lines 49-135)

  /** The request body after `JSON.parse`; absent strings are "". */
  datatype TtsPayload = TtsPayload(text: string, clip: string, voiceId: string)

  /** What `JSON.parse(event.body || '{}')` gives: an error, `null`, or an object. */
  datatype RequestBody = InvalidJson | NullJson | Payload(payload: TtsPayload)

  /** The message of the `TypeError` that reading `payload.text` on `null` throws. */
  const NullTextError := "Cannot read properties of null (reading 'text')"

  /** The speech service's answer to one request. */
  datatype SpeechReply = Answered(status: int, payload: string) | Aborted(message: string)
  {
    /** `r.ok`: a 2xx status. The payload is the audio (already base64) or the error text. */
    predicate Ok() { Answered? && 200 <= status <= 299 }
  }

  type SpeechService = (string, string) -> SpeechReply

  datatype TtsBody = NoBody | Plain(text: string) | ErrorJson(error: string, details: string) | AudioBody(base64: string)

  datatype TtsResponse = TtsResponse(statusCode: int, body: TtsBody)

  /** The last step: one request to the speech service and the response built from its reply. */
  function Speak(voice: string, text: string, service: SpeechService): (r: TtsResponse)
    ensures r.statusCode == 200 <==> service(voice, text).Ok()
    ensures service(voice, text).Ok() ==> r.body == AudioBody(service(voice, text).payload)
    ensures service(voice, text).Answered? && !service(voice, text).Ok() ==>
      && r.statusCode == (if service(voice, text).status != 0 then service(voice, text).status else 502)
      && r.body.ErrorJson?
      && r.body.details <= service(voice, text).payload
      && Utf16Length(r.body.details) <= 600
      && (r.body.details != service(voice, text).payload ==>
            Utf16Length(r.body.details) + Utf16Width(service(voice, text).payload[|r.body.details|]) > 600)
    ensures service(voice, text).Aborted? ==>
      r == TtsResponse(500, ErrorJson("TTS function error", "TTS request aborted/failed: " + service(voice, text).message))
  {
    match service(voice, text)
    case Answered(status, payload) =>
      if 200 <= status <= 299 then TtsResponse(200, AudioBody(payload))
      else
        TtsResponse(if status != 0 then status else 502,
                    ErrorJson("ElevenLabs TTS failed", Utf16Take(payload, 600)))
    case Aborted(m) => TtsResponse(500, ErrorJson("TTS function error", "TTS request aborted/failed: " + m))
  }

  function Handle(httpMethod: string, apiKey: string, defaultVoiceSetting: string,
                  body: RequestBody, service: SpeechService): (r: TtsResponse)
    ensures httpMethod == "OPTIONS" || httpMethod == "GET" ==> r == TtsResponse(204, NoBody)
    ensures httpMethod !in {"OPTIONS", "GET", "POST"} ==> r == TtsResponse(405, Plain("Method Not Allowed"))
    ensures httpMethod == "POST" && apiKey == "" ==> r.statusCode == 401
    ensures httpMethod == "POST" && apiKey != "" && body.InvalidJson? ==> r == TtsResponse(400, ErrorJson("Invalid JSON", ""))
    ensures httpMethod == "POST" && apiKey != "" && body.NullJson? ==>
      r == TtsResponse(500, ErrorJson("TTS function error", NullTextError))
    ensures httpMethod == "POST" && apiKey != "" && body.Payload? && AllSpace(body.payload.text) ==>
      r == TtsResponse(400, ErrorJson("Missing \"text\"", ""))
    ensures httpMethod == "POST" && apiKey != "" && body.Payload? && !AllSpace(body.payload.text) ==>
      r == Speak(PickVoiceId(body.payload.voiceId, body.payload.clip, defaultVoiceSetting),
                 ClampText(body.payload.text, DefaultMax), service)
  {
    if httpMethod == "OPTIONS" || httpMethod == "GET" then TtsResponse(204, NoBody)
    else if httpMethod != "POST" then TtsResponse(405, Plain("Method Not Allowed"))
    else if apiKey == "" then TtsResponse(401, ErrorJson("ELEVENLABS_API_KEY missing", ""))
    else match body
      case InvalidJson => TtsResponse(400, ErrorJson("Invalid JSON", ""))
      case NullJson => TtsResponse(500, ErrorJson("TTS function error", NullTextError))
      case Payload(p) =>
        var text := ClampText(p.text, DefaultMax);
        if text == "" then TtsResponse(400, ErrorJson("Missing \"text\"", ""))
        else Speak(PickVoiceId(p.voiceId, p.clip, defaultVoiceSetting), text, service)
  }
}
