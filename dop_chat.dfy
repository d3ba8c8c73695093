/** The intent router: validates the visitor's question, tries the keyword matcher, and
    otherwise asks the language model to classify it, accepting the model's answer only above a
    confidence threshold. The model's reply is an input; its confidence is a `real`. */
module DopChat {
  import opened Wrappers
  import opened Text

  const MaxInputLength: nat := 500
  const MinConfidence: real := 0.6

  datatype IntentOption = IntentOption(id: string, labelText: string, clip: string, keywords: seq<string>)

  const FunOption := IntentOption("fun", "What do you like to do for fun?", "assets/p_fun.mp4",
                                  ["fun", "hobby", "hobbies", "enjoy", "pastime"])
  const FromOption := IntentOption("from", "Where are you from?", "assets/p_from.mp4",
                                   ["from", "where", "origin", "hometown", "grew up"])
  const RelaxOption := IntentOption("relax", "What's your favorite way to relax?", "assets/p_relax.mp4",
                                    ["relax", "unwind", "chill", "de-stress", "calm down"])

  /** `INTENT_OPTIONS`, in order. */
  const IntentOptions: seq<IntentOption> := [FunOption, FromOption, RelaxOption]

  /** `INTENT_OPTIONS.find(o => o.id === id)` */
  function FindById(opts: seq<IntentOption>, id: string): (r: Option<IntentOption>)
    ensures r.Some? ==> r.value in opts && r.value.id == id
    ensures r.None? <==> forall i :: 0 <= i < |opts| ==> opts[i].id != id
  {
    if opts == [] then None
    else if opts[0].id == id then Some(opts[0])
    else
      var r := FindById(opts[1..], id);
      assert forall i :: 1 <= i < |opts| ==> opts[i] == opts[1..][i - 1];
      r
  }

  /** Only the three option ids name an option; in particular `none` does not. */
  lemma KnownIds(id: string)
    ensures FindById(IntentOptions, id).Some? <==> id in {"fun", "from", "relax"}
  {
    assert IntentOptions[0].id == "fun" && IntentOptions[1].id == "from" && IntentOptions[2].id == "relax";
  }

  // ---------------------------------------------------------------------------------------
  // checkKeywordMatch (lines 98-130)

  /** `option.keywords.filter(kw => normalized.includes(kw)).length` */
  function CountMatches(kws: seq<string>, t: string): (r: nat)
    ensures r <= |kws|
  {
    if kws == [] then 0 else (if Contains(t, kws[0]) then 1 else 0) + CountMatches(kws[1..], t)
  }

  /** Two or more keywords match exactly when two different keywords occur in the text. */
  lemma {:induction false} CountMatchesAtLeastTwo(kws: seq<string>, t: string)
    ensures CountMatches(kws, t) >= 2 <==>
      exists i, j :: 0 <= i < j < |kws| && Contains(t, kws[i]) && Contains(t, kws[j])
  {
    if kws != [] {
      var tail := kws[1..];
      CountMatchesAtLeastTwo(tail, t);
      CountMatchesAtLeastOne(tail, t);
      if CountMatches(kws, t) >= 2 {
        if Contains(t, kws[0]) {
          var j :| 0 <= j < |tail| && Contains(t, tail[j]);
          assert kws[j + 1] == tail[j];
        } else {
          var i, j :| 0 <= i < j < |tail| && Contains(t, tail[i]) && Contains(t, tail[j]);
          assert kws[i + 1] == tail[i] && kws[j + 1] == tail[j];
        }
      }
      if exists i, j :: 0 <= i < j < |kws| && Contains(t, kws[i]) && Contains(t, kws[j]) {
        var i, j :| 0 <= i < j < |kws| && Contains(t, kws[i]) && Contains(t, kws[j]);
        assert kws[j] == tail[j - 1];
        if i > 0 {
          assert kws[i] == tail[i - 1];
        }
      }
    }
  }

  lemma {:induction false} CountMatchesAtLeastOne(kws: seq<string>, t: string)
    ensures CountMatches(kws, t) >= 1 <==> exists i :: 0 <= i < |kws| && Contains(t, kws[i])
  {
    if kws != [] {
      CountMatchesAtLeastOne(kws[1..], t);
      if exists i :: 0 <= i < |kws[1..]| && Contains(t, kws[1..][i]) {
        var i :| 0 <= i < |kws[1..]| && Contains(t, kws[1..][i]);
        assert kws[i + 1] == kws[1..][i];
      }
      if exists i :: 0 <= i < |kws| && Contains(t, kws[i]) {
        var i :| 0 <= i < |kws| && Contains(t, kws[i]);
        if i > 0 {
          assert kws[i] == kws[1..][i - 1];
        }
      }
    }
  }

  /** The body of the loop of lines 108-127 for one option: two keywords, or the single strong
      keywords of `relax` and `fun`. */
  predicate OptionMatches(o: IntentOption, t: string) {
    || CountMatches(o.keywords, t) >= 2
    || (o.id == "relax" && Contains(t, "relax"))
    || (o.id == "fun" && ((Contains(t, "what") && Contains(t, "fun")) || Contains(t, "for fun")))
  }

  /** The loop with its early returns: the first option that matches. */
  function FirstOption(opts: seq<IntentOption>, t: string): (r: Option<IntentOption>)
    ensures r.None? <==> forall i :: 0 <= i < |opts| ==> !OptionMatches(opts[i], t)
    ensures r.Some? ==> exists i :: 0 <= i < |opts| && r.value == opts[i] && OptionMatches(opts[i], t) &&
                                     forall j :: 0 <= j < i ==> !OptionMatches(opts[j], t)
  {
    if opts == [] then None
    else if OptionMatches(opts[0], t) then Some(opts[0])
    else
      var r := FirstOption(opts[1..], t);
      assert forall i :: 1 <= i < |opts| ==> opts[i] == opts[1..][i - 1];
      assert r.Some? ==> exists i :: 0 <= i < |opts| && r.value == opts[i] && OptionMatches(opts[i], t) &&
                                     forall j :: 0 <= j < i ==> !OptionMatches(opts[j], t) by {
        if r.Some? {
          var i :| 0 <= i < |opts[1..]| && r.value == opts[1..][i] && OptionMatches(opts[1..][i], t) &&
                   forall j :: 0 <= j < i ==> !OptionMatches(opts[1..][j], t);
          forall j | 0 <= j < i + 1 ensures !OptionMatches(opts[j], t) {
            if j > 0 { assert opts[j] == opts[1..][j - 1]; }
          }
        }
      }
      r
  }

  /** Lines 102-103: the "where are you from" pattern. */
  predicate WhereFrom(t: string) {
    (Contains(t, "where") && Contains(t, "from")) ||
    (Contains(t, "where") && Contains(t, "you") && Contains(t, "from"))
  }

  function CheckKeywordMatch(userInput: string): (r: Option<IntentOption>)
    ensures r.Some? ==> r.value in IntentOptions
  {
    var t := Lower(userInput);
    if WhereFrom(t) then FindById(IntentOptions, "from") else FirstOption(IntentOptions, t)
  }

  /** The keyword matcher as a decision list: `where` with `from` gives `from`; otherwise fun,
      from and relax are tried in order; nothing matching gives no option. */
  lemma CheckKeywordMatchMeans(userInput: string)
    ensures var t := Lower(userInput);
      CheckKeywordMatch(userInput) ==
        if Contains(t, "where") && Contains(t, "from") then Some(FromOption)
        else if OptionMatches(FunOption, t) then Some(FunOption)
        else if OptionMatches(FromOption, t) then Some(FromOption)
        else if OptionMatches(RelaxOption, t) then Some(RelaxOption)
        else None
  {
    var t := Lower(userInput);
    var rest := [FromOption, RelaxOption];
    assert IntentOptions[1..] == rest && rest[1..] == [RelaxOption] && [RelaxOption][1..] == [];
    assert FindById(IntentOptions, "from") == Some(FromOption) by {
      assert FindById(rest, "from") == Some(FromOption);
    }
    assert WhereFrom(t) <==> Contains(t, "where") && Contains(t, "from");
    assert FirstOption([RelaxOption], t) == if OptionMatches(RelaxOption, t) then Some(RelaxOption) else None;
    assert FirstOption(rest, t) ==
      if OptionMatches(FromOption, t) then Some(FromOption) else FirstOption([RelaxOption], t);
    assert FirstOption(IntentOptions, t) ==
      if OptionMatches(FunOption, t) then Some(FunOption) else FirstOption(rest, t);
  }

  /** `relax` alone makes the relax option match; `for fun` alone, or `what` together with
      `fun`, makes the fun option match. */
  lemma SingleKeywords(t: string)
    ensures OptionMatches(RelaxOption, t) <== Contains(t, "relax")
    ensures Contains(t, "for fun") ==> OptionMatches(FunOption, t)
    ensures Contains(t, "what") && Contains(t, "fun") ==> OptionMatches(FunOption, t)
  {
  }

  // ---------------------------------------------------------------------------------------
  // classifyWithGPT (lines 135-204): the validation of the model's reply

  /** The reply's JSON after `JSON.parse(content)`: a falsy `id` is "" and a `confidence`
      that is not a number is None. */
  datatype ModelJson = ModelJson(id: string, confidence: Option<real>, reason: string)

  /** What the completion request produced. */
  datatype ModelReply =
    | HttpFailure(status: int, detail: string)
    | EmptyContent
    | UnparsableContent(message: string)
    | Content(parsed: ModelJson)
    | TimedOut
    | NetworkFailure(message: string)

  datatype Classification = Classification(id: string, confidence: real, reason: string)

  function ClassifyWithModel(reply: ModelReply): (r: Result<Classification, string>)
    ensures r.Ok? <==> reply.Content? && reply.parsed.id != "" && reply.parsed.confidence.Some?
    ensures r.Ok? ==> r.value.id == Lower(reply.parsed.id) && r.value.confidence == reply.parsed.confidence.value
    ensures reply.Content? && (reply.parsed.id == "" || reply.parsed.confidence.None?) ==>
      r == Err("Invalid response format from GPT")
    ensures reply.TimedOut? ==> r == Err("OpenAI request timeout")
  {
    match reply
    case HttpFailure(status, detail) => Err("OpenAI API error: " + IntToString(status) + " " + detail)
    case EmptyContent => Err("No content in OpenAI response")
    case UnparsableContent(m) => Err(m)
    case Content(parsed) =>
      if parsed.id == "" || parsed.confidence.None? then Err("Invalid response format from GPT")
      else Ok(Classification(Lower(parsed.id), parsed.confidence.value, parsed.reason))
    case TimedOut => Err("OpenAI request timeout")
    case NetworkFailure(m) => Err(m)
  }

  /** Lines 67-69: the option a classification selects. */
  function Accepted(c: Classification): (r: Option<IntentOption>)
    ensures r.Some? <==> c.id != "none" && c.confidence >= MinConfidence && c.id in {"fun", "from", "relax"}
    ensures r.Some? ==> r.value in IntentOptions && r.value.id == c.id
  {
    KnownIds(c.id);
    if c.id != "" && c.id != "none" && c.confidence >= MinConfidence then FindById(IntentOptions, c.id) else None
  }

  /** The `choice !== 'none'` test adds nothing: `none` names no option. */
  lemma NoneTestRedundant(c: Classification)
    ensures Accepted(c) == (if c.confidence >= MinConfidence then FindById(IntentOptions, c.id) else None)
  {
    KnownIds(c.id);
  }

  // ---------------------------------------------------------------------------------------
  // generateFallbackMessage (lines 209-212)

  function Labels(opts: seq<IntentOption>): (r: seq<string>)
    ensures |r| == |opts| && forall i :: 0 <= i < |opts| ==> r[i] == opts[i].labelText
  {
    if opts == [] then [] else [opts[0].labelText] + Labels(opts[1..])
  }

  const FallbackPrefix: string := "I'd love to show you a clip! Try asking: "

  function FallbackMessage(): string {
    FallbackPrefix + Join(Labels(IntentOptions), ", or ")
  }

  lemma FallbackMessageText()
    ensures FallbackMessage() ==
      FallbackPrefix + FunOption.labelText + ", or " + FromOption.labelText + ", or " + RelaxOption.labelText
  {
    var ls := Labels(IntentOptions);
    var a, b, c := FunOption.labelText, FromOption.labelText, RelaxOption.labelText;
    assert ls == [a, b, c];
    assert ls[1..] == [b, c] && ls[1..][1..] == [c];
    assert Join([c], ", or ") == c;
    assert Join([b, c], ", or ") == b + ", or " + c;
    assert Join(ls, ", or ") == a + ", or " + b + ", or " + c;
  }

  // ---------------------------------------------------------------------------------------
  // The handler (lines 15-93)

  datatype ChatBody =
    | Matched(clip: string, intent: string, confidence: Option<real>, via: string)
    | Fallback(fallbackResponse: string, confidence: Option<real>, via: string)
    | ErrorBody(error: string, fallback: Option<string>)

  datatype ChatResponse = ChatResponse(statusCode: int, body: ChatBody)

  /** The handler. `body` is `(text || '')` of the parsed request body: a falsy `text` is "",
      and None stands for a body that does not parse or a truthy `text` that is not a string,
      whose `trim` throws. `hasKey` says whether the API key is configured, and `reply` is what
      the model would answer. */
  function Route(httpMethod: string, body: Option<string>, hasKey: bool, reply: ModelReply): (r: ChatResponse)
    ensures httpMethod != "POST" ==> r == ChatResponse(405, ErrorBody("Method not allowed", None))
    ensures httpMethod == "POST" && body.None? ==>
      r == ChatResponse(500, ErrorBody("Unable to process request. Please try again.", Some(FallbackMessage())))
    ensures httpMethod == "POST" && body.Some? && Trim(body.value) == [] ==>
      r == ChatResponse(400, ErrorBody("Missing text field", None))
    ensures httpMethod == "POST" && body.Some? && Utf16Length(Trim(body.value)) > MaxInputLength ==>
      r == ChatResponse(400, ErrorBody("Input too long. Maximum " + IntToString(MaxInputLength) + " characters allowed", None))
    ensures r.statusCode == 200 <==>
      httpMethod == "POST" && body.Some? && 0 < Utf16Length(Trim(body.value)) <= MaxInputLength
    ensures r.statusCode == 200 && CheckKeywordMatch(Trim(body.value)).Some? ==>
      var o := CheckKeywordMatch(Trim(body.value)).value;
      r.body == Matched(o.clip, o.id, None, "keyword")
    ensures r.body.Matched? && r.body.via == "gpt" <==>
      && r.statusCode == 200 && CheckKeywordMatch(Trim(body.value)).None? && hasKey
      && var c := ClassifyWithModel(reply);
         c.Ok? && c.value.id != "none" && c.value.confidence >= MinConfidence && c.value.id in {"fun", "from", "relax"}
    ensures r.body.Matched? && r.body.via == "gpt" ==>
      var c := ClassifyWithModel(reply).value;
      && FindById(IntentOptions, c.id).Some?
      && r.body == Matched(FindById(IntentOptions, c.id).value.clip, c.id, Some(c.confidence), "gpt")
    ensures r.statusCode == 200 && CheckKeywordMatch(Trim(body.value)).None? ==>
      if !hasKey then r.body == Fallback(FallbackMessage(), None, "fallback-no-key")
      else match ClassifyWithModel(reply)
        case Err(_) => r.body == Fallback(FallbackMessage(), None, "fallback-gpt-error")
        case Ok(c) => Accepted(c).Some? || r.body == Fallback(FallbackMessage(), Some(c.confidence), "fallback-low-confidence")
    ensures r.body.Fallback? ==> r.body.fallbackResponse == FallbackMessage()
  {
    if httpMethod != "POST" then ChatResponse(405, ErrorBody("Method not allowed", None))
    else if body.None? then
      ChatResponse(500, ErrorBody("Unable to process request. Please try again.", Some(FallbackMessage())))
    else
      var userInput := Trim(body.value);
      if userInput == [] then ChatResponse(400, ErrorBody("Missing text field", None))
      else if Utf16Length(userInput) > MaxInputLength then
        ChatResponse(400, ErrorBody("Input too long. Maximum " + IntToString(MaxInputLength) + " characters allowed", None))
      else match CheckKeywordMatch(userInput)
        case Some(o) => ChatResponse(200, Matched(o.clip, o.id, None, "keyword"))
        case None =>
          if !hasKey then ChatResponse(200, Fallback(FallbackMessage(), None, "fallback-no-key"))
          else match ClassifyWithModel(reply)
            case Err(_) => ChatResponse(200, Fallback(FallbackMessage(), None, "fallback-gpt-error"))
            case Ok(c) =>
              match Accepted(c)
              case Some(o) => ChatResponse(200, Matched(o.clip, o.id, Some(c.confidence), "gpt"))
              case None => ChatResponse(200, Fallback(FallbackMessage(), Some(c.confidence), "fallback-low-confidence"))
  }

  /** A question the keyword matcher answers never reaches the model: the response is the same
      whatever the model would say and whether or not a key is configured. */
  lemma KeywordPathIgnoresModel(text: string, hasKey: bool, hasKey': bool, reply: ModelReply, reply': ModelReply)
    requires 0 < Utf16Length(Trim(text)) <= MaxInputLength && CheckKeywordMatch(Trim(text)).Some?
    ensures Route("POST", Some(text), hasKey, reply) == Route("POST", Some(text), hasKey', reply')
  {
  }
}
