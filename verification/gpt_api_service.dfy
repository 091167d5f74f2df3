/** The client of the chat-completions endpoint: the requests it builds
    (prompt sections, token budget, API-key guard) and what it makes of the
    replies (fence stripping, repair of a truncated array, extraction of the
    word objects). JSON text is read by functions passed in, so that only
    what the client does with the decoded values is modelled. */
module Gpt {
  import opened Model
  import opened Text

  const API_URL: string := "https://api.openai.com/v1/chat/completions"
  const MODEL_NAME: string := "gpt-3.5-turbo"
  const TEMPERATURE: real := 0.7
  const MIN_MAX_TOKENS: int := 4000
  const TOKENS_PER_WORD: int := 250
  const CHAT_MAX_TOKENS: int := 2000
  const DEFAULT_STYLE: string := "Mặc định"
  const SYSTEM_PROMPT: string :=
    "Bạn là trợ lý AI chuyên giúp học tiếng Anh. "
    + "Bạn có thể tạo từ vựng, giải thích từ, tạo ví dụ, hội thoại, "
    + "hoặc trả lời bất kỳ câu hỏi nào về tiếng Anh. "
    + "Hãy trả lời bằng tiếng Việt trừ khi được yêu cầu khác."

  /** The four styles the prompt has a paragraph for. */
  const NAMED_STYLES: seq<string> := ["Đơn giản", "Hài hước", "Học thuật", "Trẻ em"]

  // ----- the token budget -----

  /** Java `int` arithmetic: the mathematical value wrapped into 32 bits. */
  function Int32(x: int): (r: int)
    ensures INT_MIN <= r <= INT_MAX
    ensures INT_MIN <= x <= INT_MAX ==> r == x
  {
    (x - INT_MIN) % 0x1_0000_0000 + INT_MIN
  }

  /** `Math.max(4000, wordCount * 250)` with the product computed in `int`. */
  function MaxTokens(wordCount: int): (r: int)
    requires INT_MIN <= wordCount <= INT_MAX
    ensures r >= MIN_MAX_TOKENS
    ensures INT_MIN <= wordCount * TOKENS_PER_WORD <= INT_MAX ==>
      r == if wordCount * TOKENS_PER_WORD > MIN_MAX_TOKENS then wordCount * TOKENS_PER_WORD else MIN_MAX_TOKENS
  {
    var product := Int32(wordCount * TOKENS_PER_WORD);
    if product > MIN_MAX_TOKENS then product else MIN_MAX_TOKENS
  }

  /** Every count the generation dialog lets through gets at least 4000
      tokens, 250 per word above 16 words, and never more than 12500. */
  lemma MaxTokensForDialogCounts(n: int)
    requires 1 <= n <= 50
    ensures n <= 16 ==> MaxTokens(n) == MIN_MAX_TOKENS
    ensures n > 16 ==> MaxTokens(n) == n * TOKENS_PER_WORD
    ensures MaxTokens(n) <= 12500
  {
  }

  /** The product wraps for counts beyond the dialog's range: a count of
      17179870 asks for only 4000 tokens. */
  lemma MaxTokensWraps()
    ensures MaxTokens(17179870) == MIN_MAX_TOKENS
  {
    assert Int32(17179870 * TOKENS_PER_WORD) == 204;
  }

  // ----- the prompt -----

  /** The prompt `buildPrompt` assembles, part by part in the order it
      appends them; the fixed Vietnamese wording around the inserted values
      is not reproduced.
      - the teacher role, the word count and the quoted topic;
      - `interests`: the personalisation paragraph naming the interests;
      - `style`: the style paragraph, a heading followed by the guide of
        a named style (`guide` None: heading only);
      - the five required fields, where the example line names the
        interests (`exampleInterests`) and the memory-tip line the style
        (`tipStyle`);
      - the JSON array layout and the "JSON only" instruction. */
  datatype Prompt = Prompt(
    wordCount: int,
    topic: string,
    interests: Option<string>,
    style: Option<StyleParagraph>,
    exampleInterests: Option<string>,
    tipStyle: Option<string>)

  datatype StyleParagraph = StyleParagraph(guide: Option<string>)

  predicate HasInterests(interests: Option<string>)
  {
    interests.Some? && !IsBlank(interests.value)
  }

  /** `buildPrompt(topic, wordCount, interests, style)`; `interests` is None
      for a null argument. The interests paragraph and the interests on the
      example line appear exactly when the interests are not blank; the
      style paragraph and the style on the memory-tip line exactly when the
      style is not the default, and the paragraph has a guide exactly when
      the style is one of the four named ones. */
  function BuildPrompt(topic: string, wordCount: int, interests: Option<string>, style: string): (p: Prompt)
    ensures p.wordCount == wordCount && p.topic == topic
    ensures p.interests.Some? <==> HasInterests(interests)
    ensures p.exampleInterests == p.interests
    ensures p.interests.Some? ==> p.interests == interests
    ensures p.style.Some? <==> style != DEFAULT_STYLE
    ensures p.tipStyle.Some? <==> style != DEFAULT_STYLE
    ensures p.tipStyle.Some? ==> p.tipStyle.value == style
    ensures p.style.Some? ==> (p.style.value.guide.Some? <==> style in NAMED_STYLES)
    ensures p.style.Some? && p.style.value.guide.Some? ==> p.style.value.guide.value == style
  {
    var interestsPart := if HasInterests(interests) then interests else None;
    var stylePart :=
      if style == DEFAULT_STYLE then None
      else Some(StyleParagraph(if style in NAMED_STYLES then Some(style) else None));
    Prompt(wordCount, topic, interestsPart, stylePart, interestsPart,
           if style != DEFAULT_STYLE then Some(style) else None)
  }

  /** The overload without interests and style asks for the plain prompt. */
  lemma PlainPrompt(topic: string, wordCount: int)
    ensures BuildPrompt(topic, wordCount, Some(""), DEFAULT_STYLE) == Prompt(wordCount, topic, None, None, None, None)
  {
    assert IsBlank("");
  }

  /** A style outside the list adds the heading of the style paragraph with
      nothing under it, and is still named on the memory-tip line. */
  lemma UnknownStyleHeadingOnly(topic: string, wordCount: int, interests: Option<string>, style: string)
    requires style != DEFAULT_STYLE && style !in NAMED_STYLES
    ensures BuildPrompt(topic, wordCount, interests, style).style == Some(StyleParagraph(None))
    ensures BuildPrompt(topic, wordCount, interests, style).tipStyle == Some(style)
  {
  }

  /** Interests made only of spaces count as none. */
  lemma BlankInterestsIgnored(topic: string, wordCount: int, interests: string, style: string)
    requires forall i :: 0 <= i < |interests| ==> interests[i] == ' '
    ensures BuildPrompt(topic, wordCount, Some(interests), style)
      == BuildPrompt(topic, wordCount, None, style)
  {
  }

  // ----- cleaning the reply -----

  const FENCE: string := "```"
  const JSON_FENCE: string := "```json"

  /** `s` without a leading `fence`, when it has one. */
  function DropLeading(s: string, fence: string): (r: string)
    ensures StartsWith(s, fence) ==> s == fence + r
    ensures !StartsWith(s, fence) ==> r == s
  {
    if StartsWith(s, fence) then s[|fence|..] else s
  }

  /** `s` without a trailing `fence`, when it has one. */
  function DropTrailing(s: string, fence: string): (r: string)
    ensures EndsWith(s, fence) ==> s == r + fence
    ensures !EndsWith(s, fence) ==> r == s
  {
    if EndsWith(s, fence) then s[..|s| - |fence|] else s
  }

  /** The markdown fences around the reply are removed: after trimming, a
      leading "```json", then a leading "```", then a trailing "```", and the
      rest is trimmed again. */
  function StripFences(content: string): (r: string)
    ensures Trim(r) == r
    ensures |r| <= |content|
  {
    var t := DropTrailing(DropLeading(DropLeading(Trim(content), JSON_FENCE), FENCE), FENCE);
    TrimIdempotent(t);
    Trim(t)
  }

  /** A reply without fences is only trimmed. */
  lemma StripWithoutFences(content: string)
    requires !StartsWith(Trim(content), FENCE) && !EndsWith(Trim(content), FENCE)
    ensures StripFences(content) == Trim(content)
  {
    if StartsWith(Trim(content), JSON_FENCE) {
      StartsWithPrefix(Trim(content), FENCE, "json");
    }
    TrimIdempotent(content);
  }

  /** A body fenced as "```json … ```" comes back as the trimmed body. */
  lemma StripJsonFence(body: string)
    requires body != [] && body[0] != '`'
    ensures StripFences(JSON_FENCE + body + FENCE) == Trim(body)
  {
    var s := JSON_FENCE + body + FENCE;
    TrimOfTrimmed(s);
    var t1 := DropLeading(s, JSON_FENCE);
    assert s[..|JSON_FENCE|] == JSON_FENCE;
    assert t1 == body + FENCE;
    assert t1[0] != '`';
    var t2 := DropLeading(t1, FENCE);
    assert t2 == t1;
    assert t2[|t2| - |FENCE|..] == FENCE;
    assert DropTrailing(t2, FENCE) == body;
  }

  /** A body fenced as "``` … ```" comes back as the trimmed body. */
  lemma StripPlainFence(body: string)
    requires body != [] && body[0] != '`' && body[0] != 'j'
    ensures StripFences(FENCE + body + FENCE) == Trim(body)
  {
    var s := FENCE + body + FENCE;
    TrimOfTrimmed(s);
    assert s[3] == body[0];
    var t1 := DropLeading(s, JSON_FENCE);
    assert t1 == s by {
      assert JSON_FENCE[3] == 'j';
    }
    var t2 := DropLeading(t1, FENCE);
    assert s[..|FENCE|] == FENCE;
    assert t2 == body + FENCE;
    assert t2[|t2| - |FENCE|..] == FENCE;
    assert DropTrailing(t2, FENCE) == body;
  }

  /** The repair heuristic applies: the reply does not end with "]", its last
      "}" is past position 0 and after its first "[". */
  predicate Repairable(content: string)
  {
    && !EndsWith(Trim(content), "]")
    && LastIndexOf(content, '}') > 0
    && 0 <= IndexOf(content, '[') < LastIndexOf(content, '}')
  }

  /** A reply cut off by the token limit is closed after its last complete
      object: everything after the last "}" is dropped and "]" appended.
      Any other reply is left as it is. */
  function Repair(content: string): (r: string)
    ensures !Repairable(content) ==> r == content
    ensures Repairable(content) ==>
      && 2 <= |r| <= |content| + 1 && r[|r| - 2] == '}' && r[|r| - 1] == ']'
      && r[..|r| - 1] == content[..|r| - 1]
      && (forall j :: |r| - 1 <= j < |content| ==> content[j] != '}')
      && (exists j :: 0 <= j < |r| - 2 && r[j] == '[')
  {
    if Repairable(content) then
      var k := LastIndexOf(content, '}');
      CutAfterLastBrace(content, k);
      content[..k + 1] + "]"
    else content
  }

  lemma CutAfterLastBrace(content: string, k: int)
    requires Repairable(content) && k == LastIndexOf(content, '}')
    ensures var r := content[..k + 1] + "]";
      && 2 <= |r| <= |content| + 1 && r[|r| - 2] == '}' && r[|r| - 1] == ']'
      && r[..|r| - 1] == content[..|r| - 1]
      && (forall j :: |r| - 1 <= j < |content| ==> content[j] != '}')
      && (exists j :: 0 <= j < |r| - 2 && r[j] == '[')
  {
    var r := content[..k + 1] + "]";
    assert r[..|r| - 1] == content[..k + 1];
    var a := IndexOf(content, '[');
    assert r[a] == '[';
  }

  /** Repairing twice is repairing once: a repaired reply ends with "]". */
  lemma RepairIdempotent(content: string)
    ensures Repair(Repair(content)) == Repair(content)
  {
    if Repairable(content) {
      var r := Repair(content);
      ClosedNotRepairable(r);
    }
  }

  /** A reply whose last character is "]" is never repaired. */
  lemma ClosedNotRepairable(s: string)
    requires s != [] && s[|s| - 1] == ']'
    ensures !Repairable(s)
  {
    TrimKeepsVisibleEnd(s);
    var t := Trim(s);
    assert t[|t| - 1..] == "]";
  }

  /** A reply truncated inside its second object keeps the first one. */
  lemma RepairDropsTruncatedObject()
    ensures Repair("[{},{\"e") == "[{}]"
  {
    var c := "[{},{\"e";
    assert LastIndexOf(c, '}') == 2;
    assert IndexOf(c, '[') == 0;
    TrimKeepsVisibleEnd(c);
  }

  /** Cleaning applied to the content of the first choice. */
  function CleanContent(content: string): string
  {
    Repair(StripFences(content))
  }

  // ----- extracting the words -----

  /** A member value as `getAsString` reads it: a primitive reads as its
      text; JSON null, an object or an array cannot be read. */
  datatype Field = Primitive(text: string) | Unreadable

  /** An element of the decoded array: an object with its members, or any
      other JSON value. */
  datatype Element = Object(fields: map<string, Field>) | NonObject

  predicate Readable(fields: map<string, Field>, key: string)
  {
    key !in fields || fields[key].Primitive?
  }

  /** The text of an optional member, "" when it is absent. */
  function TextOr(fields: map<string, Field>, key: string): string
    requires Readable(fields, key)
  {
    if key in fields then fields[key].text else ""
  }

  /** One array element: skipped (None) unless it is an object with both
      "english" and "vietnamese" and every present member of the five reads
      as text; the three optional members default to "". */
  function ExtractWord(e: Element): (r: Option<Word>)
    ensures r.Some? <==>
      && e.Object? && "english" in e.fields && "vietnamese" in e.fields
      && Readable(e.fields, "english") && Readable(e.fields, "vietnamese")
      && Readable(e.fields, "pronunciation") && Readable(e.fields, "example") && Readable(e.fields, "memoryTip")
    ensures r.Some? ==>
      && r.value.english == e.fields["english"].text
      && r.value.vietnamese == e.fields["vietnamese"].text
      && r.value.pronunciation == Some(TextOr(e.fields, "pronunciation"))
      && r.value.example == Some(TextOr(e.fields, "example"))
      && r.value.memoryTip == Some(TextOr(e.fields, "memoryTip"))
  {
    match e
    case NonObject => None
    case Object(f) =>
      if "english" !in f || "vietnamese" !in f then None
      else if !Readable(f, "english") || !Readable(f, "vietnamese") || !Readable(f, "pronunciation")
           || !Readable(f, "example") || !Readable(f, "memoryTip") then None
      else Some(Word(f["english"].text, f["vietnamese"].text,
                     Some(TextOr(f, "pronunciation")), Some(TextOr(f, "example")), Some(TextOr(f, "memoryTip"))))
  }

  /** The words extracted from the elements, in array order. */
  function ExtractedWords(elements: seq<Element>): (words: seq<Word>)
    ensures |words| <= |elements|
  {
    if elements == [] then []
    else
      var front := ExtractedWords(elements[..|elements| - 1]);
      match ExtractWord(elements[|elements| - 1])
      case Some(w) => front + [w]
      case None => front
  }

  /** Extraction works element by element, so the surviving words keep the
      order of their elements. */
  lemma {:induction false} ExtractedWordsAppend(a: seq<Element>, b: seq<Element>)
    ensures ExtractedWords(a + b) == ExtractedWords(a) + ExtractedWords(b)
  {
    if b == [] {
      assert a + b == a;
    } else {
      assert (a + b)[..|a + b| - 1] == a + b[..|b| - 1];
      ExtractedWordsAppend(a, b[..|b| - 1]);
    }
  }

  /** A skipped element contributes nothing. */
  lemma SkippedElement(a: seq<Element>, e: Element, b: seq<Element>)
    requires ExtractWord(e).None?
    ensures ExtractedWords(a + [e] + b) == ExtractedWords(a) + ExtractedWords(b)
  {
    ExtractedWordsAppend(a + [e], b);
    assert (a + [e])[..|a + [e]| - 1] == a;
  }

  /** When every element is a complete object, there is one word per element,
      in the same position. */
  lemma {:induction false} AllComplete(elements: seq<Element>)
    requires forall i :: 0 <= i < |elements| ==> ExtractWord(elements[i]).Some?
    ensures |ExtractedWords(elements)| == |elements|
    ensures forall i :: 0 <= i < |elements| ==> ExtractedWords(elements)[i] == ExtractWord(elements[i]).value
  {
    if elements != [] {
      AllComplete(elements[..|elements| - 1]);
    }
  }

  /** The extraction loop over the decoded array. */
  method CollectWords(elements: seq<Element>) returns (words: seq<Word>)
    ensures words == ExtractedWords(elements)
  {
    words := [];
    var i := 0;
    while i < |elements|
      invariant 0 <= i <= |elements|
      invariant words == ExtractedWords(elements[..i])
    {
      assert elements[..i + 1][..i] == elements[..i];
      var w := ExtractWord(elements[i]);
      if w.Some? {
        words := words + [w.value];
      }
      i := i + 1;
    }
    assert elements[..i] == elements;
  }

  // ----- parsing the replies -----

  /** The reply body as Gson reads it: `choices` is None when the member is
      absent; a choice's content is None when its message or content is
      missing or unreadable. */
  datatype Envelope = Envelope(choices: Option<seq<Option<string>>>)

  datatype ParseError =
    | Malformed     // the body, or its first choice, is not shaped as expected
    | NoChoices     // "choices" missing or empty
    | InvalidJson   // the cleaned content is not a JSON array
    | NoWords       // no element yielded a word

  /** The content of the first choice, shared by both parsers. */
  function FirstContent(env: Envelope): (r: Result<string, ParseError>)
    ensures r == Err(NoChoices) <==> env.choices.None? || env.choices.value == []
    ensures r.Ok? <==> env.choices.Some? && env.choices.value != [] && env.choices.value[0].Some?
    ensures r.Ok? ==> r.value == env.choices.value[0].value
    ensures r.Err? ==> r.error in {NoChoices, Malformed}
  {
    if env.choices.None? || env.choices.value == [] then Err(NoChoices)
    else if env.choices.value[0].None? then Err(Malformed)
    else Ok(env.choices.value[0].value)
  }

  /** `parseResponse`: `readEnvelope` decodes the body, `readArray` the
      cleaned content (None: not a JSON array). */
  method ParseResponse(body: string, readEnvelope: string -> Option<Envelope>, readArray: string -> Option<seq<Element>>)
    returns (r: Result<seq<Word>, ParseError>)
    ensures readEnvelope(body).None? ==> r == Err(Malformed)
    ensures readEnvelope(body).Some? && FirstContent(readEnvelope(body).value).Err? ==>
      r == Err(FirstContent(readEnvelope(body).value).error)
    ensures readEnvelope(body).Some? && FirstContent(readEnvelope(body).value).Ok? ==>
      var elements := readArray(CleanContent(FirstContent(readEnvelope(body).value).value));
      && (elements.None? ==> r == Err(InvalidJson))
      && (elements.Some? && ExtractedWords(elements.value) == [] ==> r == Err(NoWords))
      && (elements.Some? && ExtractedWords(elements.value) != [] ==> r == Ok(ExtractedWords(elements.value)))
    ensures r.Ok? ==> r.value != []
  {
    var env := readEnvelope(body);
    if env.None? {
      return Err(Malformed);
    }
    var content := FirstContent(env.value);
    if content.Err? {
      return Err(content.error);
    }
    var cleaned := StripFences(content.value);
    cleaned := Repair(cleaned);
    var elements := readArray(cleaned);
    if elements.None? {
      return Err(InvalidJson);
    }
    var words := CollectWords(elements.value);
    if words == [] {
      return Err(NoWords);
    }
    r := Ok(words);
  }

  /** `parseChatResponse`: the first choice's content, trimmed. */
  function ParseChatResponse(body: string, readEnvelope: string -> Option<Envelope>): (r: Result<string, ParseError>)
    ensures readEnvelope(body).None? ==> r == Err(Malformed)
    ensures readEnvelope(body).Some? ==>
      var c := FirstContent(readEnvelope(body).value);
      && (c.Err? ==> r == Err(c.error))
      && (c.Ok? ==> r == Ok(Trim(c.value)))
    ensures r.Ok? ==> Trim(r.value) == r.value
  {
    var env := readEnvelope(body);
    if env.None? then Err(Malformed)
    else
      var c := FirstContent(env.value);
      if c.Err? then Err(c.error)
      else
        TrimIdempotent(c.value);
        Ok(Trim(c.value))
  }

  // ----- the requests and the replies -----

  datatype Content = UserPrompt(prompt: Prompt) | Plain(text: string)

  datatype Message = Message(role: string, content: Content)

  /** The POST request: endpoint, Authorization header and JSON body. */
  datatype ChatRequest = ChatRequest(
    url: string,
    authorization: string,
    model: string,
    messages: seq<Message>,
    temperature: real,
    maxTokens: int)

  /** How an HTTP exchange ended: a transport failure, or a response with
      its status code and body text. */
  datatype Reply = Failure(reason: string) | Response(code: int, body: string)

  /** What reaches `onError`. */
  datatype ServiceError =
    | NotConfigured                      // no API key
    | ConnectionFailed(reason: string)   // onFailure
    | HttpStatus(code: int, body: string) // a status outside 200..299
    | Unparseable(cause: ParseError)     // the body could not be turned into a result

  /** OkHttp's `isSuccessful`. */
  predicate IsSuccessful(code: int)
  {
    200 <= code < 300
  }

  /** The words a response body carries: None when the envelope, its first
      choice or the cleaned content cannot be read as expected. */
  function BodyWords(body: string, readEnvelope: string -> Option<Envelope>, readArray: string -> Option<seq<Element>>)
    : Option<seq<Word>>
  {
    var env := readEnvelope(body);
    if env.None? || FirstContent(env.value).Err? then None
    else
      var elements := readArray(CleanContent(FirstContent(env.value).value));
      if elements.None? then None else Some(ExtractedWords(elements.value))
  }

  /** The vocabulary request's reply, as delivered to the callback: a
      transport failure and a status outside 2xx are reported as such; a 2xx
      body goes through parseResponse, whose failure is reported with its
      cause and whose words are delivered. */
  method VocabularyReply(reply: Reply, readEnvelope: string -> Option<Envelope>, readArray: string -> Option<seq<Element>>)
    returns (r: Result<seq<Word>, ServiceError>)
    ensures reply.Failure? ==> r == Err(ConnectionFailed(reply.reason))
    ensures reply.Response? && !IsSuccessful(reply.code) ==> r == Err(HttpStatus(reply.code, reply.body))
    ensures reply.Response? && IsSuccessful(reply.code) ==>
      var env := readEnvelope(reply.body);
      && (env.None? ==> r == Err(Unparseable(Malformed)))
      && (env.Some? && FirstContent(env.value).Err? ==> r == Err(Unparseable(FirstContent(env.value).error)))
      && (env.Some? && FirstContent(env.value).Ok? ==>
            var elements := readArray(CleanContent(FirstContent(env.value).value));
            && (elements.None? ==> r == Err(Unparseable(InvalidJson)))
            && (elements.Some? && ExtractedWords(elements.value) == [] ==> r == Err(Unparseable(NoWords)))
            && (elements.Some? && ExtractedWords(elements.value) != [] ==> r == Ok(ExtractedWords(elements.value))))
    ensures r.Ok? <==>
      && reply.Response? && IsSuccessful(reply.code)
      && var words := BodyWords(reply.body, readEnvelope, readArray);
         words.Some? && words.value != []
    ensures r.Ok? ==> r.value == BodyWords(reply.body, readEnvelope, readArray).value
  {
    match reply
    case Failure(reason) =>
      r := Err(ConnectionFailed(reason));
    case Response(code, body) =>
      if !IsSuccessful(code) {
        r := Err(HttpStatus(code, body));
      } else {
        var parsed := ParseResponse(body, readEnvelope, readArray);
        if parsed.Err? {
          r := Err(Unparseable(parsed.error));
        } else {
          r := Ok(parsed.value);
        }
      }
  }

  /** The chat request's reply, as delivered to the callback. */
  function ChatReply(reply: Reply, readEnvelope: string -> Option<Envelope>): (r: Result<string, ServiceError>)
    ensures reply.Failure? ==> r == Err(ConnectionFailed(reply.reason))
    ensures reply.Response? && !IsSuccessful(reply.code) ==> r == Err(HttpStatus(reply.code, reply.body))
    ensures reply.Response? && IsSuccessful(reply.code) ==>
      var parsed := ParseChatResponse(reply.body, readEnvelope);
      && (parsed.Ok? ==> r == Ok(parsed.value))
      && (parsed.Err? ==> r == Err(Unparseable(parsed.error)))
  {
    match reply
    case Failure(reason) => Err(ConnectionFailed(reason))
    case Response(code, body) =>
      if !IsSuccessful(code) then Err(HttpStatus(code, body))
      else
        var parsed := ParseChatResponse(body, readEnvelope);
        if parsed.Ok? then Ok(parsed.value) else Err(Unparseable(parsed.error))
  }

  class GPTApiService {
    /** None while no key has been set (Java null). */
    var apiKey: Option<string>

    constructor ()
      ensures apiKey == None
    {
      apiKey := None;
    }

    method SetApiKey(key: Option<string>)
      modifies this
      ensures apiKey == key
    {
      apiKey := key;
    }

    /** The key guard of both requests: a null or empty key is refused. */
    predicate Configured()
      reads this
    {
      apiKey.Some? && apiKey.value != []
    }

    /** The five-argument `generateVocabulary`: without a key the callback
        gets an error and nothing is sent; otherwise one user message holding
        the prompt goes out with a budget of at least 4000 tokens. */
    method GenerateVocabulary(topic: string, wordCount: int, interests: Option<string>, style: string)
      returns (r: Result<ChatRequest, ServiceError>)
      requires INT_MIN <= wordCount <= INT_MAX
      ensures r.Err? <==> !Configured()
      ensures r.Err? ==> r.error == NotConfigured
      ensures r.Ok? ==>
        && r.value.url == API_URL && r.value.model == MODEL_NAME && r.value.temperature == TEMPERATURE
        && r.value.authorization == "Bearer " + apiKey.value
        && r.value.messages == [Message("user", UserPrompt(BuildPrompt(topic, wordCount, interests, style)))]
        && r.value.maxTokens == MaxTokens(wordCount) && r.value.maxTokens >= MIN_MAX_TOKENS
    {
      if apiKey.None? || apiKey.value == [] {
        return Err(NotConfigured);
      }
      var prompt := BuildPrompt(topic, wordCount, interests, style);
      var messages := [Message("user", UserPrompt(prompt))];
      r := Ok(ChatRequest(API_URL, "Bearer " + apiKey.value, MODEL_NAME, messages, TEMPERATURE, MaxTokens(wordCount)));
    }

    /** The three-argument `generateVocabulary`: no interests, default style,
        hence the plain prompt. */
    method GenerateVocabularyPlain(topic: string, wordCount: int)
      returns (r: Result<ChatRequest, ServiceError>)
      requires INT_MIN <= wordCount <= INT_MAX
      ensures r.Err? <==> !Configured()
      ensures r.Ok? ==>
        r.value.messages == [Message("user", UserPrompt(Prompt(wordCount, topic, None, None, None, None)))]
        && r.value.maxTokens == MaxTokens(wordCount)
    {
      PlainPrompt(topic, wordCount);
      r := GenerateVocabulary(topic, wordCount, Some(""), DEFAULT_STYLE);
    }

    /** `sendChatMessage`: the same key guard; a system message and the
        user's message, with a fixed budget of 2000 tokens. */
    method SendChatMessage(userMessage: string) returns (r: Result<ChatRequest, ServiceError>)
      ensures r.Err? <==> !Configured()
      ensures r.Err? ==> r.error == NotConfigured
      ensures r.Ok? ==>
        && r.value.url == API_URL && r.value.model == MODEL_NAME && r.value.temperature == TEMPERATURE
        && r.value.authorization == "Bearer " + apiKey.value
        && r.value.messages == [Message("system", Plain(SYSTEM_PROMPT)), Message("user", Plain(userMessage))]
        && r.value.maxTokens == CHAT_MAX_TOKENS
    {
      if apiKey.None? || apiKey.value == [] {
        return Err(NotConfigured);
      }
      var messages := [Message("system", Plain(SYSTEM_PROMPT)), Message("user", Plain(userMessage))];
      r := Ok(ChatRequest(API_URL, "Bearer " + apiKey.value, MODEL_NAME, messages, TEMPERATURE, CHAT_MAX_TOKENS));
    }
  }
}
