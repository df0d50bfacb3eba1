/**
 * What the serverless handlers share: the HTTP response shape, the
 * environment they read, the request they send to the completion provider,
 * the sanitiser that turns the provider's JSON reply into a `Question`, and
 * the generation pipeline (credential check, request body, provider call,
 * reply validation, sanitising) whose failures become the 500 response.
 *
 * The provider and `JSON.parse` are parameters: the model says what the
 * handlers do with whatever they return.
 */
module Endpoint {
  import opened Wrappers
  import opened Text
  import opened Json
  import opened Quiz

  /** A response body: none at all, a literal text, or a value that is sent as `JSON.stringify(value)`. */
  datatype Body = NoBody | Text(text: string) | JsonBody(value: JsonValue)

  datatype Response = Response(statusCode: int, headers: map<string, string>, body: Body)

  /** The parts of the incoming event the handlers read. */
  datatype Event = Event(httpMethod: string, body: Option<string>)

  /** The environment variables the handlers read. */
  datatype Env = Env(apiKey: Option<string>, siteUrl: Option<string>, siteName: Option<string>)

  /** The user turn of the chat request: a question about a topic, or a fixed text. */
  datatype Prompt = AboutTopic(topic: Option<JsonValue>) | Literal(text: string)

  /** One chat-completion request to the provider, with the client's identifying headers. */
  datatype ProviderRequest = ProviderRequest(
    baseUrl: string,
    apiKey: string,
    referer: string,
    title: string,
    model: string,
    systemPrompt: string,
    userPrompt: Prompt,
    temperature: real,
    maxTokens: nat,
    topP: real)

  /**
   * What the provider call yields: it threw (with the error's message), or
   * it returned, with the first choice's message content if there is one.
   */
  datatype Completion = CallFailed(message: string) | Completed(content: Option<string>)

  type Provider = ProviderRequest -> Completion

  const ProviderBaseUrl: string := "https://openrouter.ai/api/v1"
  const ProviderModel: string := "deepseek/deepseek-r1:free"
  const QuestionSystemPrompt: string := "You are a JSON API that generates history quiz questions."

  const MissingKeyMessage: string := "OpenRouter API key is not configured"
  const InvalidApiResponseMessage: string := "Invalid API response"
  const InvalidJsonMessage: string := "Invalid JSON response from AI"
  const GenerationFailedMessage: string := "Failed to generate question"
  const MethodNotAllowedMessage: string := "Method not allowed"

  /**
   * Stands for the message of the `TypeError` the JavaScript engine throws
   * when a field the sanitiser reads is missing or of the wrong type; its
   * wording is the engine's and is not modelled.
   */
  const TypeErrorMessage: string := "TypeError"

  /** `!key || !key.trim()` is false: the credential is set and not blank. */
  predicate KeyConfigured(apiKey: Option<string>) {
    apiKey.Some? && Trim(apiKey.value) != ""
  }

  /** `process.env.X || fallback`. */
  function EnvOr(v: Option<string>, fallback: string): (r: string)
    ensures v.Some? && v.value != "" ==> r == v.value
    ensures v.None? || v.value == "" ==> r == fallback
  {
    if v.Some? && v.value != "" then v.value else fallback
  }

  function Referer(env: Env): string {
    EnvOr(env.siteUrl, "https://bamquiz.com")
  }

  function Title(env: Env): string {
    EnvOr(env.siteName, "bamquiz")
  }

  /** The request for one quiz question about `topic`. */
  function QuestionRequest(env: Env, topic: Option<JsonValue>): (r: ProviderRequest)
    requires KeyConfigured(env.apiKey)
    ensures r.baseUrl == ProviderBaseUrl && r.model == ProviderModel && r.systemPrompt == QuestionSystemPrompt
    ensures r.referer == EnvOr(env.siteUrl, "https://bamquiz.com") && r.title == EnvOr(env.siteName, "bamquiz")
    ensures r.apiKey == Trim(env.apiKey.value) && r.userPrompt == AboutTopic(topic)
    ensures r.temperature == 0.3 && r.maxTokens == 500 && r.topP == 0.9
  {
    ProviderRequest(ProviderBaseUrl, Trim(env.apiKey.value), Referer(env), Title(env),
                    ProviderModel, QuestionSystemPrompt, AboutTopic(topic), 0.3, 500, 0.9)
  }

  // ---------------------------------------------------------------------
  // The sanitiser

  /** `v.key.trim()`: throws unless the field is a string. */
  function TrimmedField(v: JsonValue, key: string): (r: Result<string, string>)
    ensures r.Success? <==> Member(v, key).Some? && Member(v, key).value.JString?
    ensures r.Success? ==> r.value == Trim(Member(v, key).value.s)
  {
    match Member(v, key)
    case Some(JString(s)) => Success(Trim(s))
    case _ => Failure(TypeErrorMessage)
  }

  /** `items.map(opt => opt.trim())`: throws at the first item that is not a string. */
  function TrimItems(items: seq<JsonValue>): (r: Result<seq<string>, string>)
    ensures r.Success? <==> forall k :: 0 <= k < |items| ==> items[k].JString?
    ensures r.Success? ==> |r.value| == |items|
    ensures r.Success? ==> forall k :: 0 <= k < |items| ==> r.value[k] == Trim(items[k].s)
  {
    if items == [] then Success([])
    else
      var rest := TrimItems(items[1..]);
      assert forall k :: 1 <= k < |items| ==> items[k] == items[1..][k - 1];
      if !items[0].JString? then Failure(TypeErrorMessage)
      else if rest.Failure? then rest
      else Success([Trim(items[0].s)] + rest.value)
  }

  /** `v.options.map(opt => opt.trim())`: throws unless the field is an array. */
  function TrimmedOptions(v: JsonValue): Result<seq<string>, string> {
    match Member(v, "options")
    case Some(JArray(items)) => TrimItems(items)
    case _ => Failure(TypeErrorMessage)
  }

  /**
   * `...(v.key && { key: v.key.trim() })`: an absent or falsy field is left
   * out, a truthy string is kept trimmed, and any other truthy value throws.
   */
  function OptionalField(v: JsonValue, key: string): (r: Result<Option<string>, string>)
    ensures r.Failure? <==> TruthyMember(v, key) && !Member(v, key).value.JString?
    ensures r.Success? ==> (r.value.Some? <==> TruthyMember(v, key))
    ensures r.Success? && r.value.Some? ==> r.value.value == Trim(Member(v, key).value.s)
  {
    match Member(v, key)
    case None => Success(None)
    case Some(x) =>
      if !Truthy(x) then Success(None)
      else if x.JString? then Success(Some(Trim(x.s)))
      else Failure(TypeErrorMessage)
  }

  /** `v.key` is a string. */
  predicate StringMember(v: JsonValue, key: string) {
    Member(v, key).Some? && Member(v, key).value.JString?
  }

  /** The reply shapes the sanitiser accepts, stated field by field. */
  predicate WellFormedReply(v: JsonValue) {
    && StringMember(v, "question") && StringMember(v, "correctAnswer") && StringMember(v, "explanation")
    && Member(v, "options").Some? && Member(v, "options").value.JArray?
    && (forall k :: 0 <= k < |v.fields["options"].items| ==> v.fields["options"].items[k].JString?)
    && (TruthyMember(v, "funFact") ==> StringMember(v, "funFact"))
    && (TruthyMember(v, "learnMore") ==> StringMember(v, "learnMore"))
  }

  /**
   * `q` is the `sanitizedQuestion` object built from the well-formed reply
   * `v`: the required strings and every option trimmed (count and order of
   * options kept), and each optional field present, trimmed, exactly when
   * the reply's value is truthy.
   */
  predicate SanitizedFrom(v: JsonValue, q: Question)
    requires WellFormedReply(v)
  {
    && q.question == Trim(v.fields["question"].s)
    && q.correctAnswer == Trim(v.fields["correctAnswer"].s)
    && q.explanation == Trim(v.fields["explanation"].s)
    && |q.options| == |v.fields["options"].items|
    && (forall k :: 0 <= k < |q.options| ==> q.options[k] == Trim(v.fields["options"].items[k].s))
    && (q.funFact.Some? <==> TruthyMember(v, "funFact"))
    && (q.funFact.Some? ==> q.funFact.value == Trim(v.fields["funFact"].s))
    && (q.learnMore.Some? <==> TruthyMember(v, "learnMore"))
    && (q.learnMore.Some? ==> q.learnMore.value == Trim(v.fields["learnMore"].s))
  }

  /**
   * The sanitiser: a well-formed reply becomes the `sanitizedQuestion`
   * object; a reply of any other shape throws.
   */
  function Sanitize(v: JsonValue): (r: Result<Question, string>)
    ensures r.Success? <==> WellFormedReply(v)
    ensures r.Failure? ==> r.error == TypeErrorMessage
    ensures r.Success? ==> SanitizedFrom(v, r.value)
  {
    var question := TrimmedField(v, "question");
    var options := TrimmedOptions(v);
    var correctAnswer := TrimmedField(v, "correctAnswer");
    var explanation := TrimmedField(v, "explanation");
    var funFact := OptionalField(v, "funFact");
    var learnMore := OptionalField(v, "learnMore");
    if question.Failure? || options.Failure? || correctAnswer.Failure?
       || explanation.Failure? || funFact.Failure? || learnMore.Failure?
    then Failure(TypeErrorMessage)
    else Success(Question(question.value, options.value, correctAnswer.value,
                          explanation.value, funFact.value, learnMore.value))
  }

  /** `SanitizedFrom` pins the question down: a well-formed reply sanitises to exactly the question it describes. */
  lemma SanitizeIsSanitizedFrom(v: JsonValue, q: Question)
    requires WellFormedReply(v) && SanitizedFrom(v, q)
    ensures Sanitize(v) == Success(q)
  {
    var r := Sanitize(v).value;
    assert r.options == q.options;
  }

  /** The JSON object a sanitised question is sent as (absent optional fields have no key). */
  function QuestionJson(q: Question): (v: JsonValue)
    ensures v.JObject?
    ensures ("funFact" in v.fields) <==> q.funFact.Some?
    ensures ("learnMore" in v.fields) <==> q.learnMore.Some?
  {
    var required := map[
      "question" := JString(q.question),
      "options" := JArray(seq(|q.options|, k requires 0 <= k < |q.options| => JString(q.options[k]))),
      "correctAnswer" := JString(q.correctAnswer),
      "explanation" := JString(q.explanation)];
    var withFunFact := if q.funFact.Some? then required["funFact" := JString(q.funFact.value)] else required;
    JObject(if q.learnMore.Some? then withFunFact["learnMore" := JString(q.learnMore.value)] else withFunFact)
  }

  /** An optional field equal to "" is falsy, so a second sanitising pass drops it. */
  function DropEmptyOptionals(q: Question): Question {
    q.(funFact := if q.funFact == Some("") then None else q.funFact,
       learnMore := if q.learnMore == Some("") then None else q.learnMore)
  }

  /** A trimmed string option set: every string field of the question is trimmed. */
  predicate AllTrimmed(q: Question) {
    && Trimmed(q.question) && Trimmed(q.correctAnswer) && Trimmed(q.explanation)
    && (forall k :: 0 <= k < |q.options| ==> Trimmed(q.options[k]))
    && (q.funFact.Some? ==> Trimmed(q.funFact.value))
    && (q.learnMore.Some? ==> Trimmed(q.learnMore.value))
  }

  /** Every string field of a sanitised question is trimmed. */
  lemma SanitizedIsTrimmed(v: JsonValue)
    requires Sanitize(v).Success?
    ensures AllTrimmed(Sanitize(v).value)
  {
    var q := Sanitize(v).value;
    TrimIsTrimmedSlice(v.fields["question"].s);
    TrimIsTrimmedSlice(v.fields["correctAnswer"].s);
    TrimIsTrimmedSlice(v.fields["explanation"].s);
    forall k | 0 <= k < |q.options| ensures Trimmed(q.options[k]) {
      TrimIsTrimmedSlice(v.fields["options"].items[k].s);
    }
    if q.funFact.Some? {
      TrimIsTrimmedSlice(v.fields["funFact"].s);
    }
    if q.learnMore.Some? {
      TrimIsTrimmedSlice(v.fields["learnMore"].s);
    }
  }

  /**
   * Sanitising the JSON form of an all-trimmed question gives it back,
   * except that an optional field equal to "" is dropped.
   */
  lemma ResanitizeTrimmed(q: Question)
    requires AllTrimmed(q)
    ensures Sanitize(QuestionJson(q)) == Success(DropEmptyOptionals(q))
  {
    var v := QuestionJson(q);
    TrimOfTrimmed(q.question);
    TrimOfTrimmed(q.correctAnswer);
    TrimOfTrimmed(q.explanation);
    forall k | 0 <= k < |q.options| ensures Trim(q.options[k]) == q.options[k] {
      TrimOfTrimmed(q.options[k]);
    }
    if q.funFact.Some? {
      TrimOfTrimmed(q.funFact.value);
    }
    if q.learnMore.Some? {
      TrimOfTrimmed(q.learnMore.value);
    }
    assert WellFormedReply(v);
    assert SanitizedFrom(v, DropEmptyOptionals(q));
    SanitizeIsSanitizedFrom(v, DropEmptyOptionals(q));
  }

  /**
   * Sanitising is idempotent up to empty optional fields: re-sanitising a
   * sanitised question returns it unchanged, except that an optional field
   * that became "" (a whitespace-only value in the reply) is now dropped.
   */
  lemma ResanitizeIsIdentity(v: JsonValue)
    requires Sanitize(v).Success?
    ensures Sanitize(QuestionJson(Sanitize(v).value)) == Success(DropEmptyOptionals(Sanitize(v).value))
  {
    SanitizedIsTrimmed(v);
    ResanitizeTrimmed(Sanitize(v).value);
  }

  /** A whitespace-only fun fact is truthy, so it is kept, as "". */
  lemma WhitespaceOnlyFunFactBecomesEmpty(v: JsonValue)
    requires Sanitize(v).Success?
    requires "funFact" in v.fields && v.fields["funFact"].JString?
    requires v.fields["funFact"].s != "" && AllWhitespace(v.fields["funFact"].s)
    ensures Sanitize(v).value.funFact == Some("")
  {
    TrimEmptyIff(v.fields["funFact"].s);
  }

  // ---------------------------------------------------------------------
  // The generation pipeline shared by both generate-question handlers

  /** The outcome of the handlers' `try` block: a sanitised question, or the message of what was thrown. */
  datatype Generation = Generated(question: Question) | GenerationFailed(details: string)

  /**
   * The body of the handlers' `try` block: check the credential, read the
   * topic from the request body (`'{}'` when there is none), ask the
   * provider, require non-empty content, parse it and sanitise it.
   */
  function Generate(env: Env, requestBody: Option<string>, parse: Parser, provider: Provider): (g: Generation)
    ensures !KeyConfigured(env.apiKey) ==> g == GenerationFailed(MissingKeyMessage)
    ensures g.Generated? ==> KeyConfigured(env.apiKey)
    ensures KeyConfigured(env.apiKey) && parse(RequestText(requestBody)).Failure? ==>
              g == GenerationFailed(parse(RequestText(requestBody)).error)
    ensures KeyConfigured(env.apiKey) && parse(RequestText(requestBody)).Success?
            && parse(RequestText(requestBody)).value.JNull? ==>
              g == GenerationFailed(TypeErrorMessage)
    ensures KeyConfigured(env.apiKey) && parse(RequestText(requestBody)).Success?
            && !parse(RequestText(requestBody)).value.JNull? ==>
              g == ReplyToGeneration(
                     provider(QuestionRequest(env, Member(parse(RequestText(requestBody)).value, "topic"))),
                     parse)
  {
    if !KeyConfigured(env.apiKey) then GenerationFailed(MissingKeyMessage)
    else
      match parse(RequestText(requestBody))
      case Failure(message) => GenerationFailed(message)
      case Success(request) =>
        // `const { topic } = null` throws.
        if request.JNull? then GenerationFailed(TypeErrorMessage)
        else ReplyToGeneration(provider(QuestionRequest(env, Member(request, "topic"))), parse)
  }

  /** `event.body || '{}'`. */
  function RequestText(requestBody: Option<string>): string {
    if requestBody.None? || requestBody.value == "" then "{}" else requestBody.value
  }

  /** What the handlers make of the provider's answer. */
  function ReplyToGeneration(c: Completion, parse: Parser): (g: Generation)
    ensures c.CallFailed? ==> g == GenerationFailed(c.message)
    ensures c.Completed? && (c.content.None? || c.content.value == "") ==>
              g == GenerationFailed(InvalidApiResponseMessage)
    ensures c.Completed? && c.content.Some? && c.content.value != "" && parse(c.content.value).Failure? ==>
              g == GenerationFailed(InvalidJsonMessage)
    ensures g.Generated? <==>
              c.Completed? && c.content.Some? && c.content.value != ""
              && parse(c.content.value).Success? && Sanitize(parse(c.content.value).value).Success?
    ensures g.Generated? ==> g.question == Sanitize(parse(c.content.value).value).value
  {
    match c
    case CallFailed(message) => GenerationFailed(message)
    case Completed(content) =>
      if content.None? || content.value == "" then GenerationFailed(InvalidApiResponseMessage)
      else match parse(content.value)
        case Failure(_) => GenerationFailed(InvalidJsonMessage)
        case Success(parsed) =>
          match Sanitize(parsed)
          case Failure(message) => GenerationFailed(message)
          case Success(q) => Generated(q)
  }

  /** `{ error: message }`. */
  function ErrorJson(message: string): JsonValue {
    JObject(map["error" := JString(message)])
  }

  /** `{ error: 'Failed to generate question', details }`. */
  function GenerationErrorJson(details: string): JsonValue {
    JObject(map["error" := JString(GenerationFailedMessage), "details" := JString(details)])
  }
}
