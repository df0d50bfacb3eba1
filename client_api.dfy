/**
 * The browser-side API client: `handleResponse` turns a fetched response
 * into either `{ data }` or `{ error }`, and `generateQuestion` posts the
 * question request and turns a rejected fetch into an error as well.
 *
 * The network is a parameter (`Fetch`); reading the body is an outcome
 * recorded in the response; `JSON.parse`/`JSON.stringify` are parameters.
 */
module ClientApi {
  import opened Wrappers
  import opened Text
  import opened Json
  import Endpoint

  /** A value thrown by a rejected promise: an `Error` with its message, or anything else. */
  datatype Thrown = ErrorObject(message: string) | NonError

  /** Reading the body as text: its contents, or what the read threw. */
  datatype BodyRead = Readable(text: string) | ReadFailed(thrown: Thrown)

  /** The parts of a fetch `Response` the client reads. */
  datatype HttpResponse = HttpResponse(
    ok: bool,
    status: nat,
    statusText: string,
    contentType: Option<string>,
    body: BodyRead)

  /** `APIError`: the `error` and `details` members, as the values they were read from. */
  datatype ApiError = ApiError(error: JsonValue, details: JsonValue)

  /** `APIResponse`: exactly one of `data` and `error` is set. */
  datatype ApiResponse = Data(data: JsonValue) | Error(apiError: ApiError)

  const JsonContentType: string := "application/json"
  const StatusMessagePrefix: string := "API request failed with status "
  const ParseFailedMessage: string := "Failed to parse response"
  const GenerateFailedMessage: string := "Failed to generate question"

  /** `contentType?.includes('application/json')`: a missing header is not JSON. */
  predicate IsJson(contentType: Option<string>) {
    contentType.Some? && Includes(contentType.value, JsonContentType)
  }

  /** `` `API request failed with status ${status}` ``. */
  function StatusMessage(status: nat): (m: string)
    ensures StartsWith(m, StatusMessagePrefix)
    ensures |m| > |StatusMessagePrefix|
  {
    StatusMessagePrefix + NatToString(status)
  }

  /** The status can be read back from the default message: distinct statuses give distinct messages. */
  lemma StatusMessageNamesStatus(status: nat)
    ensures var digits := StatusMessage(status)[|StatusMessagePrefix|..];
            (forall k :: 0 <= k < |digits| ==> '0' <= digits[k] <= '9') && DigitsValue(digits) == status
  {
    assert StatusMessage(status)[|StatusMessagePrefix|..] == NatToString(status);
    NatToStringRoundTrip(status);
  }

  /** `e instanceof Error ? e.message : fallback`. */
  function ThrownMessage(t: Thrown, fallback: string): (m: string)
    ensures t.ErrorObject? ==> m == t.message
    ensures t.NonError? ==> m == fallback
  {
    if t.ErrorObject? then t.message else fallback
  }

  /** The error of a non-ok response before its body is looked at. */
  function DefaultError(r: HttpResponse): ApiError {
    ApiError(JString(StatusMessage(r.status)), JString(r.statusText))
  }

  /**
   * The error a non-ok response is reported with: the body's `error` and
   * `details` members when it is JSON and they are truthy, the default
   * message and the stringified body otherwise; a non-JSON body becomes the
   * details; a body that cannot be read or parsed, or that is `null` (whose
   * members cannot be read), leaves the default in place.
   */
  function ErrorFromBody(r: HttpResponse, parse: Parser, stringify: Stringifier): (e: ApiError)
    ensures r.body.ReadFailed? ==> e == DefaultError(r)
    ensures r.body.Readable? && !IsJson(r.contentType) ==>
              e == ApiError(JString(StatusMessage(r.status)), JString(r.body.text))
    ensures r.body.Readable? && IsJson(r.contentType) && parse(r.body.text).Failure? ==> e == DefaultError(r)
    ensures r.body.Readable? && IsJson(r.contentType) && parse(r.body.text) == Success(JNull) ==> e == DefaultError(r)
    ensures r.body.Readable? && IsJson(r.contentType) && parse(r.body.text).Success?
            && !parse(r.body.text).value.JNull? ==>
              var errorData := parse(r.body.text).value;
              && (TruthyMember(errorData, "error") ==> e.error == errorData.fields["error"])
              && (!TruthyMember(errorData, "error") ==> e.error == JString(StatusMessage(r.status)))
              && (TruthyMember(errorData, "details") ==> e.details == errorData.fields["details"])
              && (!TruthyMember(errorData, "details") ==> e.details == JString(stringify(errorData)))
  {
    match r.body
    case ReadFailed(_) => DefaultError(r)
    case Readable(text) =>
      if !IsJson(r.contentType) then ApiError(DefaultError(r).error, JString(text))
      else
        match parse(text)
        case Failure(_) => DefaultError(r)
        case Success(errorData) =>
          if errorData.JNull? then DefaultError(r)
          else
            ApiError(
              if TruthyMember(errorData, "error") then errorData.fields["error"] else DefaultError(r).error,
              if TruthyMember(errorData, "details") then errorData.fields["details"] else JString(stringify(errorData)))
  }

  /** `handleResponse`. */
  function HandleResponse(r: HttpResponse, parse: Parser, stringify: Stringifier): (a: ApiResponse)
    ensures !r.ok ==> a == Error(ErrorFromBody(r, parse, stringify))
    ensures r.ok && r.body.ReadFailed? ==>
              a == Error(ApiError(JString(ParseFailedMessage), JString(ThrownMessage(r.body.thrown, "Unknown error"))))
    ensures r.ok && r.body.Readable? && IsJson(r.contentType) ==>
              (a.Data? <==> parse(r.body.text).Success?)
              && (a.Data? ==> a.data == parse(r.body.text).value)
              && (a.Error? ==> a == Error(ApiError(JString(ParseFailedMessage), JString(parse(r.body.text).error))))
    ensures r.ok && r.body.Readable? && !IsJson(r.contentType) ==> a == Data(JString(r.body.text))
  {
    if !r.ok then Error(ErrorFromBody(r, parse, stringify))
    else
      match r.body
      case ReadFailed(thrown) =>
        Error(ApiError(JString(ParseFailedMessage), JString(ThrownMessage(thrown, "Unknown error"))))
      case Readable(text) =>
        if !IsJson(r.contentType) then Data(JString(text))
        else
          match parse(text)
          case Failure(message) => Error(ApiError(JString(ParseFailedMessage), JString(message)))
          case Success(data) => Data(data)
  }

  /** A failed status is never reported as data, and its message is truthy. */
  lemma NonOkIsAlwaysError(r: HttpResponse, parse: Parser, stringify: Stringifier)
    requires !r.ok
    ensures HandleResponse(r, parse, stringify).Error?
    ensures Truthy(HandleResponse(r, parse, stringify).apiError.error)
  {
    var e := ErrorFromBody(r, parse, stringify);
    assert StartsWith(StatusMessage(r.status), StatusMessagePrefix);
    if r.body.Readable? && IsJson(r.contentType) && parse(r.body.text).Success?
       && !parse(r.body.text).value.JNull? && TruthyMember(parse(r.body.text).value, "error") {
      assert Truthy(e.error);
    } else {
      assert e.error == JString(StatusMessage(r.status));
    }
  }

  /** An ok response yields data exactly when its body could be read and, if it claims to be JSON, parsed. */
  lemma OkDataIff(r: HttpResponse, parse: Parser, stringify: Stringifier)
    requires r.ok
    ensures HandleResponse(r, parse, stringify).Data? <==>
              r.body.Readable? && (IsJson(r.contentType) ==> parse(r.body.text).Success?)
  {
  }

  // ---------------------------------------------------------------------
  // generateQuestion

  const GenerateUrl: string := "/api/generate-question"

  /** The request `generateQuestion` sends; the body is sent as `JSON.stringify(body)`. */
  datatype Request = Request(url: string, httpMethod: string, headers: map<string, string>, body: JsonValue)

  /** What `fetch` settles to: a response, or a rejection with what it threw. */
  datatype FetchOutcome = Responded(response: HttpResponse) | Rejected(thrown: Thrown)

  type Fetch = Request -> FetchOutcome

  const UserPromptPrefix: string := "Generate a history quiz question about "

  function UserPrompt(topic: string): string {
    UserPromptPrefix + topic + "."
  }

  /** The prompt sent along with the request names the topic. */
  lemma UserPromptMentionsTopic(topic: string)
    ensures Includes(UserPrompt(topic), topic)
  {
    var p := UserPrompt(topic);
    assert p[|UserPromptPrefix|..][..|topic|] == topic;
    assert StartsWith(p[|UserPromptPrefix|..], topic);
  }

  /** The JSON body: the topic, the prompts already asked (`[]` when not given) and the two prompts. */
  function RequestBody(topic: string, previousQuestions: Option<seq<string>>): (v: JsonValue)
    ensures v.JObject? && Member(v, "topic") == Some(JString(topic))
    ensures previousQuestions.None? ==> Member(v, "previousQuestions") == Some(JArray([]))
    ensures previousQuestions.Some? ==>
              && Member(v, "previousQuestions").Some? && Member(v, "previousQuestions").value.JArray?
              && |Member(v, "previousQuestions").value.items| == |previousQuestions.value|
              && forall k :: 0 <= k < |previousQuestions.value| ==>
                   Member(v, "previousQuestions").value.items[k] == JString(previousQuestions.value[k])
  {
    var previous := if previousQuestions.Some? then previousQuestions.value else [];
    JObject(map[
      "topic" := JString(topic),
      "previousQuestions" := JArray(seq(|previous|, k requires 0 <= k < |previous| => JString(previous[k]))),
      "systemPrompt" := JString(Endpoint.QuestionSystemPrompt),
      "userPrompt" := JString(UserPrompt(topic))])
  }

  function GenerateRequest(topic: string, previousQuestions: Option<seq<string>>): Request {
    Request(GenerateUrl, "POST",
            map["Content-Type" := JsonContentType, "Accept" := JsonContentType],
            RequestBody(topic, previousQuestions))
  }

  /** `generateQuestion`: `handleResponse` of the response, or an error when the fetch itself rejects. */
  function GenerateQuestion(topic: string, previousQuestions: Option<seq<string>>,
                            fetch: Fetch, parse: Parser, stringify: Stringifier): (a: ApiResponse)
    ensures fetch(GenerateRequest(topic, previousQuestions)).Rejected? ==>
              a == Error(ApiError(JString(GenerateFailedMessage),
                                  JString(ThrownMessage(fetch(GenerateRequest(topic, previousQuestions)).thrown,
                                                        "Unknown error occurred"))))
    ensures fetch(GenerateRequest(topic, previousQuestions)).Responded? ==>
              a == HandleResponse(fetch(GenerateRequest(topic, previousQuestions)).response, parse, stringify)
  {
    match fetch(GenerateRequest(topic, previousQuestions))
    case Rejected(thrown) =>
      Error(ApiError(JString(GenerateFailedMessage), JString(ThrownMessage(thrown, "Unknown error occurred"))))
    case Responded(response) => HandleResponse(response, parse, stringify)
  }

  /**
   * Client and server agree on the topic: when the server's `JSON.parse`
   * reads back what the client's `JSON.stringify` wrote, the provider is
   * asked about exactly the topic the client sent.
   */
  lemma TopicReachesProvider(topic: string, previousQuestions: Option<seq<string>>,
                             env: Endpoint.Env, parse: Parser, stringify: Stringifier, provider: Endpoint.Provider)
    requires Endpoint.KeyConfigured(env.apiKey)
    requires stringify(RequestBody(topic, previousQuestions)) != ""
    requires parse(stringify(RequestBody(topic, previousQuestions))) == Success(RequestBody(topic, previousQuestions))
    ensures Endpoint.Generate(env, Some(stringify(RequestBody(topic, previousQuestions))), parse, provider)
            == Endpoint.ReplyToGeneration(
                 provider(Endpoint.QuestionRequest(env, Some(JString(topic)))), parse)
  {
    var text := stringify(RequestBody(topic, previousQuestions));
    assert Endpoint.RequestText(Some(text)) == text;
  }
}
