/**
 * The Vercel function behind `/api/test-connection`: a GET asks the provider
 * for a fixed short reply and reports whether the reply contains the
 * expected phrase.
 */
module ApiTestConnection {
  import opened Wrappers
  import opened Text
  import opened Json
  import opened Endpoint

  const PreflightHeaders: map<string, string> := map[
    "Access-Control-Allow-Origin" := "*",
    "Access-Control-Allow-Methods" := "GET, OPTIONS",
    "Access-Control-Allow-Headers" := "Content-Type",
    "Access-Control-Max-Age" := "86400"]

  const JsonHeaders: map<string, string> := map[
    "Access-Control-Allow-Origin" := "*",
    "Content-Type" := "application/json"]

  const NoStoreHeaders: map<string, string> := map[
    "Access-Control-Allow-Origin" := "*",
    "Content-Type" := "application/json",
    "Cache-Control" := "no-store"]

  const ConnectionSystemPrompt: string :=
    "You are a connection test assistant. Respond with exactly: Connection successful!"
  const ConnectionUserPrompt: string := "Test the connection"
  const ExpectedPhrase: string := "Connection successful"
  const UnexpectedResponseMessage: string := "Unexpected response from AI service"
  const ConnectionFailedMessage: string := "Connection test failed"

  /** The request of the connection test: a fixed prompt and at most 10 tokens. */
  function ConnectionRequest(env: Env): (r: ProviderRequest)
    requires KeyConfigured(env.apiKey)
    ensures r.baseUrl == ProviderBaseUrl
    ensures r.referer == EnvOr(env.siteUrl, "https://bamquiz.com") && r.title == EnvOr(env.siteName, "bamquiz")
    ensures r.apiKey == Trim(env.apiKey.value) && r.userPrompt == Literal(ConnectionUserPrompt)
    ensures r.systemPrompt == ConnectionSystemPrompt && r.model == ProviderModel
    ensures r.maxTokens == 10 && r.temperature == 0.3 && r.topP == 0.9
  {
    ProviderRequest(ProviderBaseUrl, Trim(env.apiKey.value), Referer(env), Title(env),
                    ProviderModel, ConnectionSystemPrompt, Literal(ConnectionUserPrompt), 0.3, 10, 0.9)
  }

  /** The outcome of the `try` block: the provider's reply, or the message of what was thrown. */
  function Probe(env: Env, provider: Provider): (r: Result<string, string>)
    ensures !KeyConfigured(env.apiKey) ==> r == Failure(MissingKeyMessage)
    ensures r.Success? <==>
              && KeyConfigured(env.apiKey)
              && provider(ConnectionRequest(env)).Completed?
              && provider(ConnectionRequest(env)).content.Some?
              && Includes(provider(ConnectionRequest(env)).content.value, ExpectedPhrase)
    ensures r.Success? ==> r.value == provider(ConnectionRequest(env)).content.value
    ensures r.Success? ==> exists i :: 0 <= i <= |r.value| && StartsWith(r.value[i..], ExpectedPhrase)
    ensures KeyConfigured(env.apiKey) && provider(ConnectionRequest(env)).CallFailed? ==>
              r == Failure(provider(ConnectionRequest(env)).message)
    ensures KeyConfigured(env.apiKey) && provider(ConnectionRequest(env)).Completed?
            && !(provider(ConnectionRequest(env)).content.Some?
                 && Includes(provider(ConnectionRequest(env)).content.value, ExpectedPhrase)) ==>
              r == Failure(UnexpectedResponseMessage)
  {
    if !KeyConfigured(env.apiKey) then Failure(MissingKeyMessage)
    else
      match provider(ConnectionRequest(env))
      case CallFailed(message) => Failure(message)
      case Completed(content) =>
        // `!content` covers both a missing and an empty reply; "" contains no phrase.
        if content.None? || content.value == "" || !Includes(content.value, ExpectedPhrase)
        then Failure(UnexpectedResponseMessage)
        else Success(content.value)
  }

  /** `error.message || 'Connection test failed'`. */
  function FailureMessage(message: string): (m: string)
    ensures m != ""
    ensures message != "" ==> m == message
    ensures message == "" ==> m == ConnectionFailedMessage
  {
    if message == "" then ConnectionFailedMessage else message
  }

  function Handler(event: Event, env: Env, provider: Provider): (r: Response)
    ensures r.statusCode == 204 <==> event.httpMethod == "OPTIONS"
    ensures r.statusCode == 204 ==> r.headers == PreflightHeaders && r.body == NoBody
    ensures r.statusCode == 405 <==> event.httpMethod != "OPTIONS" && event.httpMethod != "GET"
    ensures r.statusCode == 405 ==>
              r.headers == JsonHeaders && r.body == JsonBody(ErrorJson(MethodNotAllowedMessage))
    ensures event.httpMethod == "GET" ==> r.statusCode == 200 || r.statusCode == 500
    ensures r.statusCode == 200 || r.statusCode == 500 ==> r.headers == NoStoreHeaders
    ensures r.statusCode == 200 <==> event.httpMethod == "GET" && Probe(env, provider).Success?
    ensures r.statusCode == 200 ==>
              r.body == JsonBody(JObject(map["success" := JBool(true),
                                             "message" := JString(Probe(env, provider).value)]))
    ensures r.statusCode == 500 ==>
              r.body == JsonBody(JObject(map["success" := JBool(false),
                                             "error" := JString(FailureMessage(Probe(env, provider).error))]))
  {
    if event.httpMethod == "OPTIONS" then
      Response(204, PreflightHeaders, NoBody)
    else if event.httpMethod != "GET" then
      Response(405, JsonHeaders, JsonBody(ErrorJson(MethodNotAllowedMessage)))
    else
      match Probe(env, provider)
      case Success(content) =>
        Response(200, NoStoreHeaders,
                 JsonBody(JObject(map["success" := JBool(true), "message" := JString(content)])))
      case Failure(message) =>
        Response(500, NoStoreHeaders,
                 JsonBody(JObject(map["success" := JBool(false), "error" := JString(FailureMessage(message))])))
  }

  /** A 500 answer always names a non-empty error. */
  lemma FailureAlwaysExplained(event: Event, env: Env, provider: Provider)
    requires Handler(event, env, provider).statusCode == 500
    ensures Probe(env, provider).Failure? && FailureMessage(Probe(env, provider).error) != ""
  {
  }

  /** The reply the prompt asks for passes the test and is echoed back. */
  lemma ExpectedReplyPasses(env: Env, provider: Provider)
    requires KeyConfigured(env.apiKey)
    requires provider(ConnectionRequest(env)) == Completed(Some("Connection successful!"))
    ensures Handler(Event("GET", None), env, provider)
            == Response(200, NoStoreHeaders, JsonBody(JObject(map[
                 "success" := JBool(true), "message" := JString("Connection successful!")])))
  {
    var reply := "Connection successful!";
    assert reply[..|ExpectedPhrase|] == ExpectedPhrase;
    assert StartsWith(reply[0..], ExpectedPhrase);
  }
}
