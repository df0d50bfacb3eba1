/**
 * The Vercel function behind `/api/generate-question`: the same method
 * gating and generation pipeline as the Netlify function, but the preflight
 * answer has no body and a `Max-Age`, and the other answers carry a
 * JSON content type instead of the method list.
 */
module ApiGenerateQuestion {
  import opened Wrappers
  import opened Json
  import opened Quiz
  import opened Endpoint

  const PreflightHeaders: map<string, string> := map[
    "Access-Control-Allow-Origin" := "*",
    "Access-Control-Allow-Methods" := "POST, OPTIONS",
    "Access-Control-Allow-Headers" := "Content-Type",
    "Access-Control-Max-Age" := "86400"]

  const JsonHeaders: map<string, string> := map[
    "Access-Control-Allow-Origin" := "*",
    "Content-Type" := "application/json"]

  function Handler(event: Event, env: Env, parse: Parser, provider: Provider): (r: Response)
    ensures r.statusCode == 204 <==> event.httpMethod == "OPTIONS"
    ensures r.statusCode == 204 ==> r.headers == PreflightHeaders && r.body == NoBody
    ensures r.statusCode != 204 ==> r.headers == JsonHeaders && r.body.JsonBody?
    ensures r.statusCode == 405 <==> event.httpMethod != "OPTIONS" && event.httpMethod != "POST"
    ensures r.statusCode == 405 ==> r.body == JsonBody(ErrorJson(MethodNotAllowedMessage))
    ensures event.httpMethod == "POST" ==> r.statusCode == 200 || r.statusCode == 500
    ensures r.statusCode == 200 ==>
              && Generate(env, event.body, parse, provider).Generated?
              && r.body == JsonBody(QuestionJson(Generate(env, event.body, parse, provider).question))
    ensures r.statusCode == 500 ==>
              && Generate(env, event.body, parse, provider).GenerationFailed?
              && r.body == JsonBody(GenerationErrorJson(Generate(env, event.body, parse, provider).details))
  {
    if event.httpMethod == "OPTIONS" then
      Response(204, PreflightHeaders, NoBody)
    else if event.httpMethod != "POST" then
      Response(405, JsonHeaders, JsonBody(ErrorJson(MethodNotAllowedMessage)))
    else
      match Generate(env, event.body, parse, provider)
      case Generated(q) => Response(200, JsonHeaders, JsonBody(QuestionJson(q)))
      case GenerationFailed(details) => Response(500, JsonHeaders, JsonBody(GenerationErrorJson(details)))
  }

  /**
   * A successful answer comes from a POST with a configured key, and is a
   * question every string of which is trimmed.
   */
  lemma SuccessIsSanitized(event: Event, env: Env, parse: Parser, provider: Provider)
    requires Handler(event, env, parse, provider).statusCode == 200
    ensures event.httpMethod == "POST" && KeyConfigured(env.apiKey)
    ensures AllTrimmed(Generate(env, event.body, parse, provider).question)
  {
    var g := Generate(env, event.body, parse, provider);
    var request := parse(RequestText(event.body));
    assert request.Success? && !request.value.JNull?;
    var c := provider(QuestionRequest(env, Member(request.value, "topic")));
    SanitizedIsTrimmed(parse(c.content.value).value);
  }
}
