/**
 * The Netlify function behind `/api/generate-question`: method gating, then
 * the shared generation pipeline. Every response, whatever its status,
 * carries the same CORS headers.
 */
module NetlifyGenerateQuestion {
  import opened Wrappers
  import opened Text
  import opened Json
  import opened Quiz
  import opened Endpoint

  const CorsHeaders: map<string, string> := map[
    "Access-Control-Allow-Origin" := "*",
    "Access-Control-Allow-Methods" := "POST, OPTIONS",
    "Access-Control-Allow-Headers" := "Content-Type"]

  function Handler(event: Event, env: Env, parse: Parser, provider: Provider): (r: Response)
    ensures r.headers == CorsHeaders
    ensures r.statusCode == 204 <==> event.httpMethod == "OPTIONS"
    ensures r.statusCode == 204 ==> r.body == Text("")
    ensures r.statusCode == 405 <==> event.httpMethod != "OPTIONS" && event.httpMethod != "POST"
    ensures r.statusCode == 405 ==> r.body == JsonBody(ErrorJson(MethodNotAllowedMessage))
    ensures event.httpMethod == "POST" ==> r.statusCode == 200 || r.statusCode == 500
    ensures r.statusCode == 200 ==>
              && Generate(env, event.body, parse, provider).Generated?
              && r.body == JsonBody(QuestionJson(Generate(env, event.body, parse, provider).question))
    ensures r.statusCode == 500 ==>
              && Generate(env, event.body, parse, provider).GenerationFailed?
              && r.body == JsonBody(GenerationErrorJson(Generate(env, event.body, parse, provider).details))
  {
    if event.httpMethod == "OPTIONS" then
      Response(204, CorsHeaders, Text(""))
    else if event.httpMethod != "POST" then
      Response(405, CorsHeaders, JsonBody(ErrorJson(MethodNotAllowedMessage)))
    else
      match Generate(env, event.body, parse, provider)
      case Generated(q) => Response(200, CorsHeaders, JsonBody(QuestionJson(q)))
      case GenerationFailed(details) => Response(500, CorsHeaders, JsonBody(GenerationErrorJson(details)))
  }

  /** A POST with no usable credential fails before the provider is asked. */
  lemma MissingKeyFails(event: Event, env: Env, parse: Parser, provider: Provider)
    requires event.httpMethod == "POST" && !KeyConfigured(env.apiKey)
    ensures Handler(event, env, parse, provider)
            == Response(500, CorsHeaders, JsonBody(GenerationErrorJson(MissingKeyMessage)))
  {
  }

  /** `s` with one space on each side. */
  function Pad(s: string): string {
    [' '] + s + [' ']
  }

  /** A provider reply carrying the required fields of `q`, each padded with spaces, and no optional fields. */
  function PaddedReply(q: Question): JsonValue {
    JObject(map[
      "question" := JString(Pad(q.question)),
      "options" := JArray(seq(|q.options|, k requires 0 <= k < |q.options| => JString(Pad(q.options[k])))),
      "correctAnswer" := JString(Pad(q.correctAnswer)),
      "explanation" := JString(Pad(q.explanation))])
  }

  /** Sanitising strips the padding again: a question of non-empty trimmed strings comes back unchanged. */
  lemma SanitizeRemovesPadding(q: Question)
    requires q.question != [] && Trimmed(q.question)
    requires q.correctAnswer != [] && Trimmed(q.correctAnswer)
    requires q.explanation != [] && Trimmed(q.explanation)
    requires forall k :: 0 <= k < |q.options| ==> q.options[k] != [] && Trimmed(q.options[k])
    requires q.funFact == None && q.learnMore == None
    ensures Sanitize(PaddedReply(q)) == Success(q)
  {
    var v := PaddedReply(q);
    TrimSpacePadded(q.question);
    TrimSpacePadded(q.correctAnswer);
    TrimSpacePadded(q.explanation);
    forall k | 0 <= k < |q.options| ensures Trim(Pad(q.options[k])) == q.options[k] {
      TrimSpacePadded(q.options[k]);
    }
    assert WellFormedReply(v);
    SanitizeIsSanitizedFrom(v, q);
  }

  const ScenarioQuestion: Question := Question("Who?", ["A", "B"], "A", "E", None, None)

  const ScenarioReply: JsonValue := JObject(map[
    "question" := JString(" Who? "),
    "options" := JArray([JString(" A "), JString(" B ")]),
    "correctAnswer" := JString(" A "),
    "explanation" := JString(" E ")])

  const ScenarioAnswer: JsonValue := JObject(map[
    "question" := JString("Who?"),
    "options" := JArray([JString("A"), JString("B")]),
    "correctAnswer" := JString("A"),
    "explanation" := JString("E")])

  lemma ScenarioReplyIsPadded()
    ensures PaddedReply(ScenarioQuestion) == ScenarioReply
    ensures Sanitize(ScenarioReply) == Success(ScenarioQuestion)
  {
    var q := ScenarioQuestion;
    assert Pad("Who?") == " Who? " && Pad("A") == " A " && Pad("B") == " B " && Pad("E") == " E ";
    assert PaddedReply(q).fields["options"].items == [JString(" A "), JString(" B ")];
    SanitizeRemovesPadding(q);
  }

  lemma ScenarioAnswerIsQuestionJson()
    ensures QuestionJson(ScenarioQuestion) == ScenarioAnswer
  {
    assert QuestionJson(ScenarioQuestion).fields["options"].items == [JString("A"), JString("B")];
  }

  /**
   * A round trip with a padded reply: a POST about "Ancient Rome" whose provider
   * reply has whitespace-padded fields and no optional fields is answered
   * with 200 and the trimmed question, without `funFact`/`learnMore` keys.
   * The reply's answer key is taken to be `correctAnswer` exactly; a key
   * with a leading space would leave `correctAnswer` undefined and the
   * handler would answer 500 with a `TypeError`.
   */
  lemma AncientRomeScenario(env: Env, parse: Parser, provider: Provider, requestText: string, content: string)
    requires KeyConfigured(env.apiKey)
    requires requestText != "" && parse(requestText) == Success(JObject(map["topic" := JString("Ancient Rome")]))
    requires provider(QuestionRequest(env, Some(JString("Ancient Rome")))) == Completed(Some(content))
    requires content != "" && parse(content) == Success(ScenarioReply)
    ensures Handler(Event("POST", Some(requestText)), env, parse, provider)
            == Response(200, CorsHeaders, JsonBody(ScenarioAnswer))
  {
    ScenarioReplyIsPadded();
    ScenarioAnswerIsQuestionJson();
    assert Generate(env, Some(requestText), parse, provider) == Generated(ScenarioQuestion);
  }
}
