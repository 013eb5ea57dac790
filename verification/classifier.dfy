/**
 * The classifier-reply handling of the triage processor: after the chat-completion call
 * returns, the reply content is checked for presence, parsed as JSON, checked for the two
 * required fields, its urgency level repaired, its optional fields defaulted; any error
 * thrown on the way is turned into one of four user-facing messages.
 *
 * The completion call and `JSON.parse` are parameters: `Completion` is what the call
 * produced, and `parse` maps reply text to a JSON value or to a SyntaxError message.
 */
module Classifier {
  import opened Wrappers
  import opened Json
  import Text
  import Triage

  /** A thrown JavaScript error: its `name` (constructor) and its `message`. */
  datatype JsError = JsError(name: string, message: string)

  /**
   * The outcome of the chat-completion call: it threw, or it returned and the first
   * choice's message content is `content` (None when there is no choice or no content).
   */
  datatype Completion = CallFailed(error: JsError) | Replied(content: Option<string>)

  /** The normalised classification handed to the route. Fields other than the level are passed through as JSON. */
  datatype TriageResult = TriageResult(
    structuredData: Json,
    urgencyLevel: Triage.UrgencyLevel,
    redFlags: Json,
    aiSummary: Json,
    rationale: Json,
    recommendedAction: Json)

  const EmptyResponse: string := "Empty response from LLaMA"
  const InvalidStructure: string := "Invalid response structure from LLaMA"
  const NullReplyAccess: string := "Cannot read properties of null (reading 'urgencyLevel')"
  const DefaultRationale: string := "No rationale provided"
  const DefaultAction: string := "Please consult with a healthcare provider"

  const ApiKeyMessage: string := "Groq API key is invalid or missing"
  const RateLimitMessage: string := "API rate limit exceeded. Please try again in a moment."
  const ParseFailureMessage: string := "Failed to parse AI response. Please try again."
  const FailurePrefix: string := "Triage processing failed: "

  /** The level a reply's truthy `urgencyLevel` becomes: itself when it names a level, CLINIC_VISIT otherwise. */
  function CoerceLevel(v: Json): (u: Triage.UrgencyLevel)
    ensures v.JString? && Triage.IsValidUrgencyLevel(v.s) ==> JString(Triage.Name(u)) == v
    ensures !(v.JString? && Triage.IsValidUrgencyLevel(v.s)) ==> u == Triage.ClinicVisit
  {
    match v
    case JString(s) => Triage.ParseLevel(s).GetOr(Triage.ClinicVisit)
    case _ => Triage.ClinicVisit
  }

  /**
   * Validation and normalisation of the parsed reply. Reading a field of `null` throws a
   * TypeError; any other non-object reply has no such field and fails the structure check.
   */
  function Normalise(reply: Json): (r: Result<TriageResult, JsError>)
    ensures r.Ok? <==> reply.JObject?
                       && Present(Field(reply.fields, "urgencyLevel"))
                       && Present(Field(reply.fields, "aiSummary"))
    ensures r.Ok? ==> r.value.aiSummary == reply.fields["aiSummary"] && Truthy(r.value.aiSummary)
    ensures r.Ok? ==> r.value.urgencyLevel == CoerceLevel(reply.fields["urgencyLevel"])
    ensures r.Ok? ==> Truthy(r.value.structuredData) && Truthy(r.value.redFlags)
                      && Truthy(r.value.rationale) && Truthy(r.value.recommendedAction)
    ensures r.Ok? ==> r.value.structuredData == OrElse(Field(reply.fields, "structuredData"), JObject(map[]))
                      && r.value.redFlags == OrElse(Field(reply.fields, "redFlags"), JArray([]))
                      && r.value.rationale == OrElse(Field(reply.fields, "rationale"), JString(DefaultRationale))
                      && r.value.recommendedAction == OrElse(Field(reply.fields, "recommendedAction"), JString(DefaultAction))
    ensures reply == JNull ==> r == Err(JsError("TypeError", NullReplyAccess))
    ensures r.Err? && reply != JNull ==> r.error == JsError("Error", InvalidStructure)
  {
    match reply
    case JNull => Err(JsError("TypeError", NullReplyAccess))
    case JObject(o) =>
      var level := Field(o, "urgencyLevel");
      var summary := Field(o, "aiSummary");
      if !Present(level) || !Present(summary) then
        Err(JsError("Error", InvalidStructure))
      else
        Ok(TriageResult(
          OrElse(Field(o, "structuredData"), JObject(map[])),
          CoerceLevel(level.value),
          OrElse(Field(o, "redFlags"), JArray([])),
          summary.value,
          OrElse(Field(o, "rationale"), JString(DefaultRationale)),
          OrElse(Field(o, "recommendedAction"), JString(DefaultAction))))
    case _ => Err(JsError("Error", InvalidStructure))
  }

  /** The body of the processor's `try` block, from the completion outcome to the normalised result or the thrown error. */
  function Interpret(c: Completion, parse: string -> Result<Json, string>): (r: Result<TriageResult, JsError>)
    ensures c.CallFailed? ==> r == Err(c.error)
    ensures c.Replied? && (c.content.None? || c.content.value == "") ==> r == Err(JsError("Error", EmptyResponse))
    ensures (c.Replied? && c.content.Some? && c.content.value != "" && parse(c.content.value).Err?)
              ==> r == Err(JsError("SyntaxError", parse(c.content.value).error))
    ensures (c.Replied? && c.content.Some? && c.content.value != "" && parse(c.content.value).Ok?)
              ==> r == Normalise(parse(c.content.value).value)
    ensures r.Ok? ==> c.Replied? && c.content.Some? && parse(c.content.value).Ok?
                      && Normalise(parse(c.content.value).value) == r
  {
    match c
    case CallFailed(e) => Err(e)
    case Replied(content) =>
      if content.None? || content.value == "" then
        Err(JsError("Error", EmptyResponse))
      else
        match parse(content.value)
        case Err(msg) => Err(JsError("SyntaxError", msg))
        case Ok(v) => Normalise(v)
  }

  /** The message the processor re-throws for a caught error. */
  function UserMessage(e: JsError): (m: string)
    ensures m != ""
    ensures Text.Includes(e.message, "API key") ==> m == ApiKeyMessage
    ensures !Text.Includes(e.message, "API key") && Text.Includes(e.message, "rate limit") ==> m == RateLimitMessage
    ensures (!Text.Includes(e.message, "API key") && !Text.Includes(e.message, "rate limit")
             && e.name == "SyntaxError") ==> m == ParseFailureMessage
    ensures (!Text.Includes(e.message, "API key") && !Text.Includes(e.message, "rate limit")
             && e.name != "SyntaxError") ==> m == FailurePrefix + e.message
  {
    if Text.Includes(e.message, "API key") then ApiKeyMessage
    else if Text.Includes(e.message, "rate limit") then RateLimitMessage
    else if e.name == "SyntaxError" then ParseFailureMessage
    else FailurePrefix + e.message
  }

  /** `processTriageWithLLaMA` after the call: the normalised result, or the user-facing message of what went wrong. */
  function ProcessTriage(c: Completion, parse: string -> Result<Json, string>): (r: Result<TriageResult, string>)
    ensures r.Ok? <==> Interpret(c, parse).Ok?
    ensures r.Ok? ==> r.value == Interpret(c, parse).value
    ensures r.Err? ==> r.error == UserMessage(Interpret(c, parse).error)
  {
    match Interpret(c, parse)
    case Ok(v) => Ok(v)
    case Err(e) => Err(UserMessage(e))
  }

  // ---- properties ----

  /** An absent or empty reply fails with the fixed empty-response message. */
  lemma EmptyReplyFails(content: Option<string>, parse: string -> Result<Json, string>)
    requires content.None? || content.value == ""
    ensures ProcessTriage(Replied(content), parse) == Err(FailurePrefix + EmptyResponse)
  {
    var e := JsError("Error", EmptyResponse);
    assert Interpret(Replied(content), parse) == Err(e);
    EmptyResponseMessage();
    assert UserMessage(e) == FailurePrefix + EmptyResponse;
  }

  /** The empty-response error is reported with the generic prefix. */
  lemma EmptyResponseMessage()
    ensures !Text.Includes(EmptyResponse, "API key") && !Text.Includes(EmptyResponse, "rate limit")
  {
    Text.NoOpeningPair(EmptyResponse, "API key");
    Text.NoOpeningPair(EmptyResponse, "rate limit");
  }

  /** A parsed reply whose `urgencyLevel` or `aiSummary` is falsy never yields a result. */
  lemma FalsyRequiredFieldFails(o: map<string, Json>)
    requires !Present(Field(o, "urgencyLevel")) || !Present(Field(o, "aiSummary"))
    ensures Normalise(JObject(o)).Err?
  {
  }

  /** A truthy urgency outside the four names becomes CLINIC_VISIT; a valid one is kept. */
  lemma LevelRepair(o: map<string, Json>)
    requires Present(Field(o, "urgencyLevel")) && Present(Field(o, "aiSummary"))
    ensures Normalise(JObject(o)).Ok?
    ensures (o["urgencyLevel"].JString? && Triage.IsValidUrgencyLevel(o["urgencyLevel"].s))
              ==> Triage.Name(Normalise(JObject(o)).value.urgencyLevel) == o["urgencyLevel"].s
    ensures (!(o["urgencyLevel"].JString? && Triage.IsValidUrgencyLevel(o["urgencyLevel"].s)))
              ==> Normalise(JObject(o)).value.urgencyLevel == Triage.ClinicVisit
  {
  }

  /** The error messages are checked in order: the key message wins over rate limit and parse failure. */
  lemma ErrorPrecedence(message: string)
    requires Text.Includes(message, "API key")
    ensures UserMessage(JsError("SyntaxError", message)) == ApiKeyMessage
    ensures UserMessage(JsError("Error", message)) == ApiKeyMessage
  {
  }

  /** A reply text that does not parse gives the parse-failure message unless the parser's message names a key or a rate limit. */
  lemma SyntaxErrorMessage(text: string, parse: string -> Result<Json, string>)
    requires text != "" && parse(text).Err?
    requires !Text.Includes(parse(text).error, "API key") && !Text.Includes(parse(text).error, "rate limit")
    ensures ProcessTriage(Replied(Some(text)), parse) == Err(ParseFailureMessage)
  {
  }
}
