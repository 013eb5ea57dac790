/**
 * The triage submission endpoint as a store transformer: authenticate, validate the body,
 * trim the description, classify it, write the case row, write the audit row, answer.
 * Every attempted side effect is recorded in order, so that what happens before a failure
 * can be stated. The two writes are separate: a failing audit write leaves the case row.
 */
module TriageRoute {
  import opened Wrappers
  import opened Json
  import Triage
  import V = Validators
  import Classifier
  import Text
  import Session
  import opened Store

  /** The incoming request: the Authorization header and the JSON body (or the body-parse error message). */
  datatype Request = Request(authorization: Option<string>, body: Result<Json, string>)

  /** The collaborators the endpoint calls. */
  datatype Services = Services(
    session: Session.Verifier,
    complete: string -> Classifier.Completion,
    parseJson: string -> Result<Json, string>)

  /**
   * What the environment decides: the new case's id, the clock at the write, the elapsed
   * processing time, the status the schema gives a new case, and whether each write succeeds.
   */
  datatype Environment = Environment(
    newCaseId: string,
    now: nat,
    elapsed: nat,
    initialStatus: V.CaseStatus,
    caseWrite: Outcome<string>,
    auditWrite: Outcome<string>)

  /** A side effect the endpoint attempted. */
  datatype Effect = Classify(prompt: string) | InsertCase(caseId: string) | InsertAudit(triageCaseId: string)

  datatype Failure =
    | Denied(denial: Session.Denial)
    | Invalid(issues: seq<string>)
    | Thrown(message: string)

  datatype Body =
    | Error(failure: Failure)
    | Created(triageCase: TriageCase, message: string, urgency: Triage.UrgencyLevel)

  datatype Response = Response(status: nat, body: Body)

  /** The response, the store after the request, and the side effects attempted in order. */
  datatype Handled = Handled(response: Response, db: Db, effects: seq<Effect>)

  const SuccessMessage: string := "Triage completed successfully"
  const DefaultError: string := "Triage processing failed"

  /** `error.message || 'Triage processing failed'`. */
  function ErrorText(message: string): (t: string)
    ensures t != ""
    ensures message != "" ==> t == message
  {
    Text.MessageOr(message, DefaultError)
  }

  /** The case row built from the validated input and the classifier's result. */
  function NewCase(input: V.TriageInput, ai: Classifier.TriageResult, payload: TokenPayload, env: Environment): (c: TriageCase)
    ensures c.rawInput == input.rawInput && c.inputType == input.inputType && c.transcript == input.transcript
    ensures c.userId == payload.userId && c.id == env.newCaseId && c.createdAt == env.now
    ensures c.urgencyLevel == Some(ai.urgencyLevel) && c.aiSummary == ai.aiSummary
    ensures c.redFlags == ai.redFlags && c.rationale == ai.rationale && c.structuredData == ai.structuredData
    ensures c.clinicianNotes.None? && c.staffOverride.None? && c.overrideReason.None? && c.resolvedAt.None?
  {
    TriageCase(env.newCaseId, payload.userId, input.rawInput, input.inputType, input.transcript,
               ai.structuredData, Some(ai.urgencyLevel), ai.aiSummary, ai.redFlags, ai.rationale,
               env.initialStatus, env.now, None, None, None, None)
  }

  /** The side effects in the only order the endpoint attempts them. */
  function Pipeline(prompt: string, caseId: string): seq<Effect> {
    [Classify(prompt), InsertCase(caseId), InsertAudit(caseId)]
  }

  /** The steps after validation: classify, write the case, write the audit row. */
  function Submit(input: V.TriageInput, payload: TokenPayload, svc: Services, env: Environment, db: Db): (h: Handled)
    ensures h.response.status in {201, 500}
    ensures 1 <= |h.effects| && h.effects <= Pipeline(Triage.PreprocessInput(input.rawInput), env.newCaseId)
    ensures h.db.users == db.users
    ensures db.cases <= h.db.cases && |h.db.cases| <= |db.cases| + 1
    ensures db.aiOutputs <= h.db.aiOutputs && |h.db.aiOutputs| <= |db.aiOutputs| + 1
    ensures |h.db.aiOutputs| == |db.aiOutputs| + 1 ==>
              |h.db.cases| == |db.cases| + 1 && h.db.aiOutputs[|db.aiOutputs|].triageCaseId == h.db.cases[|db.cases|].id
    ensures h.response.status == 201 <==> |h.db.aiOutputs| == |db.aiOutputs| + 1
    // success needs a classification and both writes
    ensures h.response.status == 201 <==>
              Classifier.ProcessTriage(svc.complete(Triage.PreprocessInput(input.rawInput)), svc.parseJson).Ok?
              && env.caseWrite == Done && env.auditWrite == Done
    // on success the stored case, the audit row and the answer all carry the classifier's result
    ensures h.response.status == 201 ==>
              var prompt := Triage.PreprocessInput(input.rawInput);
              var ai := Classifier.ProcessTriage(svc.complete(prompt), svc.parseJson).value;
              var c := NewCase(input, ai, payload, env);
              && h.db.cases == db.cases + [c]
              && h.db.aiOutputs == db.aiOutputs + [AiOutput(c.id, ModelUsed, prompt, ai, env.elapsed)]
              && h.response.body == Created(c, SuccessMessage, ai.urgencyLevel)
              && h.effects == Pipeline(prompt, env.newCaseId)
    // a failing classification answers with the classifier's user-facing message and writes nothing
    ensures Classifier.ProcessTriage(svc.complete(Triage.PreprocessInput(input.rawInput)), svc.parseJson).Err? ==>
              && h.response == Response(500, Error(Thrown(
                   Classifier.ProcessTriage(svc.complete(Triage.PreprocessInput(input.rawInput)), svc.parseJson).error)))
              && h.db == db
    // a failing write answers with that write's message, or the fallback when it is empty
    ensures Classifier.ProcessTriage(svc.complete(Triage.PreprocessInput(input.rawInput)), svc.parseJson).Ok?
            && env.caseWrite.Failed? ==>
              h.response == Response(500, Error(Thrown(ErrorText(env.caseWrite.error)))) && h.db == db
    ensures Classifier.ProcessTriage(svc.complete(Triage.PreprocessInput(input.rawInput)), svc.parseJson).Ok?
            && env.caseWrite == Done && env.auditWrite.Failed? ==>
              h.response == Response(500, Error(Thrown(ErrorText(env.auditWrite.error))))
              && |h.db.cases| == |db.cases| + 1 && h.db.aiOutputs == db.aiOutputs
  {
    var prompt := Triage.PreprocessInput(input.rawInput);
    match Classifier.ProcessTriage(svc.complete(prompt), svc.parseJson)
    case Err(message) =>
      Handled(Response(500, Error(Thrown(ErrorText(message)))), db, [Classify(prompt)])
    case Ok(ai) =>
      var c := NewCase(input, ai, payload, env);
      match env.caseWrite
      case Failed(message) =>
        Handled(Response(500, Error(Thrown(ErrorText(message)))), db, [Classify(prompt), InsertCase(c.id)])
      case Done =>
        var withCase := db.(cases := db.cases + [c]);
        var effects := [Classify(prompt), InsertCase(c.id), InsertAudit(c.id)];
        match env.auditWrite
        case Failed(message) =>
          Handled(Response(500, Error(Thrown(ErrorText(message)))), withCase, effects)
        case Done =>
          var audit := AiOutput(c.id, ModelUsed, prompt, ai, env.elapsed);
          Handled(Response(201, Created(c, SuccessMessage, ai.urgencyLevel)),
                  withCase.(aiOutputs := db.aiOutputs + [audit]), effects)
  }

  /** `POST /api/triage`. */
  function Post(req: Request, svc: Services, env: Environment, db: Db): (h: Handled)
    ensures h.response.status in {201, 401, 500}
    ensures h.db.users == db.users
    // writes only append, at most one row each
    ensures db.cases <= h.db.cases && |h.db.cases| <= |db.cases| + 1
    ensures db.aiOutputs <= h.db.aiOutputs && |h.db.aiOutputs| <= |db.aiOutputs| + 1
    // no credentials: nothing happens
    ensures h.response.status == 401 <==> Session.Authenticate(req.authorization, svc.session).Err?
    ensures h.response.status == 401 ==> h.db == db && h.effects == []
    // the denial says whether the token was missing or did not verify
    ensures h.response.status == 401 ==>
              h.response.body == Error(Denied(Session.Authenticate(req.authorization, svc.session).error))
    // an unreadable body answers with its parse message, or the fallback when it is empty
    ensures Session.Authenticate(req.authorization, svc.session).Ok? && req.body.Err? ==>
              h == Handled(Response(500, Error(Thrown(ErrorText(req.body.error)))), db, [])
    // past authentication and validation, the answer is the one the remaining steps give
    ensures Session.Authenticate(req.authorization, svc.session).Ok? && req.body.Ok?
            && V.ParseTriageInput(req.body.value).Ok? ==>
              h == Submit(V.ParseTriageInput(req.body.value).value,
                          Session.Authenticate(req.authorization, svc.session).value, svc, env, db)
    // effects happen only after validation, in pipeline order, stopping at the first failure;
    // the classifier sees the trimmed description
    ensures h.effects != [] ==>
              req.body.Ok? && V.ParseTriageInput(req.body.value).Ok?
              && h.effects <= Pipeline(Triage.PreprocessInput(V.ParseTriageInput(req.body.value).value.rawInput),
                                       env.newCaseId)
    // an audit row exists only for a case written in the same request
    ensures |h.db.aiOutputs| == |db.aiOutputs| + 1 ==>
              |h.db.cases| == |db.cases| + 1 && h.db.aiOutputs[|db.aiOutputs|].triageCaseId == h.db.cases[|db.cases|].id
    ensures h.response.status == 201 <==> |h.db.aiOutputs| == |db.aiOutputs| + 1
    // on success the stored case, the audit row and the answer carry the caller's id and the classifier's result
    ensures h.response.status == 201 ==>
              && Session.Authenticate(req.authorization, svc.session).Ok?
              && req.body.Ok? && V.ParseTriageInput(req.body.value).Ok?
              && var payload := Session.Authenticate(req.authorization, svc.session).value;
                 var input := V.ParseTriageInput(req.body.value).value;
                 var prompt := Triage.PreprocessInput(input.rawInput);
                 && Classifier.ProcessTriage(svc.complete(prompt), svc.parseJson).Ok?
                 && var ai := Classifier.ProcessTriage(svc.complete(prompt), svc.parseJson).value;
                    var c := NewCase(input, ai, payload, env);
                    && h.db.cases == db.cases + [c]
                    && h.db.aiOutputs == db.aiOutputs + [AiOutput(c.id, ModelUsed, prompt, ai, env.elapsed)]
                    && h.response.body == Created(c, SuccessMessage, ai.urgencyLevel)
  {
    match Session.Authenticate(req.authorization, svc.session)
    case Err(denial) => Handled(Response(Session.Unauthorized, Error(Denied(denial))), db, [])
    case Ok(payload) =>
      match req.body
      case Err(message) => Handled(Response(500, Error(Thrown(ErrorText(message)))), db, [])
      case Ok(json) =>
        match V.ParseTriageInput(json)
        case Err(issues) => Handled(Response(500, Error(Invalid(issues))), db, [])
        case Ok(input) => Submit(input, payload, svc, env, db)
  }

  // ---- properties of the endpoint ----

  /** The request carries a token that verifies to `payload`. */
  predicate Authenticated(req: Request, svc: Services, payload: TokenPayload) {
    Session.Authenticate(req.authorization, svc.session) == Ok(payload)
  }

  /** A body that fails validation is answered with 500, not 400, and nothing is classified or written. */
  lemma InvalidBodyIs500(req: Request, svc: Services, env: Environment, db: Db, payload: TokenPayload)
    requires Authenticated(req, svc, payload)
    requires req.body.Ok? && V.ParseTriageInput(req.body.value).Err?
    ensures Post(req, svc, env, db) == Handled(Response(500, Error(Invalid(V.ParseTriageInput(req.body.value).error))), db, [])
  {
  }

  /** A failing classification is answered with 500 and writes nothing. */
  lemma ClassifierFailureWritesNothing(req: Request, svc: Services, env: Environment, db: Db, payload: TokenPayload)
    requires Authenticated(req, svc, payload)
    requires req.body.Ok? && V.ParseTriageInput(req.body.value).Ok?
    requires Classifier.ProcessTriage(svc.complete(Triage.PreprocessInput(V.ParseTriageInput(req.body.value).value.rawInput)),
                                      svc.parseJson).Err?
    ensures Post(req, svc, env, db).response.status == 500
    // the caller is told the classifier's user-facing message
    ensures Post(req, svc, env, db).response.body
            == Error(Thrown(Classifier.ProcessTriage(svc.complete(Triage.PreprocessInput(V.ParseTriageInput(req.body.value).value.rawInput)),
                                                     svc.parseJson).error))
    ensures Post(req, svc, env, db).db == db
    ensures Post(req, svc, env, db).effects == [Classify(Triage.PreprocessInput(V.ParseTriageInput(req.body.value).value.rawInput))]
  {
  }

  /**
   * The two writes are not atomic: when the audit write fails after the case write, the
   * answer is 500 but the case row stays, without an audit row.
   */
  lemma AuditFailureLeavesCase(req: Request, svc: Services, env: Environment, db: Db, payload: TokenPayload)
    requires Authenticated(req, svc, payload)
    requires req.body.Ok? && V.ParseTriageInput(req.body.value).Ok?
    requires Classifier.ProcessTriage(svc.complete(Triage.PreprocessInput(V.ParseTriageInput(req.body.value).value.rawInput)),
                                      svc.parseJson).Ok?
    requires env.caseWrite == Done && env.auditWrite.Failed?
    ensures Post(req, svc, env, db).response.status == 500
    ensures Post(req, svc, env, db).db.cases
              == db.cases + [NewCase(V.ParseTriageInput(req.body.value).value,
                                     Classifier.ProcessTriage(svc.complete(Triage.PreprocessInput(V.ParseTriageInput(req.body.value).value.rawInput)),
                                                              svc.parseJson).value,
                                     payload, env)]
    ensures Post(req, svc, env, db).db.aiOutputs == db.aiOutputs
  {
  }

  /**
   * A request from an authenticated caller with a valid body succeeds exactly when the
   * classifier answers and both writes go through; it then adds one case row built from the
   * description as submitted and the classifier's result, and one audit row holding the
   * trimmed prompt and that same result. The answer carries the stored case and the
   * classifier's level.
   */
  lemma SuccessfulSubmission(req: Request, svc: Services, env: Environment, db: Db, payload: TokenPayload)
    requires Authenticated(req, svc, payload)
    requires req.body.Ok? && V.ParseTriageInput(req.body.value).Ok?
    ensures var input := V.ParseTriageInput(req.body.value).value;
            var prompt := Triage.PreprocessInput(input.rawInput);
            var h := Post(req, svc, env, db);
            && (h.response.status == 201 <==>
                  Classifier.ProcessTriage(svc.complete(prompt), svc.parseJson).Ok?
                  && env.caseWrite == Done && env.auditWrite == Done)
            && (h.response.status == 201 ==>
                  var ai := Classifier.ProcessTriage(svc.complete(prompt), svc.parseJson).value;
                  var c := NewCase(input, ai, payload, env);
                  && h.db == db.(cases := db.cases + [c],
                                 aiOutputs := db.aiOutputs + [AiOutput(env.newCaseId, ModelUsed, prompt, ai, env.elapsed)])
                  && h.response == Response(201, Created(c, SuccessMessage, ai.urgencyLevel))
                  && h.effects == [Classify(prompt), InsertCase(env.newCaseId), InsertAudit(env.newCaseId)]
                  && c.rawInput == input.rawInput && c.urgencyLevel == Some(ai.urgencyLevel))
  {
  }

  /**
   * The length check applies to the description as submitted, before trimming: a body of
   * ten or more whitespace characters passes validation, and the classifier is asked about
   * the empty string.
   */
  lemma BlankDescriptionReachesClassifier(req: Request, svc: Services, env: Environment, db: Db,
                                          payload: TokenPayload, raw: string)
    requires Authenticated(req, svc, payload)
    requires req.body == Ok(JObject(map["rawInput" := JString(raw), "inputType" := JString("text")]))
    requires |raw| >= V.MinRawInputLength && forall i :: 0 <= i < |raw| ==> Text.IsWhitespace(raw[i])
    ensures V.ParseTriageInput(req.body.value).Ok?
    ensures Post(req, svc, env, db).effects != []
    ensures Post(req, svc, env, db).effects[0] == Classify("")
  {
    assert Triage.PreprocessInput(raw) == [];
  }
}
