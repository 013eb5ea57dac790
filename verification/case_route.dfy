/**
 * The case-detail endpoint `/api/cases/[id]`: `GET` reads one case, which a patient may
 * only do for their own cases, and `PATCH` lets staff update the review columns and the
 * urgency of one case. Marking a case RESOLVED stamps the time it was resolved.
 */
module CaseRoute {
  import opened Wrappers
  import opened Json
  import V = Validators
  import Text
  import Session
  import opened Store

  datatype Body =
    | Denied(denial: Session.Denial)
    | Error(message: string)
    | Invalid(issues: seq<string>)
    | Found(triageCase: TriageCase)

  datatype Response = Response(status: nat, body: Body)

  /** A response together with the store after the request. */
  datatype Handled = Handled(response: Response, db: Db)

  const NotFoundMessage: string := "Case not found"
  const ForbiddenMessage: string := "Unauthorized"
  const StaffOnlyMessage: string := "Unauthorized - staff access required"
  const FetchFailed: string := "Failed to fetch case"
  const UpdateFailed: string := "Failed to update case"

  /** `findUnique({ where: { id } })`: the position of the case with this id, if any. */
  function Find(cases: seq<TriageCase>, id: string): (r: Option<nat>)
    ensures r.Some? ==> r.value < |cases| && cases[r.value].id == id
    ensures r.Some? ==> forall j :: 0 <= j < r.value ==> cases[j].id != id
    ensures r.None? <==> forall j :: 0 <= j < |cases| ==> cases[j].id != id
  {
    if |cases| == 0 then None
    else if cases[0].id == id then Some(0)
    else
      var rest := Find(cases[1..], id);
      if rest.None? then None else Some(rest.value + 1)
  }

  /**
   * The case after an update: each field the update sets replaces the stored one, fields it
   * leaves out keep their value, and the resolution time is stamped only when the update
   * sets the status to RESOLVED.
   */
  function Apply(c: TriageCase, u: V.UpdateCaseInput, now: nat): (r: TriageCase)
    // what the patient submitted and what the classifier said, other than the level, stay
    ensures r.id == c.id && r.userId == c.userId && r.rawInput == c.rawInput && r.inputType == c.inputType
    ensures r.transcript == c.transcript && r.structuredData == c.structuredData && r.aiSummary == c.aiSummary
    ensures r.redFlags == c.redFlags && r.rationale == c.rationale && r.createdAt == c.createdAt
    // a set field wins, an unset one keeps the stored value
    ensures r.status == (if u.status.Some? then u.status.value else c.status)
    ensures r.urgencyLevel == (if u.urgencyLevel.Some? then u.urgencyLevel else c.urgencyLevel)
    ensures r.clinicianNotes == (if u.clinicianNotes.Some? then u.clinicianNotes else c.clinicianNotes)
    ensures r.staffOverride == (if u.staffOverride.Some? then u.staffOverride else c.staffOverride)
    ensures r.overrideReason == (if u.overrideReason.Some? then u.overrideReason else c.overrideReason)
    // the resolution time moves only when the case is marked resolved
    ensures u.status == Some(V.Resolved) ==> r.resolvedAt == Some(now)
    ensures u.status != Some(V.Resolved) ==> r.resolvedAt == c.resolvedAt
  {
    c.(status := if u.status.Some? then u.status.value else c.status,
       urgencyLevel := if u.urgencyLevel.Some? then u.urgencyLevel else c.urgencyLevel,
       clinicianNotes := if u.clinicianNotes.Some? then u.clinicianNotes else c.clinicianNotes,
       staffOverride := if u.staffOverride.Some? then u.staffOverride else c.staffOverride,
       overrideReason := if u.overrideReason.Some? then u.overrideReason else c.overrideReason,
       resolvedAt := if u.status == Some(V.Resolved) then Some(now) else c.resolvedAt)
  }

  /** `GET /api/cases/[id]`; `read` is the outcome of the store read. */
  function Get(authorization: Option<string>, id: string, v: Session.Verifier, read: Outcome<string>, db: Db): (resp: Response)
    ensures resp.status in {200, 401, 403, 404, 500}
    ensures resp.status == 401 <==> Session.Authenticate(authorization, v).Err?
    ensures resp.status == 401 ==> resp.body == Denied(Session.Authenticate(authorization, v).error)
    ensures resp.status == 500 <==> Session.Authenticate(authorization, v).Ok? && read.Failed?
    ensures resp.status == 500 ==> resp.body == Error(Text.MessageOr(read.error, FetchFailed))
    ensures resp.status == 404 ==> resp.body == Error(NotFoundMessage)
    ensures resp.status == 403 ==> resp.body == Error(ForbiddenMessage)
    ensures resp.status == 404 <==>
              Session.Authenticate(authorization, v).Ok? && read == Done && Find(db.cases, id).None?
    // a patient may read only their own cases
    ensures resp.status == 403 <==>
              && Session.Authenticate(authorization, v).Ok? && read == Done && Find(db.cases, id).Some?
              && Session.Authenticate(authorization, v).value.role == V.Patient
              && db.cases[Find(db.cases, id).value].userId != Session.Authenticate(authorization, v).value.userId
    ensures resp.status == 200 ==>
              resp.body.Found? && resp.body.triageCase in db.cases && resp.body.triageCase.id == id
              && (Session.Authenticate(authorization, v).value.role == V.Patient ==>
                    resp.body.triageCase.userId == Session.Authenticate(authorization, v).value.userId)
  {
    match Session.Authenticate(authorization, v)
    case Err(denial) => Response(Session.Unauthorized, Denied(denial))
    case Ok(payload) =>
      match read
      case Failed(message) => Response(500, Error(Text.MessageOr(message, FetchFailed)))
      case Done =>
        match Find(db.cases, id)
        case None => Response(404, Error(NotFoundMessage))
        case Some(i) =>
          if payload.role == V.Patient && db.cases[i].userId != payload.userId then
            Response(403, Error(ForbiddenMessage))
          else
            Response(200, Found(db.cases[i]))
  }

  /**
   * `PATCH /api/cases/[id]`: `body` is the parsed JSON body or the parse error message,
   * `now` the clock at the update and `write` the outcome of the store update.
   */
  function Patch(authorization: Option<string>, id: string, body: Result<Json, string>, v: Session.Verifier,
                 now: nat, write: Outcome<string>, db: Db): (h: Handled)
    ensures h.response.status in {200, 401, 403, 500}
    ensures h.response.status == 401 <==> Session.Authenticate(authorization, v).Err?
    ensures h.response.status == 401 ==> h.response.body == Denied(Session.Authenticate(authorization, v).error)
    // patients may not update cases at all
    ensures h.response.status == 403 <==>
              Session.Authenticate(authorization, v).Ok? && Session.Authenticate(authorization, v).value.role == V.Patient
    ensures h.response.status == 403 ==> h.response.body == Error(StaffOnlyMessage)
    ensures h.response.status == 200 <==>
              && Session.Authenticate(authorization, v).Ok?
              && Session.Authenticate(authorization, v).value.role != V.Patient
              && body.Ok? && V.ParseUpdateCase(body.value).Ok? && write == Done && Find(db.cases, id).Some?
    // a successful update rewrites exactly the case with this id and answers with it
    ensures h.response.status == 200 ==>
              var i := Find(db.cases, id).value;
              var c := Apply(db.cases[i], V.ParseUpdateCase(body.value).value, now);
              h.db == db.(cases := db.cases[i := c]) && h.response.body == Found(c)
    ensures h.response.status != 200 ==> h.db == db
    // a staff request that fails after authentication answers 500 with the reason
    ensures Session.Authenticate(authorization, v).Ok? && Session.Authenticate(authorization, v).value.role != V.Patient ==>
              && (body.Err? ==> h.response.body == Error(Text.MessageOr(body.error, UpdateFailed)))
              && (body.Ok? && V.ParseUpdateCase(body.value).Err? ==>
                    h.response.body == Invalid(V.ParseUpdateCase(body.value).error))
              && (body.Ok? && V.ParseUpdateCase(body.value).Ok? && write.Failed? ==>
                    h.response.body == Error(Text.MessageOr(write.error, UpdateFailed)))
    ensures h.db.users == db.users && h.db.aiOutputs == db.aiOutputs
  {
    match Session.Authenticate(authorization, v)
    case Err(denial) => Handled(Response(Session.Unauthorized, Denied(denial)), db)
    case Ok(payload) =>
      if payload.role == V.Patient then Handled(Response(403, Error(StaffOnlyMessage)), db)
      else
        match body
        case Err(message) => Handled(Response(500, Error(Text.MessageOr(message, UpdateFailed))), db)
        case Ok(json) =>
          match V.ParseUpdateCase(json)
          case Err(issues) => Handled(Response(500, Invalid(issues)), db)
          case Ok(input) =>
            match write
            case Failed(message) => Handled(Response(500, Error(Text.MessageOr(message, UpdateFailed))), db)
            case Done =>
              match Find(db.cases, id)
              case None => Handled(Response(500, Error(UpdateFailed)), db)
              case Some(i) =>
                var c := Apply(db.cases[i], input, now);
                Handled(Response(200, Found(c)), db.(cases := db.cases[i := c]))
  }

  // ---- properties of the endpoint ----

  /** An empty update changes no column: the case is stored back as it was. */
  lemma EmptyUpdateKeepsCase(c: TriageCase, now: nat)
    ensures Apply(c, V.UpdateCaseInput(None, None, None, None, None), now) == c
  {
  }

  /** Applying the same update twice at the same instant is the same as applying it once. */
  lemma ApplyIdempotent(c: TriageCase, u: V.UpdateCaseInput, now: nat)
    ensures Apply(Apply(c, u, now), u, now) == Apply(c, u, now)
  {
  }

  /**
   * Only marking a case RESOLVED touches its resolution time: moving a resolved case back
   * to IN_PROGRESS keeps the old time rather than clearing it.
   */
  lemma ResolvedAtOnlyOnResolve(c: TriageCase, u: V.UpdateCaseInput, now: nat)
    ensures Apply(c, u, now).resolvedAt != c.resolvedAt ==> u.status == Some(V.Resolved)
    ensures u.status == Some(V.InProgress) ==> Apply(c, u, now).resolvedAt == c.resolvedAt
  {
  }

  /** A position found before an update is found again after it, since the ids are kept. */
  lemma {:induction false} FindAfterUpdate(cases: seq<TriageCase>, id: string, c: TriageCase)
    requires Find(cases, id).Some? && c.id == id
    ensures Find(cases[Find(cases, id).value := c], id) == Find(cases, id)
    decreases |cases|
  {
    var i := Find(cases, id).value;
    if i > 0 {
      assert cases[i := c][1..] == cases[1..][i - 1 := c];
      FindAfterUpdate(cases[1..], id, c);
    }
  }

  /** After a successful staff update, reading the case back by its id gives the updated case. */
  lemma PatchThenGet(authorization: Option<string>, id: string, body: Result<Json, string>, v: Session.Verifier,
                     now: nat, db: Db)
    requires Patch(authorization, id, body, v, now, Done, db).response.status == 200
    ensures Get(authorization, id, v, Done, Patch(authorization, id, body, v, now, Done, db).db)
            == Response(200, Patch(authorization, id, body, v, now, Done, db).response.body)
  {
    var i := Find(db.cases, id).value;
    var c := Apply(db.cases[i], V.ParseUpdateCase(body.value).value, now);
    FindAfterUpdate(db.cases, id, c);
  }

  /** Staff can read every stored case by its id. */
  lemma StaffReadAnyCase(authorization: Option<string>, v: Session.Verifier, db: Db, i: int)
    requires Session.Authenticate(authorization, v).Ok? && Session.Authenticate(authorization, v).value.role != V.Patient
    ensures 0 <= i < |db.cases| ==> Get(authorization, db.cases[i].id, v, Done, db).status == 200
  {
  }
}
