/**
 * The case listing endpoint `GET /api/cases`: authenticate, build the filter from the query
 * string and the caller's role, read the matching cases newest first, and for every role
 * other than PATIENT re-sort them by urgency priority (most urgent first, newest first
 * within one level, because the sort is stable).
 */
module CasesRoute {
  import opened Wrappers
  import Triage
  import V = Validators
  import Text
  import Seqs
  import Ordering
  import Session
  import opened Store

  /** The query parameters `status`, `urgency` and `userId`; `searchParams.get` gives None when absent. */
  datatype Query = Query(status: Option<string>, urgency: Option<string>, userId: Option<string>)

  datatype Request = Request(authorization: Option<string>, query: Query)

  /** The conditions of the store read; None means the column is not constrained. */
  datatype Where = Where(userId: Option<string>, status: Option<string>, urgency: Option<string>)

  datatype Body =
    | Denied(denial: Session.Denial)
    | Thrown(message: string)
    | Cases(cases: seq<TriageCase>)

  datatype Response = Response(status: nat, body: Body)

  const DefaultError: string := "Failed to fetch cases"

  /** A query parameter used as a condition only when it is truthy (present and non-empty). */
  function Truthy(p: Option<string>): (r: Option<string>)
    ensures r.Some? <==> p.Some? && p.value != ""
    ensures r.Some? ==> r == p
  {
    if p.Some? && p.value != "" then p else None
  }

  /**
   * The conditions for a caller: a patient is always pinned to their own user id, whatever
   * the query says; any other role may narrow to one user with `userId`.
   */
  function BuildWhere(payload: TokenPayload, q: Query): (w: Where)
    ensures payload.role == V.Patient ==> w.userId == Some(payload.userId)
    ensures payload.role != V.Patient ==> w.userId == Truthy(q.userId)
    ensures w.status == Truthy(q.status) && w.urgency == Truthy(q.urgency)
  {
    Where(if payload.role == V.Patient then Some(payload.userId) else Truthy(q.userId),
          Truthy(q.status), Truthy(q.urgency))
  }

  /** A case satisfies every condition: equal user id, equal status name, equal urgency name (an unset urgency never matches). */
  predicate Matches(w: Where, c: TriageCase) {
    && (w.userId.None? || c.userId == w.userId.value)
    && (w.status.None? || V.StatusName(c.status) == w.status.value)
    && (w.urgency.None? || (c.urgencyLevel.Some? && Triage.Name(c.urgencyLevel.value) == w.urgency.value))
  }

  function CreatedAt(c: TriageCase): int {
    c.createdAt
  }

  /** The key of the staff re-sort: the level's priority, 0 for a case not yet classified. */
  function StaffKey(c: TriageCase): int {
    if c.urgencyLevel.Some? then Triage.LevelPriority(c.urgencyLevel.value) else 0
  }

  /**
   * The store read: the matching cases ordered by creation time, newest first. Cases created
   * at the same instant keep their store order.
   */
  function Fetch(db: Db, w: Where): (r: seq<TriageCase>)
    ensures multiset(r) == multiset(Seqs.Filter(c => Matches(w, c), db.cases))
    ensures Ordering.SortedDesc(CreatedAt, r)
  {
    Ordering.SortDesc(CreatedAt, Seqs.Filter(c => Matches(w, c), db.cases))
  }

  /** The cases a caller sees for a query. */
  function List(payload: TokenPayload, q: Query, db: Db): (r: seq<TriageCase>)
    // exactly the matching cases, each as often as it is stored
    ensures multiset(r) == multiset(Seqs.Filter(c => Matches(BuildWhere(payload, q), c), db.cases))
    // a patient only ever sees their own cases, newest first
    ensures payload.role == V.Patient ==>
              (forall i :: 0 <= i < |r| ==> r[i].userId == payload.userId) && Ordering.SortedDesc(CreatedAt, r)
    // staff see the most urgent first, and newest first among equally urgent cases
    ensures payload.role != V.Patient ==>
              Ordering.SortedDesc(StaffKey, r)
              && forall k :: Ordering.SortedDesc(CreatedAt, Ordering.Band(StaffKey, r, k))
  {
    var base := Fetch(db, BuildWhere(payload, q));
    if payload.role == V.Patient then
      PatientOwnCases(payload, q, db);
      base
    else
      StaffOrder(base);
      Ordering.SortDesc(StaffKey, base)
  }

  /** Every case read for a patient is one of their own. */
  lemma PatientOwnCases(payload: TokenPayload, q: Query, db: Db)
    requires payload.role == V.Patient
    ensures forall i :: 0 <= i < |Fetch(db, BuildWhere(payload, q))| ==> Fetch(db, BuildWhere(payload, q))[i].userId == payload.userId
  {
    var base := Fetch(db, BuildWhere(payload, q));
    var w := BuildWhere(payload, q);
    Seqs.FilterMembers(c => Matches(w, c), db.cases);
    assert forall i :: 0 <= i < |base| ==> base[i] in multiset(base);
  }

  /** Re-sorting a newest-first read by priority keeps each priority level newest first. */
  lemma StaffOrder(base: seq<TriageCase>)
    requires Ordering.SortedDesc(CreatedAt, base)
    ensures forall k :: Ordering.SortedDesc(CreatedAt, Ordering.Band(StaffKey, Ordering.SortDesc(StaffKey, base), k))
  {
    forall k ensures Ordering.SortedDesc(CreatedAt, Ordering.Band(StaffKey, Ordering.SortDesc(StaffKey, base), k)) {
      Ordering.SortDescStable(StaffKey, base, k);
      Ordering.BandOfSorted(StaffKey, CreatedAt, base, k);
    }
  }

  /** `GET /api/cases`; `read` is the outcome of the store read. */
  function Get(req: Request, v: Session.Verifier, read: Outcome<string>, db: Db): (resp: Response)
    ensures resp.status in {200, 401, 500}
    ensures resp.status == 401 <==> Session.Authenticate(req.authorization, v).Err?
    ensures resp.status == 401 ==> resp.body == Denied(Session.Authenticate(req.authorization, v).error)
    ensures Session.Authenticate(req.authorization, v).Ok? && read.Failed? ==>
              resp == Response(500, Thrown(Text.MessageOr(read.error, DefaultError)))
    ensures resp.status == 200 <==>
              Session.Authenticate(req.authorization, v).Ok? && read == Done
    ensures resp.status == 200 ==>
              resp.body == Cases(List(Session.Authenticate(req.authorization, v).value, req.query, db))
  {
    match Session.Authenticate(req.authorization, v)
    case Err(denial) => Response(Session.Unauthorized, Denied(denial))
    case Ok(payload) =>
      match read
      case Failed(message) => Response(500, Thrown(Text.MessageOr(message, DefaultError)))
      case Done => Response(200, Cases(List(payload, req.query, db)))
  }

  // ---- properties of the listing ----

  /** A case is listed exactly when it is stored and satisfies the caller's conditions. */
  lemma ListedIffMatching(payload: TokenPayload, q: Query, db: Db, c: TriageCase)
    ensures c in List(payload, q, db) <==> c in db.cases && Matches(BuildWhere(payload, q), c)
  {
    var r := List(payload, q, db);
    var f := Seqs.Filter(x => Matches(BuildWhere(payload, q), x), db.cases);
    Seqs.FilterMembers(x => Matches(BuildWhere(payload, q), x), db.cases);
    assert c in r <==> c in multiset(r);
    assert c in f <==> c in multiset(f);
  }

  /** A patient's `userId` parameter is ignored: the listing is the same whatever it says. */
  lemma PatientUserIdIgnored(payload: TokenPayload, q: Query, other: Option<string>, db: Db)
    requires payload.role == V.Patient
    ensures List(payload, q, db) == List(payload, q.(userId := other), db)
  {
  }

  /** Staff with no query parameters see every stored case. */
  lemma StaffSeeEverything(payload: TokenPayload, db: Db)
    requires payload.role != V.Patient
    ensures multiset(List(payload, Query(None, None, None), db)) == multiset(db.cases)
  {
    var w := BuildWhere(payload, Query(None, None, None));
    Seqs.FilterAll(c => Matches(w, c), db.cases);
  }

  /** An empty parameter is the same as an absent one. */
  lemma EmptyParameterIgnored(payload: TokenPayload, q: Query, db: Db)
    ensures List(payload, q.(status := Some("")), db) == List(payload, q.(status := None), db)
    ensures List(payload, q.(urgency := Some("")), db) == List(payload, q.(urgency := None), db)
  {
  }

  /** In a sequence sorted by staff key, an emergency case is preceded by emergency cases only. */
  lemma EmergencyPrefix(r: seq<TriageCase>, i: int, j: int)
    requires Ordering.SortedDesc(StaffKey, r)
    requires 0 <= i < j < |r| && r[j].urgencyLevel == Some(Triage.Emergency)
    ensures r[i].urgencyLevel == Some(Triage.Emergency)
  {
    assert StaffKey(r[i]) >= StaffKey(r[j]) == 4;
    Triage.PriorityInjective(r[i].urgencyLevel.value, Triage.Emergency);
  }

  /** For staff, a listed emergency case is preceded by emergency cases only. */
  lemma EmergenciesFirst(payload: TokenPayload, q: Query, db: Db, i: int, j: int)
    requires payload.role != V.Patient
    ensures (0 <= i < j < |List(payload, q, db)| && List(payload, q, db)[j].urgencyLevel == Some(Triage.Emergency))
            ==> List(payload, q, db)[i].urgencyLevel == Some(Triage.Emergency)
  {
    var r := List(payload, q, db);
    if 0 <= i < j < |r| && r[j].urgencyLevel == Some(Triage.Emergency) {
      EmergencyPrefix(r, i, j);
    }
  }

  /**
   * The staff listing is determined by its contents: it is the unique ordering that is sorted
   * by priority and keeps each priority level in the newest-first store order.
   */
  lemma StaffListingCharacterised(payload: TokenPayload, q: Query, db: Db, r: seq<TriageCase>)
    requires payload.role != V.Patient
    requires Ordering.SortedDesc(StaffKey, r)
    requires forall k :: Ordering.Band(StaffKey, r, k) == Ordering.Band(StaffKey, Fetch(db, BuildWhere(payload, q)), k)
    ensures r == List(payload, q, db)
  {
    Ordering.StableSortCharacterisation(StaffKey, Fetch(db, BuildWhere(payload, q)), r);
  }
}
