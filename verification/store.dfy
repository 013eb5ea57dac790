/**
 * The persisted records, held in memory: users, triage cases and the audit rows of
 * classifier calls. Ids and timestamps are chosen by the caller of each operation.
 */
module Store {
  import opened Wrappers
  import opened Json
  import Triage
  import V = Validators
  import Classifier

  /** What a verified session token carries. */
  datatype TokenPayload = TokenPayload(userId: string, email: string, role: V.Role)

  /**
   * One patient submission, its classification and the staff's review of it. The review
   * columns are unset (None) until a staff update writes them.
   */
  datatype TriageCase = TriageCase(
    id: string,
    userId: string,
    rawInput: string,
    inputType: V.InputType,
    transcript: Option<string>,
    structuredData: Json,
    urgencyLevel: Option<Triage.UrgencyLevel>,
    aiSummary: Json,
    redFlags: Json,
    rationale: Json,
    status: V.CaseStatus,
    createdAt: nat,
    clinicianNotes: Option<string>,
    staffOverride: Option<bool>,
    overrideReason: Option<string>,
    resolvedAt: Option<nat>)

  /** The audit row of one classifier call, linked to the case it produced. */
  datatype AiOutput = AiOutput(
    triageCaseId: string,
    modelUsed: string,
    prompt: string,
    response: Classifier.TriageResult,
    processingTime: nat)

  /** An account; `password` holds the password hash. */
  datatype User = User(
    id: string,
    email: string,
    password: string,
    name: string,
    phone: Option<string>,
    dateOfBirth: Option<string>,
    role: V.Role)

  datatype Db = Db(cases: seq<TriageCase>, aiOutputs: seq<AiOutput>, users: seq<User>)

  /** The model name recorded in every audit row. */
  const ModelUsed: string := "llama-3.3-70b-versatile"
}
