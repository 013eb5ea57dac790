/**
 * The request-body schemas. Each schema is a function from the parsed JSON body to either the
 * validated record or the list of fields that failed (the root is reported as the empty path
 * when the body is not an object). Unknown keys are dropped; an optional field accepts an
 * absent key but not `null`. The email format check is a parameter.
 */
module Validators {
  import opened Wrappers
  import opened Json
  import Triage

  datatype Role = Patient | Staff | Admin
  datatype InputType = Voice | TextEntry
  datatype CaseStatus = Open | InProgress | Resolved | Closed
  datatype Severity = Mild | Moderate | Severe

  function RoleName(r: Role): string {
    match r
    case Patient => "PATIENT"
    case Staff => "STAFF"
    case Admin => "ADMIN"
  }

  function ParseRole(s: string): (r: Option<Role>)
    ensures r.Some? ==> RoleName(r.value) == s
    ensures r.None? ==> forall x :: RoleName(x) != s
  {
    if s == "PATIENT" then Some(Patient)
    else if s == "STAFF" then Some(Staff)
    else if s == "ADMIN" then Some(Admin)
    else None
  }

  function InputTypeName(t: InputType): string {
    match t
    case Voice => "voice"
    case TextEntry => "text"
  }

  function ParseInputType(s: string): (r: Option<InputType>)
    ensures r.Some? ==> InputTypeName(r.value) == s
    ensures r.None? ==> forall x :: InputTypeName(x) != s
  {
    if s == "voice" then Some(Voice)
    else if s == "text" then Some(TextEntry)
    else None
  }

  function StatusName(c: CaseStatus): string {
    match c
    case Open => "OPEN"
    case InProgress => "IN_PROGRESS"
    case Resolved => "RESOLVED"
    case Closed => "CLOSED"
  }

  function ParseStatus(s: string): (r: Option<CaseStatus>)
    ensures r.Some? ==> StatusName(r.value) == s
    ensures r.None? ==> forall x :: StatusName(x) != s
  {
    if s == "OPEN" then Some(Open)
    else if s == "IN_PROGRESS" then Some(InProgress)
    else if s == "RESOLVED" then Some(Resolved)
    else if s == "CLOSED" then Some(Closed)
    else None
  }

  function SeverityName(v: Severity): string {
    match v
    case Mild => "mild"
    case Moderate => "moderate"
    case Severe => "severe"
  }

  function ParseSeverity(s: string): (r: Option<Severity>)
    ensures r.Some? ==> SeverityName(r.value) == s
    ensures r.None? ==> forall x :: SeverityName(x) != s
  {
    if s == "mild" then Some(Mild)
    else if s == "moderate" then Some(Moderate)
    else if s == "severe" then Some(Severe)
    else None
  }

  // ---- field checks: a field either yields its value or reports its own name ----

  /** A required string of at least `min` characters. */
  function RequiredString(o: map<string, Json>, key: string, min: nat): (r: Result<string, string>)
    ensures r.Ok? <==> key in o && o[key].JString? && |o[key].s| >= min
    ensures r.Ok? ==> o[key] == JString(r.value)
    ensures r.Err? ==> r.error == key
  {
    match Field(o, key)
    case Some(JString(s)) => if |s| >= min then Ok(s) else Err(key)
    case _ => Err(key)
  }

  /** A required string accepted by a format check. */
  function FormattedString(o: map<string, Json>, key: string, ok: string -> bool): (r: Result<string, string>)
    ensures r.Ok? <==> key in o && o[key].JString? && ok(o[key].s)
    ensures r.Ok? ==> o[key] == JString(r.value)
    ensures r.Err? ==> r.error == key
  {
    match Field(o, key)
    case Some(JString(s)) => if ok(s) then Ok(s) else Err(key)
    case _ => Err(key)
  }

  /** An optional string: absent is accepted, anything but a string (including null) is not. */
  function OptionalString(o: map<string, Json>, key: string): (r: Result<Option<string>, string>)
    ensures r.Ok? <==> key !in o || o[key].JString?
    ensures r.Ok? && key !in o ==> r.value == None
    ensures r.Ok? && key in o ==> r.value == Some(o[key].s)
    ensures r.Err? ==> r.error == key
  {
    match Field(o, key)
    case None => Ok(None)
    case Some(JString(s)) => Ok(Some(s))
    case _ => Err(key)
  }

  /** An optional boolean. */
  function OptionalBool(o: map<string, Json>, key: string): (r: Result<Option<bool>, string>)
    ensures r.Ok? <==> key !in o || o[key].JBool?
    ensures r.Ok? && key !in o ==> r.value == None
    ensures r.Ok? && key in o ==> r.value == Some(o[key].b)
    ensures r.Err? ==> r.error == key
  {
    match Field(o, key)
    case None => Ok(None)
    case Some(JBool(b)) => Ok(Some(b))
    case _ => Err(key)
  }

  /** A required string that `parse` recognises as an enum member. */
  function RequiredEnum<T>(o: map<string, Json>, key: string, parse: string -> Option<T>): (r: Result<T, string>)
    ensures r.Ok? <==> key in o && o[key].JString? && parse(o[key].s).Some?
    ensures r.Ok? ==> parse(o[key].s) == Some(r.value)
    ensures r.Err? ==> r.error == key
  {
    match Field(o, key)
    case Some(JString(s)) => if parse(s).Some? then Ok(parse(s).value) else Err(key)
    case _ => Err(key)
  }

  /** An optional enum member. */
  function OptionalEnum<T>(o: map<string, Json>, key: string, parse: string -> Option<T>): (r: Result<Option<T>, string>)
    ensures r.Ok? <==> key !in o || (o[key].JString? && parse(o[key].s).Some?)
    ensures r.Ok? && key !in o ==> r.value == None
    ensures r.Ok? && key in o ==> r.value == parse(o[key].s)
    ensures r.Err? ==> r.error == key
  {
    match Field(o, key)
    case None => Ok(None)
    case Some(JString(s)) => if parse(s).Some? then Ok(parse(s)) else Err(key)
    case _ => Err(key)
  }

  predicate AllStrings(items: seq<Json>) {
    forall i :: 0 <= i < |items| ==> items[i].JString?
  }

  /** A required array of strings. */
  function StringArray(o: map<string, Json>, key: string): (r: Result<seq<string>, string>)
    ensures r.Ok? <==> key in o && o[key].JArray? && AllStrings(o[key].items)
    ensures r.Ok? ==> StringsOf(o[key].items, r.value)
    ensures r.Err? ==> r.error == key
  {
    match Field(o, key)
    case Some(JArray(items)) =>
      if AllStrings(items) then Ok(seq(|items|, i requires 0 <= i < |items| && AllStrings(items) => items[i].s))
      else Err(key)
    case _ => Err(key)
  }

  /** `items` is the JSON array of exactly the strings `xs`. */
  predicate StringsOf(items: seq<Json>, xs: seq<string>) {
    |items| == |xs| && forall i :: 0 <= i < |xs| ==> items[i] == JString(xs[i])
  }

  /** The issue a field check contributes: its name when it failed, nothing otherwise. */
  function IssueOf<T>(r: Result<T, string>): (issues: seq<string>)
    ensures r.Err? ==> issues == [r.error]
    ensures r.Ok? ==> issues == []
  {
    if r.Err? then [r.error] else []
  }

  /** The entry an optional field contributes to a body: nothing when absent. */
  function OptionalEntry<T>(key: string, v: Option<T>, encode: T -> Json): map<string, Json> {
    if v.Some? then map[key := encode(v.value)] else map[]
  }

  /** A JSON array holding the strings `xs` in order. */
  function Strings(xs: seq<string>): (j: Json)
    ensures j.JArray? && StringsOf(j.items, xs) && AllStrings(j.items)
  {
    JArray(seq(|xs|, i requires 0 <= i < |xs| => JString(xs[i])))
  }

  /** The path reported when the body itself is not an object. */
  const RootPath: string := ""

  // ---- schemas ----

  datatype RegisterInput = RegisterInput(
    email: string, password: string, name: string,
    phone: Option<string>, dateOfBirth: Option<string>, role: Role)

  /** `registerSchema`: email format, password of at least 8 and name of at least 2 characters, role defaulting to PATIENT. */
  function ParseRegister(body: Json, isEmail: string -> bool): (r: Result<RegisterInput, seq<string>>)
    ensures r.Ok? <==> body.JObject?
                       && "email" in body.fields && body.fields["email"].JString? && isEmail(body.fields["email"].s)
                       && "password" in body.fields && body.fields["password"].JString?
                       && |body.fields["password"].s| >= 8
                       && "name" in body.fields && body.fields["name"].JString? && |body.fields["name"].s| >= 2
                       && ("phone" !in body.fields || body.fields["phone"].JString?)
                       && ("dateOfBirth" !in body.fields || body.fields["dateOfBirth"].JString?)
                       && ("role" !in body.fields
                           || (body.fields["role"].JString? && ParseRole(body.fields["role"].s).Some?))
    ensures r.Ok? ==> isEmail(r.value.email) && |r.value.password| >= 8 && |r.value.name| >= 2
    ensures r.Ok? ==> (r.value.phone.Some? <==> "phone" in body.fields)
                      && (r.value.phone.Some? ==> body.fields["phone"] == JString(r.value.phone.value))
                      && (r.value.dateOfBirth.Some? <==> "dateOfBirth" in body.fields)
                      && (r.value.dateOfBirth.Some? ==> body.fields["dateOfBirth"] == JString(r.value.dateOfBirth.value))
    ensures r.Ok? ==> body.JObject?
                      && Field(body.fields, "email") == Some(JString(r.value.email))
                      && Field(body.fields, "password") == Some(JString(r.value.password))
                      && Field(body.fields, "name") == Some(JString(r.value.name))
    ensures r.Ok? && "role" !in body.fields ==> r.value.role == Patient
    ensures r.Ok? && "role" in body.fields ==> body.fields["role"] == JString(RoleName(r.value.role))
    ensures r.Err? ==> |r.error| > 0
  {
    match body
    case JObject(o) =>
      var email := FormattedString(o, "email", isEmail);
      var password := RequiredString(o, "password", 8);
      var name := RequiredString(o, "name", 2);
      var phone := OptionalString(o, "phone");
      var dob := OptionalString(o, "dateOfBirth");
      var role := OptionalEnum(o, "role", ParseRole);
      if email.Ok? && password.Ok? && name.Ok? && phone.Ok? && dob.Ok? && role.Ok? then
        Ok(RegisterInput(email.value, password.value, name.value, phone.value, dob.value,
                         role.value.GetOr(Patient)))
      else
        Err(IssueOf(email) + IssueOf(password) + IssueOf(name) + IssueOf(phone) + IssueOf(dob) + IssueOf(role))
    case _ => Err([RootPath])
  }

  /** The body a client sends for a registration: every set field, as the schema names it. */
  function RegisterBody(x: RegisterInput): Json {
    JObject(map["email" := JString(x.email), "password" := JString(x.password), "name" := JString(x.name),
                "role" := JString(RoleName(x.role))]
            + OptionalEntry("phone", x.phone, s => JString(s))
            + OptionalEntry("dateOfBirth", x.dateOfBirth, s => JString(s)))
  }

  // Each field check finds in a registration's body exactly the value the registration holds.

  lemma RegisterRequiredFields(x: RegisterInput, isEmail: string -> bool)
    requires isEmail(x.email) && |x.password| >= 8 && |x.name| >= 2
    ensures FormattedString(RegisterBody(x).fields, "email", isEmail) == Ok(x.email)
    ensures RequiredString(RegisterBody(x).fields, "password", 8) == Ok(x.password)
    ensures RequiredString(RegisterBody(x).fields, "name", 2) == Ok(x.name)
  {
  }

  lemma RegisterOptionalFields(x: RegisterInput)
    ensures OptionalString(RegisterBody(x).fields, "phone") == Ok(x.phone)
    ensures OptionalString(RegisterBody(x).fields, "dateOfBirth") == Ok(x.dateOfBirth)
  {
  }

  lemma RegisterRoleField(x: RegisterInput)
    ensures OptionalEnum(RegisterBody(x).fields, "role", ParseRole) == Ok(Some(x.role))
  {
    assert RegisterBody(x).fields["role"] == JString(RoleName(x.role));
    assert ParseRole(RoleName(x.role)) == Some(x.role);
  }

  /** The schema reads back every registration that meets its constraints. */
  lemma RegisterRoundTrip(x: RegisterInput, isEmail: string -> bool)
    requires isEmail(x.email) && |x.password| >= 8 && |x.name| >= 2
    ensures ParseRegister(RegisterBody(x), isEmail) == Ok(x)
  {
    RegisterRequiredFields(x, isEmail);
    RegisterOptionalFields(x);
    RegisterRoleField(x);
  }

  /** A password shorter than 8 characters, or a role outside the three, is reported and rejected. */
  lemma RegisterRejects(o: map<string, Json>, isEmail: string -> bool)
    requires ("password" in o && o["password"].JString? && |o["password"].s| < 8)
          || ("role" in o && (!o["role"].JString? || ParseRole(o["role"].s).None?))
    ensures ParseRegister(JObject(o), isEmail).Err?
    ensures ("password" in o && o["password"].JString? && |o["password"].s| < 8)
              ==> "password" in ParseRegister(JObject(o), isEmail).error
    ensures ("role" in o && (!o["role"].JString? || ParseRole(o["role"].s).None?))
              ==> "role" in ParseRegister(JObject(o), isEmail).error
  {
  }

  datatype LoginInput = LoginInput(email: string, password: string)

  /** `loginSchema`: an email-formatted email and a non-empty password. */
  function ParseLogin(body: Json, isEmail: string -> bool): (r: Result<LoginInput, seq<string>>)
    ensures r.Ok? <==> body.JObject?
                       && FormattedString(body.fields, "email", isEmail).Ok?
                       && "password" in body.fields && body.fields["password"].JString?
                       && body.fields["password"].s != ""
    ensures r.Ok? ==> isEmail(r.value.email) && r.value.password != ""
                      && body.fields["email"] == JString(r.value.email)
                      && body.fields["password"] == JString(r.value.password)
    ensures r.Err? ==> |r.error| > 0
  {
    match body
    case JObject(o) =>
      var email := FormattedString(o, "email", isEmail);
      var password := RequiredString(o, "password", 1);
      if email.Ok? && password.Ok? then Ok(LoginInput(email.value, password.value))
      else Err(IssueOf(email) + IssueOf(password))
    case _ => Err([RootPath])
  }

  datatype TriageInput = TriageInput(rawInput: string, inputType: InputType, transcript: Option<string>)

  /** The minimum length of a symptom description. */
  const MinRawInputLength: nat := 10

  /** `triageInputSchema`: a description of at least 10 characters, a voice/text input type, an optional transcript. */
  function ParseTriageInput(body: Json): (r: Result<TriageInput, seq<string>>)
    ensures r.Ok? <==> body.JObject?
                       && "rawInput" in body.fields && body.fields["rawInput"].JString?
                       && |body.fields["rawInput"].s| >= MinRawInputLength
                       && "inputType" in body.fields
                       && body.fields["inputType"] in [JString("voice"), JString("text")]
                       && ("transcript" !in body.fields || body.fields["transcript"].JString?)
    ensures r.Ok? ==> body.fields["rawInput"] == JString(r.value.rawInput)
                      && body.fields["inputType"] == JString(InputTypeName(r.value.inputType))
                      && r.value.transcript == (if "transcript" in body.fields then Some(body.fields["transcript"].s) else None)
    ensures r.Err? ==> |r.error| > 0
  {
    match body
    case JObject(o) =>
      var raw := RequiredString(o, "rawInput", MinRawInputLength);
      var inputType := RequiredEnum(o, "inputType", ParseInputType);
      var transcript := OptionalString(o, "transcript");
      if raw.Ok? && inputType.Ok? && transcript.Ok? then
        Ok(TriageInput(raw.value, inputType.value, transcript.value))
      else
        Err(IssueOf(raw) + IssueOf(inputType) + IssueOf(transcript))
    case _ => Err([RootPath])
  }

  datatype UpdateCaseInput = UpdateCaseInput(
    status: Option<CaseStatus>, clinicianNotes: Option<string>, staffOverride: Option<bool>,
    overrideReason: Option<string>, urgencyLevel: Option<Triage.UrgencyLevel>)

  /** `updateCaseSchema`: every field optional; a present status or urgency must be a member of its enum. */
  function ParseUpdateCase(body: Json): (r: Result<UpdateCaseInput, seq<string>>)
    ensures r.Ok? <==> body.JObject?
                       && ("status" !in body.fields
                           || (body.fields["status"].JString? && ParseStatus(body.fields["status"].s).Some?))
                       && ("clinicianNotes" !in body.fields || body.fields["clinicianNotes"].JString?)
                       && ("staffOverride" !in body.fields || body.fields["staffOverride"].JBool?)
                       && ("overrideReason" !in body.fields || body.fields["overrideReason"].JString?)
                       && ("urgencyLevel" !in body.fields
                           || (body.fields["urgencyLevel"].JString?
                               && Triage.IsValidUrgencyLevel(body.fields["urgencyLevel"].s)))
    ensures body == JObject(map[]) ==> r == Ok(UpdateCaseInput(None, None, None, None, None))
    ensures r.Ok? ==> (r.value.status.Some? <==> "status" in body.fields)
                      && (r.value.clinicianNotes.Some? <==> "clinicianNotes" in body.fields)
                      && (r.value.staffOverride.Some? <==> "staffOverride" in body.fields)
                      && (r.value.overrideReason.Some? <==> "overrideReason" in body.fields)
                      && (r.value.urgencyLevel.Some? <==> "urgencyLevel" in body.fields)
    ensures r.Ok? && "clinicianNotes" in body.fields ==>
              body.fields["clinicianNotes"] == JString(r.value.clinicianNotes.value)
    ensures r.Ok? && "staffOverride" in body.fields ==>
              body.fields["staffOverride"] == JBool(r.value.staffOverride.value)
    ensures r.Ok? && "overrideReason" in body.fields ==>
              body.fields["overrideReason"] == JString(r.value.overrideReason.value)
    ensures r.Ok? && "status" in body.fields ==>
              r.value.status.Some? && body.fields["status"] == JString(StatusName(r.value.status.value))
    ensures r.Ok? && "urgencyLevel" in body.fields ==>
              r.value.urgencyLevel.Some?
              && body.fields["urgencyLevel"] == JString(Triage.Name(r.value.urgencyLevel.value))
    ensures body.JObject? && "status" in body.fields && !body.fields["status"].JString? ==> r.Err?
    ensures (body.JObject? && "urgencyLevel" in body.fields && body.fields["urgencyLevel"].JString?
             && !Triage.IsValidUrgencyLevel(body.fields["urgencyLevel"].s)) ==> r.Err?
    ensures r.Err? ==> |r.error| > 0
  {
    match body
    case JObject(o) =>
      var status := OptionalEnum(o, "status", ParseStatus);
      var notes := OptionalString(o, "clinicianNotes");
      var staffOverride := OptionalBool(o, "staffOverride");
      var reason := OptionalString(o, "overrideReason");
      var urgency := OptionalEnum(o, "urgencyLevel", Triage.ParseLevel);
      if status.Ok? && notes.Ok? && staffOverride.Ok? && reason.Ok? && urgency.Ok? then
        Ok(UpdateCaseInput(status.value, notes.value, staffOverride.value, reason.value, urgency.value))
      else
        Err(IssueOf(status) + IssueOf(notes) + IssueOf(staffOverride) + IssueOf(reason) + IssueOf(urgency))
    case _ => Err([RootPath])
  }

  /** The body a client sends for an update: exactly the fields it sets. */
  function UpdateCaseBody(x: UpdateCaseInput): Json {
    JObject(OptionalEntry("status", x.status, st => JString(StatusName(st)))
            + OptionalEntry("clinicianNotes", x.clinicianNotes, s => JString(s))
            + OptionalEntry("staffOverride", x.staffOverride, b => JBool(b))
            + OptionalEntry("overrideReason", x.overrideReason, s => JString(s))
            + OptionalEntry("urgencyLevel", x.urgencyLevel, u => JString(Triage.Name(u))))
  }

  // Each field check finds in an update's body exactly the value the update sets.

  lemma UpdateStatusField(x: UpdateCaseInput)
    ensures OptionalEnum(UpdateCaseBody(x).fields, "status", ParseStatus) == Ok(x.status)
  {
    if x.status.Some? {
      assert ParseStatus(StatusName(x.status.value)) == x.status;
    }
  }

  lemma UpdateNotesField(x: UpdateCaseInput)
    ensures OptionalString(UpdateCaseBody(x).fields, "clinicianNotes") == Ok(x.clinicianNotes)
  {
  }

  lemma UpdateOverrideField(x: UpdateCaseInput)
    ensures OptionalBool(UpdateCaseBody(x).fields, "staffOverride") == Ok(x.staffOverride)
  {
  }

  lemma UpdateReasonField(x: UpdateCaseInput)
    ensures OptionalString(UpdateCaseBody(x).fields, "overrideReason") == Ok(x.overrideReason)
  {
  }

  lemma UpdateUrgencyField(x: UpdateCaseInput)
    ensures OptionalEnum(UpdateCaseBody(x).fields, "urgencyLevel", Triage.ParseLevel) == Ok(x.urgencyLevel)
  {
    if x.urgencyLevel.Some? {
      Triage.ParseName(x.urgencyLevel.value);
    }
  }

  /** The schema reads back every update, whichever fields it sets. */
  lemma UpdateCaseRoundTrip(x: UpdateCaseInput)
    ensures ParseUpdateCase(UpdateCaseBody(x)) == Ok(x)
  {
    UpdateStatusField(x);
    UpdateNotesField(x);
    UpdateOverrideField(x);
    UpdateReasonField(x);
    UpdateUrgencyField(x);
  }

  datatype StructuredData = StructuredData(
    chiefComplaint: string, symptoms: seq<string>, duration: string, onset: string,
    severity: Severity, associatedSymptoms: seq<string>, relevantHistory: Option<string>)

  /** `structuredDataSchema`: string and string-array fields, severity one of mild/moderate/severe. */
  function ParseStructuredData(body: Json): (r: Result<StructuredData, seq<string>>)
    ensures r.Ok? <==> body.JObject?
                       && "chiefComplaint" in body.fields && body.fields["chiefComplaint"].JString?
                       && "symptoms" in body.fields && body.fields["symptoms"].JArray?
                       && AllStrings(body.fields["symptoms"].items)
                       && "duration" in body.fields && body.fields["duration"].JString?
                       && "onset" in body.fields && body.fields["onset"].JString?
                       && "severity" in body.fields && body.fields["severity"].JString?
                       && ParseSeverity(body.fields["severity"].s).Some?
                       && "associatedSymptoms" in body.fields && body.fields["associatedSymptoms"].JArray?
                       && AllStrings(body.fields["associatedSymptoms"].items)
                       && ("relevantHistory" !in body.fields || body.fields["relevantHistory"].JString?)
    ensures r.Ok? ==> && body.fields["chiefComplaint"] == JString(r.value.chiefComplaint)
                      && body.fields["duration"] == JString(r.value.duration)
                      && body.fields["onset"] == JString(r.value.onset)
                      && body.fields["severity"] == JString(SeverityName(r.value.severity))
                      && (r.value.relevantHistory.Some? <==> "relevantHistory" in body.fields)
                      && (r.value.relevantHistory.Some? ==>
                            body.fields["relevantHistory"] == JString(r.value.relevantHistory.value))
    ensures r.Ok? ==> StringsOf(body.fields["symptoms"].items, r.value.symptoms)
                      && StringsOf(body.fields["associatedSymptoms"].items, r.value.associatedSymptoms)
    ensures r.Err? ==> |r.error| > 0
  {
    match body
    case JObject(o) =>
      var complaint := RequiredString(o, "chiefComplaint", 0);
      var symptoms := StringArray(o, "symptoms");
      var duration := RequiredString(o, "duration", 0);
      var onset := RequiredString(o, "onset", 0);
      var severity := RequiredEnum(o, "severity", ParseSeverity);
      var associated := StringArray(o, "associatedSymptoms");
      var history := OptionalString(o, "relevantHistory");
      if complaint.Ok? && symptoms.Ok? && duration.Ok? && onset.Ok? && severity.Ok? && associated.Ok? && history.Ok? then
        Ok(StructuredData(complaint.value, symptoms.value, duration.value, onset.value,
                          severity.value, associated.value, history.value))
      else
        Err(IssueOf(complaint) + IssueOf(symptoms) + IssueOf(duration) + IssueOf(onset)
            + IssueOf(severity) + IssueOf(associated) + IssueOf(history))
    case _ => Err([RootPath])
  }

  /** The structured data as a JSON object, an absent history left out. */
  function StructuredDataBody(x: StructuredData): Json {
    JObject(map["chiefComplaint" := JString(x.chiefComplaint), "symptoms" := Strings(x.symptoms),
                "duration" := JString(x.duration), "onset" := JString(x.onset),
                "severity" := JString(SeverityName(x.severity)),
                "associatedSymptoms" := Strings(x.associatedSymptoms)]
            + OptionalEntry("relevantHistory", x.relevantHistory, s => JString(s)))
  }

  // Each field check finds in a structured record's body exactly the value the record holds.

  lemma StructuredScalarFields(x: StructuredData)
    ensures RequiredString(StructuredDataBody(x).fields, "chiefComplaint", 0) == Ok(x.chiefComplaint)
    ensures RequiredString(StructuredDataBody(x).fields, "duration", 0) == Ok(x.duration)
    ensures RequiredString(StructuredDataBody(x).fields, "onset", 0) == Ok(x.onset)
  {
  }

  lemma StructuredSeverityField(x: StructuredData)
    ensures RequiredEnum(StructuredDataBody(x).fields, "severity", ParseSeverity) == Ok(x.severity)
  {
    assert StructuredDataBody(x).fields["severity"] == JString(SeverityName(x.severity));
    assert ParseSeverity(SeverityName(x.severity)) == Some(x.severity);
  }

  /** An array holds the strings of at most one sequence. */
  lemma StringsOfUnique(items: seq<Json>, xs: seq<string>, ys: seq<string>)
    requires StringsOf(items, xs) && StringsOf(items, ys)
    ensures xs == ys
  {
    assert forall i :: 0 <= i < |xs| ==> JString(xs[i]) == items[i] == JString(ys[i]);
  }

  lemma StructuredArrayFields(x: StructuredData)
    ensures StringArray(StructuredDataBody(x).fields, "symptoms") == Ok(x.symptoms)
    ensures StringArray(StructuredDataBody(x).fields, "associatedSymptoms") == Ok(x.associatedSymptoms)
  {
    var o := StructuredDataBody(x).fields;
    assert o["symptoms"] == Strings(x.symptoms);
    StringsOfUnique(o["symptoms"].items, StringArray(o, "symptoms").value, x.symptoms);
    assert o["associatedSymptoms"] == Strings(x.associatedSymptoms);
    StringsOfUnique(o["associatedSymptoms"].items, StringArray(o, "associatedSymptoms").value, x.associatedSymptoms);
  }

  lemma StructuredHistoryField(x: StructuredData)
    ensures OptionalString(StructuredDataBody(x).fields, "relevantHistory") == Ok(x.relevantHistory)
  {
  }

  /** The schema reads back every structured record whose severity is one of its three. */
  lemma StructuredDataRoundTrip(x: StructuredData)
    ensures ParseStructuredData(StructuredDataBody(x)) == Ok(x)
  {
    StructuredScalarFields(x);
    StructuredSeverityField(x);
    StructuredArrayFields(x);
    StructuredHistoryField(x);
  }

  /**
   * The classifier is asked for a severity of mild, moderate, severe or critical, but the
   * structured-data schema rejects "critical", whatever the other fields hold.
   */
  lemma CriticalSeverityRejected(o: map<string, Json>)
    requires "severity" in o && o["severity"] == JString("critical")
    ensures ParseStructuredData(JObject(o)).Err?
    ensures "severity" in ParseStructuredData(JObject(o)).error
  {
  }
}
