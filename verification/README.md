# Triage web app: a Dafny model of its decision rules

This project models the logic of a patient triage web application. A patient describes
symptoms by typing or by voice. The server asks a language model for an urgency level and
stores the case. Staff see all cases on a dashboard, sorted by urgency. Everything around
the logic is a parameter: the model call, speech-to-text, JSON parsing, token signing,
password hashing, the clock and the database write outcomes.

The model is built from immutable datatypes and pure functions. Each route is a function
from the request and the store to a response and, where the route writes, the new store.

| module | file | what it models |
|---|---|---|
| `Wrappers`, `Json`, `Text`, `Seqs`, `Ordering` | wrappers.dfy, json.dfy, text.dfy, seqs.dfy, ordering.dfy | the JavaScript behaviour the code relies on: truthiness, `x \|\| d`, `x?.f`, `trim`, ASCII `toLowerCase`, `includes`, `padStart`, `filter` and the stable `Array.prototype.sort` that section 23.1.3.30 of ECMA-262 (2023) requires |
| `Triage` | triage.dfy | the urgency vocabulary, priorities, trimming, red-flag keywords and follow-up advice |
| `Validators` | validators.dfy | the five request schemas, as result functions that list the failing fields |
| `Classifier` | classifier.dfy | validating and normalising the model's reply, and the error-message mapping |
| `Store`, `Session` | store.dfy, session.dfy | the records (users, cases, audit rows) and bearer-token authentication |
| `TriageRoute` | triage_route.dfy | `POST /api/triage` as a store transformer that records the side effects it attempts |
| `CasesRoute` | cases_route.dfy | `GET /api/cases`: filters scoped by role, newest-first order, and a priority sort for staff |
| `CaseRoute` | case_route.dfy | `GET` and `PATCH /api/cases/[id]`: owner-only reads for patients, staff-only updates, the resolution timestamp |
| `Dashboard` | dashboard.dfy | the staff dashboard's filters, counters, card toggles and active-filter count |
| `Transcribe` | transcribe.dfy | `POST /api/transcribe`: presence check, MIME whitelist, 25 MB limit; the recorder's MIME choice |
| `TriageForm` | triage_form.dfy | the symptom form's text gate and the payloads it submits |
| `VoiceRecorder` | voice_recorder.dfy | the recording timer's `m:ss` display |
| `AuthRoutes` | auth_routes.dfy | registration and login decisions over the user store |

## Model

| member | source | states |
|---|---|---|
| Text.Trim | lib/triage.ts:11 | the result is a contiguous slice of the input, only whitespace is cut away on either side, and the result neither starts nor ends with whitespace |
| Text.TrimIdempotent | lib/triage.ts:6-12 | trimming a trimmed string changes nothing |
| Text.Decimal | components/VoiceRecorderButton.tsx:117-119 | a non-negative number renders as decimal digits with no leading zero, as one digit exactly below 10 |
| Text.ParseDecimal | components/VoiceRecorderButton.tsx:117-119 | reading the rendered digits back gives the number |
| Text.PadStartZero | components/VoiceRecorderButton.tsx:119 | `padStart(width, '0')` keeps the string as a suffix, fills only with zeros and reaches the width |
| Text.MessageOr | app/api/auth/register/route.ts:61 | an empty thrown message is replaced by the route's fallback text, any other is kept |
| Triage.ParseLevel | lib/triage.ts:17-19 | a recognised name is the name of the level returned, and an unrecognised name belongs to no level |
| Triage.ParseName | lib/triage.ts:17-19 | every level's name is recognised as that level |
| Triage.IsValidUrgencyLevel | lib/triage.ts:17-19 | true exactly for the four names in the list, that is, exactly for the names of the four levels |
| Triage.Priority | lib/triage.ts:24-31 | the priority is at most 4, and it is 0 exactly for strings that are not a level name |
| Triage.PriorityOrder | lib/triage.ts:25-31 | EMERGENCY > URGENT_VISIT > CLINIC_VISIT > SELF_CARE > any other string, which gets 0 |
| Triage.PriorityInjective | lib/triage.ts:25-30 | distinct levels have distinct priorities |
| Triage.PreprocessInput | lib/triage.ts:6-12 | the input with leading and trailing whitespace removed, and no longer than it |
| Triage.PreprocessIdempotent | lib/triage.ts:6-12 | preprocessing twice equals preprocessing once |
| Triage.SomeIncludesMentioned | lib/triage.ts:53-56 | the `some` scan over the lower-cased symptoms is true exactly when some symptom, lower-cased, contains the keyword |
| Triage.KeywordsDistinct | lib/triage.ts:40-50 | the keyword list has no repeats |
| Triage.DetectRedFlags | lib/triage.ts:37-62 | a keyword is reported iff it is in the list and some lower-cased symptom contains it; the report is a duplicate-free subsequence of the list; no symptoms give no flags |
| Triage.RedFlagsAsFilter | lib/triage.ts:52-61 | the keyword list filtered by "mentioned" has the membership, order and no-duplicate properties reported for `DetectRedFlags` |
| Triage.FollowUpRecommendation | lib/triage.ts:67-76 | the advice for EMERGENCY tells the patient to "Call 911" |
| Triage.FollowUpDistinct | lib/triage.ts:68-73 | the four levels get four different texts, so the advice determines the level |
| Triage.EmergencyAdviceCalls911 | lib/triage.ts:72 | the EMERGENCY advice contains "Call 911" |
| Validators.ParseRole | lib/validators.ts:10 | a recognised role string is that role's name; an unrecognised one names no role |
| Validators.ParseInputType | lib/validators.ts:21 | a recognised input type is "voice" or "text" and names the value returned |
| Validators.ParseStatus | lib/validators.ts:26 | a recognised status string is that status's name; an unrecognised one names no status |
| Validators.ParseSeverity | lib/validators.ts:39 | a recognised severity is mild, moderate or severe and names the value returned |
| Validators.RequiredString | lib/validators.ts:20 | accepted iff the field is a string of at least the minimum length; the value is that string; a failure names the field |
| Validators.FormattedString | lib/validators.ts:5 | accepted iff the field is a string the format check accepts; a failure names the field |
| Validators.OptionalString | lib/validators.ts:8-9 | accepted iff the field is absent or a string, so null is refused; absent gives None |
| Validators.OptionalBool | lib/validators.ts:28 | accepted iff the field is absent or a boolean; absent gives none, and a boolean gives that boolean |
| Validators.RequiredEnum | lib/validators.ts:21 | accepted iff the field is a string the enum recognises; the value is the member it names |
| Validators.OptionalEnum | lib/validators.ts:26 | accepted iff the field is absent or a string the enum recognises |
| Validators.StringArray | lib/validators.ts:36 | accepted iff the field is an array of strings; the value has the same strings in the same order |
| Validators.IssueOf | lib/validators.ts:4-11 | a failed field contributes its name to the issue list, an accepted one nothing |
| Validators.ParseRegister | lib/validators.ts:4-11 | accepted iff the body is an object whose email is a formatted string, password a string of at least 8 and name a string of at least 2 characters, whose phone and dateOfBirth are absent or strings, and whose role is absent or PATIENT/STAFF/ADMIN; the values are the body's, an absent phone or date of birth stays unset and an absent role gives PATIENT |
| Validators.RegisterRoundTrip | lib/validators.ts:4-11 | every registration meeting the constraints, sent as a body with its set fields, is read back unchanged |
| Validators.RegisterRejects | lib/validators.ts:6-10 | a short password or a role outside PATIENT/STAFF/ADMIN rejects the registration and is named among the issues |
| Validators.ParseLogin | lib/validators.ts:13-16 | accepted iff the email is formatted and the password is a non-empty string, so an empty password is refused |
| Validators.ParseTriageInput | lib/validators.ts:19-23 | accepted iff rawInput is a string of at least 10 characters, inputType is "voice" or "text", and transcript is absent or a string; the accepted description, input type and transcript are the body's own values, with no transcript when it is absent |
| Validators.ParseUpdateCase | lib/validators.ts:25-31 | accepted iff the body is an object in which each of the five fields is absent or well-typed, status and urgencyLevel naming a member of their enum; a field is set in the result iff it is present in the body, with the body's value; the empty object gives the all-unset update |
| Validators.UpdateCaseRoundTrip | lib/validators.ts:25-31 | every update, sent as a body holding exactly the fields it sets, is read back unchanged |
| Validators.ParseStructuredData | lib/validators.ts:34-42 | accepted iff the body is an object with string chiefComplaint, duration and onset, string arrays symptoms and associatedSymptoms, severity mild/moderate/severe and relevantHistory absent or a string; every accepted field equals the body's, the arrays element by element |
| Validators.StructuredDataRoundTrip | lib/validators.ts:34-42 | every structured record, sent as a body, is read back unchanged |
| Validators.CriticalSeverityRejected | lib/validators.ts:39 | severity "critical", which the prompt at lib/groq.ts:169 offers the model, is always rejected and reported |
| Classifier.CoerceLevel | lib/groq.ts:68-72 | a level name passes through unchanged; anything else becomes CLINIC_VISIT |
| Classifier.Normalise | lib/groq.ts:62-81 | succeeds iff the reply is an object with truthy urgencyLevel and aiSummary; aiSummary is kept; falsy structuredData, redFlags, rationale and recommendedAction get their defaults and truthy ones pass through; a null reply throws a TypeError |
| Classifier.Interpret | lib/groq.ts:53-81 | a failed call rethrows its error; an absent or empty reply throws the empty-response error; unparsable text throws a SyntaxError; parsed text gives exactly the normalisation of the parsed value, and a result comes only from there |
| Classifier.UserMessage | lib/groq.ts:86-97 | "API key" wins first, then "rate limit", then SyntaxError, and otherwise the message gets the "Triage processing failed: " prefix; the message is never empty |
| Classifier.ProcessTriage | lib/groq.ts:53-97 | the result when the reply was interpreted, and otherwise the user-facing message of the error |
| Classifier.EmptyReplyFails | lib/groq.ts:53-57 | an absent or empty reply fails with "Triage processing failed: Empty response from LLaMA" |
| Classifier.EmptyResponseMessage | lib/groq.ts:87-97 | the empty-response message mentions neither an API key nor a rate limit, so it takes the generic prefix |
| Classifier.FalsyRequiredFieldFails | lib/groq.ts:63-65 | a falsy urgencyLevel or aiSummary never yields a result |
| Classifier.LevelRepair | lib/groq.ts:68-76 | with both required fields truthy the reply succeeds; a valid level is kept and any other becomes CLINIC_VISIT |
| Classifier.ErrorPrecedence | lib/groq.ts:87-95 | a message mentioning "API key" gives the key message even for a SyntaxError |
| Classifier.SyntaxErrorMessage | lib/groq.ts:60 | unparsable reply text gives the parse-failure message |
| Session.Token | app/api/triage/route.ts:13-16 | a token counts only when extracted and non-empty |
| Session.Authenticate | app/api/triage/route.ts:13-29 | a missing token gives "authentication required" and an unverifiable one "invalid token"; otherwise the session is the verified payload |
| TriageRoute.ErrorText | app/api/triage/route.ts:86 | the error text is never empty and is the thrown message when that is non-empty |
| TriageRoute.NewCase | app/api/triage/route.ts:43-54 | the case keeps the untrimmed rawInput, the validated inputType and transcript, the caller's id, and the classifier's level, summary, red flags, rationale and structured data |
| TriageRoute.Submit | app/api/triage/route.ts:37-81 | the effects are a non-empty prefix of classify, insert case, insert audit, with the classifier given the trimmed text; 201 iff the classifier answers and both writes succeed, and then the new case is built from the input, the caller and the classifier's result, the audit row holds the trimmed prompt and that same result, and the answer carries the case, the success message and the classifier's level; otherwise writes append at most one row each; a classifier failure answers 500 with the classifier's user-facing message and writes nothing; a failed write answers 500 with that write's message, or "Triage processing failed" when it is empty |
| TriageRoute.Post | app/api/triage/route.ts:8-90 | 401 iff the token is missing or unverifiable, and then nothing happens; effects only after a valid body; writes only append; 201 iff an audit row was added, which is linked to the new case; on 201 the stored case, the audit row and the answer are those built from the caller's id, the validated input and the classifier's result; users unchanged; the 401 body says whether the token was missing or invalid; an unreadable body answers 500 with its message; past validation the answer is that of the remaining steps |
| TriageRoute.InvalidBodyIs500 | app/api/triage/route.ts:34 | a body that fails validation gives 500, not 400, with no effects and the store unchanged |
| TriageRoute.ClassifierFailureWritesNothing | app/api/triage/route.ts:39-88 | a classifier failure gives 500, leaves the store unchanged, and the only effect is the classification; the answer carries the classifier's user-facing message |
| TriageRoute.AuditFailureLeavesCase | app/api/triage/route.ts:43-75 | when the audit write fails after the case write, the answer is 500 and the case row stays without an audit row |
| TriageRoute.SuccessfulSubmission | app/api/triage/route.ts:37-81 | for an authenticated caller with a valid body, 201 iff the classifier answers and both writes succeed; then the store gains exactly the case built from the untrimmed input and the classifier's result and the audit row with the trimmed prompt and that result, and the answer carries the case and the classifier's level |
| TriageRoute.BlankDescriptionReachesClassifier | app/api/triage/route.ts:34-40 | the length check applies to the untrimmed text, so ten blanks pass it and the classifier is asked about the empty string |
| CasesRoute.Truthy | app/api/cases/route.ts:39 | a query parameter applies iff it is present and non-empty |
| CasesRoute.BuildWhere | app/api/cases/route.ts:34-50 | a patient is pinned to their own id whatever the query says; other roles filter by userId only when it is given; status and urgency apply when given |
| CasesRoute.Fetch | app/api/cases/route.ts:53-67 | the store read returns the matching cases, each as often as stored, newest first |
| CasesRoute.List | app/api/cases/route.ts:34-76 | the result is a permutation of the matching cases; a patient sees only their own cases, newest first; staff see non-increasing priority, newest first within a priority |
| CasesRoute.Get | app/api/cases/route.ts:6-87 | 401 iff authentication fails; 200 with the listing iff the read succeeds; otherwise 500; the 401 body is the denial and a failed read answers with its message or "Failed to fetch cases" |
| CasesRoute.ListedIffMatching | app/api/cases/route.ts:44-53 | a case is listed iff it is stored and matches the owner, status and urgency conditions |
| CasesRoute.PatientUserIdIgnored | app/api/cases/route.ts:37-38 | a patient's listing does not depend on the userId parameter |
| CasesRoute.StaffSeeEverything | app/api/cases/route.ts:39-42 | staff without parameters see every stored case |
| CasesRoute.EmptyParameterIgnored | app/api/cases/route.ts:44-50 | an empty status or urgency parameter lists the same as an absent one |
| CasesRoute.EmergencyPrefix | app/api/cases/route.ts:70-75 | in a list sorted by priority, everything before an emergency case is an emergency case |
| CasesRoute.EmergenciesFirst | app/api/cases/route.ts:70-75 | in a staff listing, every case before an emergency case is an emergency case |
| CasesRoute.StaffListingCharacterised | app/api/cases/route.ts:64-75 | any list sorted by priority that keeps each priority's newest-first order is the staff listing |
| Ordering.SortDesc | app/api/cases/route.ts:71-75 | the sort is a permutation of its input with non-increasing keys |
| Ordering.SortDescStable | app/api/cases/route.ts:71-75 | the elements of each key keep their input order, which is the stability the standard requires |
| Ordering.SortDescOfSorted | app/api/cases/route.ts:70-75 | sorting an already sorted list leaves it unchanged |
| Ordering.SortDescIdempotent | app/api/cases/route.ts:70-75 | sorting twice equals sorting once |
| Ordering.StableSortUnique | app/api/cases/route.ts:71-75 | two lists sorted by key whose per-key subsequences agree are equal |
| Ordering.StableSortCharacterisation | app/api/cases/route.ts:71-75 | the stable sort is the only key-sorted list with the input's per-key subsequences |
| Ordering.BandOfSorted | app/api/cases/route.ts:64-75 | the cases of one priority taken from a newest-first list are still newest first |
| Seqs.Filter | app/staff/dashboard/page.tsx:85 | `filter` keeps exactly the elements satisfying the predicate |
| Seqs.FilterIsSubsequence | app/staff/dashboard/page.tsx:81-91 | filtering keeps the order of the elements it keeps |
| Seqs.FilterFilter | app/staff/dashboard/page.tsx:84-91 | two filters in a row equal one filter by the conjunction |
| Seqs.Count | app/staff/dashboard/page.tsx:55-57 | a count is at most the length, and 0 iff no element satisfies the predicate |
| Seqs.CountIsFilterLength | app/staff/dashboard/page.tsx:55-57 | the count equals the length of the filtered list |
| Dashboard.ApplyFilters | app/staff/dashboard/page.tsx:80-94 | the listed cases pass both selectors, and every loaded case passing both is listed |
| Dashboard.StatsOf | app/staff/dashboard/page.tsx:55-71 | total is the number of cases; emergency, urgent, open and distressed are exactly the numbers of cases at EMERGENCY, at URGENT_VISIT, with status OPEN and with an emotional state of distressed or panicked; emergency plus urgent does not exceed the total |
| Dashboard.LevelCountsDisjoint | app/staff/dashboard/page.tsx:55-56 | no case counts as both emergency and urgent |
| Dashboard.CardsCountTheirSelection | app/staff/dashboard/page.tsx:124-149 | the emergency, urgent and open counters equal the lengths of the lists shown once their card is selected |
| Dashboard.Load | app/staff/dashboard/page.tsx:32-78 | no token means a redirect to login; a failed fetch keeps the state; a fetch installs the cases and exactly their counters and keeps the selectors |
| Dashboard.ToggleLevel | app/staff/dashboard/page.tsx:125 | the selected level goes back to all, any other setting selects the level, nothing else changes |
| Dashboard.ToggleOpen | app/staff/dashboard/page.tsx:143 | OPEN goes back to all, any other status setting becomes OPEN, nothing else changes |
| Dashboard.ClearFilters | app/staff/dashboard/page.tsx:96-99 | both selectors are all, so the active count is 0; cases and counters are kept |
| Dashboard.ActiveFilters | app/staff/dashboard/page.tsx:101 | the count is at most 2; it is 0 iff both selectors are all and 2 iff both are set |
| Dashboard.DisplayedIsSelection | app/staff/dashboard/page.tsx:80-93 | the listed cases are an order-preserving subsequence of the loaded ones, and a case is listed iff it passes both selectors |
| Dashboard.NoFiltersShowsAll | app/staff/dashboard/page.tsx:84-93 | with both selectors at all, the list is the loaded cases unchanged |
| Dashboard.FiltersCommute | app/staff/dashboard/page.tsx:84-91 | filtering by status first gives the same list |
| Dashboard.EmergencyCardMatchesCounter | app/staff/dashboard/page.tsx:55 | after a load, one click on the emergency card lists as many cases as its counter shows, and a second click lists all of them again |
| Dashboard.ToggleTwice | app/staff/dashboard/page.tsx:125 | two clicks on the same card restore the selector |
| Dashboard.ShowingAtMostTotal | app/staff/dashboard/page.tsx:201 | after a load the list is never longer than the total counter |
| Transcribe.TranscribeAudio | lib/groq.ts:12-27 | the provider's text on success, otherwise its message behind "Transcription failed: " |
| Transcribe.Upload | app/api/transcribe/route.ts:4-53 | a missing or empty part gives 400 "No audio file provided"; a part that is not a whitelisted file gives 400 with the format message; a whitelisted file over 25 MB gives 400 "Audio file too large"; 400 iff the part fails one of these checks; 200 iff it passes them and the provider transcribes it, and then the reply echoes the transcript, size and type; an unreadable form gives 500 with its message |
| Transcribe.RecorderType | components/VoiceRecorderButton.tsx:32-34 | when webm is supported, the recorder's type is on the server's whitelist |
| Transcribe.RejectionsSkipProvider | app/api/transcribe/route.ts:9-32 | every 400 answer does not depend on the provider, so no transcription was attempted |
| Transcribe.TypeCheckedBeforeSize | app/api/transcribe/route.ts:17-32 | an oversized file of the wrong type gets the format error |
| Transcribe.SizeLimitInclusive | app/api/transcribe/route.ts:26-32 | exactly 26214400 bytes pass the size check; one byte more is refused |
| Transcribe.RecorderFallbackRejected | components/VoiceRecorderButton.tsx:32-34 | the 'audio/mp4' fallback is never on the whitelist, so such recordings are refused |
| Transcribe.ProviderFailure | app/api/transcribe/route.ts:46-50 | a provider failure gives 500 with the prefixed provider message |
| TriageForm.HandleTextSubmit | components/TriageForm.tsx:14-21 | submits iff the trimmed text has at least 10 characters, and then sends the text untrimmed as inputType text |
| TriageForm.HandleVoiceTranscript | components/TriageForm.tsx:23-30 | a transcript is submitted as it is, as inputType voice, with no length gate |
| TriageForm.Encode | components/TriageForm.tsx:20 | the body carries exactly rawInput and inputType |
| TriageForm.ServerReadsSubmission | lib/validators.ts:19-23 | the server reads back what the form sends iff the text has at least 10 characters |
| TriageForm.AcceptedTextPassesServer | components/TriageForm.tsx:16-20 | text the form accepts always passes the server's length check |
| TriageForm.ShortTranscriptRefused | components/TriageForm.tsx:23-29 | a transcript shorter than 10 characters is sent anyway and refused by the server |
| VoiceRecorder.Seconds | components/VoiceRecorderButton.tsx:118-119 | the seconds field is exactly two digits that read back as the seconds |
| VoiceRecorder.FormatTime | components/VoiceRecorderButton.tsx:116-120 | the display is the minutes in decimal, a colon, and two digits reading back as the seconds mod 60 |
| VoiceRecorder.ReadFormatTime | components/VoiceRecorderButton.tsx:116-120 | reading the display back as minutes·60 + seconds gives the elapsed time |
| VoiceRecorder.FormatTimeInjective | components/VoiceRecorderButton.tsx:116-120 | distinct elapsed times are displayed differently |
| VoiceRecorder.FormatZero | components/VoiceRecorderButton.tsx:54 | the display after a reset is "0:00" |
| AuthRoutes.FindByEmail | app/api/auth/register/route.ts:14-16 | the lookup finds a stored user with that email, and finds none iff no user has it |
| AuthRoutes.NewUser | app/api/auth/register/route.ts:29-37 | the new row has the given email, name, phone and role, the hashed password, and a null date of birth when none is given |
| AuthRoutes.Register | app/api/auth/register/route.ts:6-65 | 201 iff the body validates, the email is unused and the insert succeeds, and then exactly that user is appended and returned without its password along with a token; every failure gives 400 and leaves the store unchanged; a taken email gives "User with this email already exists"; unique emails are preserved |
| AuthRoutes.Login | app/api/auth/login/route.ts:6-59 | 400 iff the body fails; 401 with "Invalid email or password" for an unknown email or a wrong password; 200 iff the stored user's password verifies, and then the reply carries the public user and a token for its id, email and role |
| AuthRoutes.UnknownEmailLooksLikeWrongPassword | app/api/auth/login/route.ts:18-33 | an unknown email and a wrong password give identical responses |
| AuthRoutes.RegisterThenLogin | app/api/auth/login/route.ts:14-40 | after a registration, logging in with the same email and password succeeds whenever the hash verifies its password |
| AuthRoutes.FindAppended | app/api/auth/register/route.ts:29-37 | after the insert, the lookup by the new email finds the new user |

## Case-detail route

The members of `CaseRoute` model `app/api/cases/[id]/route.ts`. The table below cites that
file's lines in the same way as the table above.

| member | lines of app/api/cases/[id]/route.ts | states |
|---|---|---|
| CaseRoute.Find | 31-46 | the lookup gives the first position holding the id, and none iff no case has it |
| CaseRoute.Apply | 110-115 | a field the update sets replaces the stored one and an unset one keeps it; the submission and the classifier's output other than the level are kept; the resolution time is stamped iff the update sets status RESOLVED |
| CaseRoute.Get | 6-72 | 401 iff authentication fails; 500 iff the read fails; 404 iff no case has the id; 403 iff a patient asks for another patient's case; a 200 answer is the stored case with that id, which a patient owns; each error answer carries its message: the denial, the read's message or the fallback, "Case not found", "Unauthorized" |
| CaseRoute.Patch | 74-136 | 401 iff authentication fails; 403 iff the caller is a patient; 200 iff the body validates, the write succeeds and the case exists, and then exactly that case is rewritten by the update and returned; any other answer leaves the store unchanged; the 401 body is the denial, the 403 body the staff-only message, and a staff request that fails after authentication answers 500 with the parse message, the validation issues or the write's message |
| CaseRoute.EmptyUpdateKeepsCase | 110-115 | an update that sets nothing leaves the case as it was |
| CaseRoute.ApplyIdempotent | 110-115 | applying the same update twice at the same instant equals applying it once |
| CaseRoute.ResolvedAtOnlyOnResolve | 114 | only an update to RESOLVED changes the resolution time; moving a case to IN_PROGRESS keeps it |
| CaseRoute.FindAfterUpdate | 110-111 | rewriting a found case with one of the same id keeps it at the same position |
| CaseRoute.PatchThenGet | 31-63 | after a successful update, reading the case back by its id gives the updated case |
| CaseRoute.StaffReadAnyCase | 55-63 | staff can read every stored case by its id |

## Left out

- The language-model and speech-to-text calls, the prompt text and model parameters are left out. The call's outcome is a parameter: a thrown error, or the reply content.
- `JSON.parse` and `request.json()` are parameters. Their failure is a message, which the model treats as a SyntaxError where the code distinguishes one.
- `JSON.stringify` of the classifier result for the audit row is left out. The audit row keeps the result value itself.
- JSON numbers are integers. Floating point, NaN and `-0` are not modelled; `0` is the only falsy number.
- Prisma is replaced by an in-memory store. Column-type validation, database-generated ids and defaults, the `include: { user }` join, and connection failures are not modelled. A write's outcome is a parameter.
- The database schema's default status for a new case is not modelled. It is a parameter.
- A cases filter value that is not an enum name makes Prisma throw. The model instead compares strings exactly, so such a value matches nothing.
- The database does not specify the order of cases with equal `createdAt`. The model keeps store order for them.
- Dates are kept as strings. `new Date(dateOfBirth)` and an invalid date's failure are not modelled; an empty or absent date is stored as null.
- The register route checks the email and then inserts. Two concurrent registrations can race between the two steps; concurrency is not modelled.
- `lib/auth` is not part of this model. Token extraction, token verification, password hashing, password checking and token signing are uninterpreted functions, and so is zod's email-format check.
- zod's issue messages are reduced to the names of the failing fields. The JSON text of a ZodError message is not modelled.
- `getUrgencyPriority` looks a string up in an object literal. Keys inherited from `Object.prototype`, such as "constructor", are not modelled; every string outside the four levels gets 0.
- String lengths count characters, not UTF-16 code units. `toLowerCase` lowers ASCII letters only, and `trim` uses the ECMAScript whitespace set.
- React rendering and hooks are left out, as are `localStorage`, `fetch`, redirects other than the dashboard's login redirect, `alert`, `setTimeout`, `setInterval`, `MediaRecorder` and microphone access. The dashboard's fetch result is a parameter.
- Logging (`console.log`, `console.warn`, `console.error`) is left out.
- The recorder's MIME choice is modelled; the rest of the recorder component is not.
- The processing time written to the audit row is a parameter. The clock is not modelled.
- Presentational components and pages are left out; they only render state the modelled functions compute.
- The case-detail route's join of the case's user, AI outputs and notifications is left out; the answer carries the case row alone. A PATCH for an id with no case makes the store throw; the model answers 500 with the route's fallback text, because the store's error message is not modelled.
- A new case's review columns (clinician notes, staff override, override reason, resolution time) are unset until a staff update writes them; the database schema's defaults for them are not modelled.
