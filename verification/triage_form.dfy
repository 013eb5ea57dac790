/**
 * The symptom form: what it submits for typed text (after a client-side length gate) and for
 * a voice transcript (without one), and how that payload fares against the server's schema.
 */
module TriageForm {
  import opened Wrappers
  import opened Json
  import Text
  import V = Validators

  /** The payload handed to `onSubmit`. */
  datatype Submission = Submission(rawInput: string, inputType: V.InputType)

  const TooShortAlert: string := "Please provide more details about your symptoms (at least 10 characters)"

  /** The minimum trimmed length the form asks for. */
  const MinTextLength: nat := 10

  /** `handleTextSubmit`: refuse with an alert when the trimmed text is shorter than 10, else submit the text untrimmed. */
  function HandleTextSubmit(text: string): (r: Result<Submission, string>)
    ensures r.Ok? <==> |Text.Trim(text)| >= MinTextLength
    ensures r.Ok? ==> r.value == Submission(text, V.TextEntry)
    ensures r.Err? ==> r.error == TooShortAlert
  {
    if |Text.Trim(text)| < MinTextLength then Err(TooShortAlert) else Ok(Submission(text, V.TextEntry))
  }

  /** `handleVoiceTranscript`: the transcript is submitted as it is, whatever its length. */
  function HandleVoiceTranscript(transcript: string): (s: Submission)
    ensures s.rawInput == transcript && s.inputType == V.Voice
  {
    Submission(transcript, V.Voice)
  }

  /** The JSON body the submission is sent as. */
  function Encode(s: Submission): (body: Json)
    ensures body.JObject? && body.fields.Keys == {"rawInput", "inputType"}
    ensures body.fields["rawInput"] == JString(s.rawInput)
    ensures body.fields["inputType"] == JString(V.InputTypeName(s.inputType))
  {
    JObject(map["rawInput" := JString(s.rawInput), "inputType" := JString(V.InputTypeName(s.inputType))])
  }

  // ---- the form against the server's schema ----

  /** The server reads back what the form sends whenever the description is long enough, and refuses it otherwise. */
  lemma ServerReadsSubmission(s: Submission)
    ensures |s.rawInput| >= V.MinRawInputLength ==>
              V.ParseTriageInput(Encode(s)) == Ok(V.TriageInput(s.rawInput, s.inputType, None))
    ensures |s.rawInput| < V.MinRawInputLength ==> V.ParseTriageInput(Encode(s)).Err?
  {
    var body := Encode(s);
    assert "transcript" !in body.fields;
    if |s.rawInput| >= V.MinRawInputLength {
      var r := V.ParseTriageInput(body);
      assert r.Ok?;
      assert V.InputTypeName(r.value.inputType) == V.InputTypeName(s.inputType);
    }
  }

  /** Text the form accepts also passes the server's length check, since trimming never lengthens a string. */
  lemma AcceptedTextPassesServer(text: string)
    requires HandleTextSubmit(text).Ok?
    ensures V.ParseTriageInput(Encode(HandleTextSubmit(text).value)) == Ok(V.TriageInput(text, V.TextEntry, None))
  {
    ServerReadsSubmission(HandleTextSubmit(text).value);
  }

  /** A voice transcript shorter than 10 characters is sent anyway and refused by the server. */
  lemma ShortTranscriptRefused(transcript: string)
    requires |transcript| < V.MinRawInputLength
    ensures V.ParseTriageInput(Encode(HandleVoiceTranscript(transcript))).Err?
  {
    ServerReadsSubmission(HandleVoiceTranscript(transcript));
  }
}
