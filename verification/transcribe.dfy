/**
 * The audio upload endpoint `POST /api/transcribe` and the recorder's choice of audio type.
 * The upload passes three checks in order (presence, type whitelist, size limit) before the
 * speech-to-text provider is called; the provider is a parameter.
 */
module Transcribe {
  import opened Wrappers
  import Text

  /** An uploaded file part: its name, MIME type and size in bytes. */
  datatype AudioFile = AudioFile(name: string, mimeType: string, size: nat)

  /** What `formData.get('audio')` gives: a file, or a plain text field of the same name. */
  datatype FormEntry = FileEntry(file: AudioFile) | TextEntry(text: string)

  datatype Body =
    | Error(message: string)
    | Transcribed(transcript: string, success: bool, audioSize: nat, audioType: string)

  datatype Response = Response(status: nat, body: Body)

  const ValidTypes: seq<string> := ["audio/webm", "audio/wav", "audio/mp3", "audio/mpeg", "audio/ogg"]

  /** 25 MB, the provider's limit. */
  const MaxSize: nat := 25 * 1024 * 1024

  const NoAudioMessage: string := "No audio file provided"
  const TooLargeMessage: string := "Audio file too large. Maximum size is 25MB"
  const FailurePrefix: string := "Transcription failed: "
  const DefaultError: string := "Transcription failed"

  /** The format error lists the whitelist, comma-separated. */
  function FormatMessage(): string {
    "Invalid audio format. Supported: " + Text.Join(ValidTypes, ", ")
  }

  /** `transcribeAudio`: the provider's text, or its error message behind a fixed prefix. */
  function TranscribeAudio(provider: AudioFile -> Result<string, string>, f: AudioFile): (r: Result<string, string>)
    ensures provider(f).Ok? <==> r.Ok?
    ensures r.Ok? ==> r.value == provider(f).value
    ensures r.Err? ==> r.error == FailurePrefix + provider(f).error
  {
    match provider(f)
    case Ok(text) => Ok(text)
    case Err(message) => Err(FailurePrefix + message)
  }

  /** The entry's MIME type; a text field has no `type` and so never matches the whitelist. */
  function EntryType(e: FormEntry): Option<string> {
    if e.FileEntry? then Some(e.file.mimeType) else None
  }

  /** A form entry is falsy only when it is missing or an empty text field. */
  predicate Provided(e: Option<FormEntry>) {
    e.Some? && !(e.value.TextEntry? && e.value.text == "")
  }

  /**
   * `POST`: `form` is the parsed multipart body's `audio` entry, or the parse error message;
   * `provider` is the speech-to-text call.
   */
  function Upload(form: Result<Option<FormEntry>, string>, provider: AudioFile -> Result<string, string>): (resp: Response)
    ensures resp.status in {200, 400, 500}
    ensures form.Ok? && !Provided(form.value) ==> resp == Response(400, Error(NoAudioMessage))
    ensures form.Ok? && Provided(form.value)
            && (EntryType(form.value.value).None? || EntryType(form.value.value).value !in ValidTypes) ==>
              resp == Response(400, Error(FormatMessage()))
    ensures form.Ok? && Provided(form.value) && form.value.value.FileEntry?
            && form.value.value.file.mimeType in ValidTypes && form.value.value.file.size > MaxSize ==>
              resp == Response(400, Error(TooLargeMessage))
    ensures resp.status == 400 <==>
              form.Ok? && !(form.value.Some? && form.value.value.FileEntry?
                            && form.value.value.file.mimeType in ValidTypes && form.value.value.file.size <= MaxSize)
    ensures form.Err? ==> resp == Response(500, Error(Text.MessageOr(form.error, DefaultError)))
    ensures resp.status == 200 <==>
              form.Ok? && form.value.Some? && form.value.value.FileEntry?
              && form.value.value.file.mimeType in ValidTypes && form.value.value.file.size <= MaxSize
              && provider(form.value.value.file).Ok?
    ensures resp.status == 200 ==>
              resp.body == Transcribed(provider(form.value.value.file).value, true,
                                       form.value.value.file.size, form.value.value.file.mimeType)
  {
    match form
    case Err(message) => Response(500, Error(Text.MessageOr(message, DefaultError)))
    case Ok(entry) =>
      if !Provided(entry) then Response(400, Error(NoAudioMessage))
      else if EntryType(entry.value).None? || EntryType(entry.value).value !in ValidTypes then
        Response(400, Error(FormatMessage()))
      else
        var f := entry.value.file;
        if f.size > MaxSize then Response(400, Error(TooLargeMessage))
        else
          match TranscribeAudio(provider, f)
          case Err(message) => Response(500, Error(message))
          case Ok(text) => Response(200, Transcribed(text, true, f.size, f.mimeType))
  }

  /** `MediaRecorder.isTypeSupported('audio/webm') ? 'audio/webm' : 'audio/mp4'`. */
  function RecorderType(webmSupported: bool): (t: string)
    ensures webmSupported ==> t in ValidTypes
  {
    if webmSupported then "audio/webm" else "audio/mp4"
  }

  // ---- properties of the upload guard ----

  /** Every 400 is decided before the provider is called: the answer is the same whatever the provider does. */
  lemma RejectionsSkipProvider(form: Result<Option<FormEntry>, string>, p: AudioFile -> Result<string, string>,
                               q: AudioFile -> Result<string, string>)
    requires Upload(form, p).status == 400
    ensures Upload(form, q) == Upload(form, p)
  {
  }

  /** The type check comes first: an oversized file of a type outside the whitelist gets the format error. */
  lemma TypeCheckedBeforeSize(f: AudioFile, p: AudioFile -> Result<string, string>)
    requires f.mimeType !in ValidTypes && f.size > MaxSize
    ensures Upload(Ok(Some(FileEntry(f))), p) == Response(400, Error(FormatMessage()))
  {
  }

  /** The limit is inclusive: a whitelisted file of exactly 25 MB reaches the provider, one byte more does not. */
  lemma SizeLimitInclusive(name: string, t: string, p: AudioFile -> Result<string, string>)
    requires t in ValidTypes
    ensures Upload(Ok(Some(FileEntry(AudioFile(name, t, 26214400)))), p).status != 400
    ensures Upload(Ok(Some(FileEntry(AudioFile(name, t, 26214401)))), p) == Response(400, Error(TooLargeMessage))
  {
  }

  /** A recording made where webm is unsupported is labelled 'audio/mp4' and is always refused. */
  lemma RecorderFallbackRejected(name: string, size: nat, p: AudioFile -> Result<string, string>)
    ensures Upload(Ok(Some(FileEntry(AudioFile(name, RecorderType(false), size)))), p)
            == Response(400, Error(FormatMessage()))
  {
  }

  /** A provider failure is answered with 500 and the prefixed provider message. */
  lemma ProviderFailure(f: AudioFile, p: AudioFile -> Result<string, string>)
    requires f.mimeType in ValidTypes && f.size <= MaxSize && p(f).Err?
    ensures Upload(Ok(Some(FileEntry(f))), p) == Response(500, Error(FailurePrefix + p(f).error))
  {
  }
}
