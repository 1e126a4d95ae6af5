/**
 * The transcription page: an email address and an audio file (uploaded, or
 * recorded in the browser) are checked, and an accepted submission is
 * dispatched once to the speech-recognition endpoint.  The dispatch runs on a
 * detached thread whose outcome nobody reads; the model records each dispatch
 * in a ghost log instead.
 */
module Transcription {
  import opened Common

  /** An uploaded file: the name the browser reported and its bytes. */
  datatype UploadedFile = UploadedFile(name: string, content: Bytes)

  /** Which of the two buttons was pressed, with what its widget holds (`None` when empty). */
  datatype Source =
    | Upload(file: Option<UploadedFile>)
    | Record(recording: Option<Bytes>)

  /** The multipart request `submit_audio` posts. */
  datatype DispatchRequest = DispatchRequest(
    fileName: string, content: Bytes, contentType: string, email: string, timeout: nat)

  datatype Verdict = MissingEmail | MissingAudio | Accepted(request: DispatchRequest)

  /** What the page shows under the button. */
  datatype Notice = ErrorNotice(text: string) | SuccessNotice(text: string)

  const WavType: string := "audio/wav"
  const RecordingName: string := "recording.wav"
  const DispatchTimeout: nat := 3600

  const EmailMissingText: string := "Please enter your email address."
  const UploadMissingText: string := "Please upload a WAV file."
  const RecordingMissingText: string := "Please make a recording first."
  const UploadAcceptedText: string :=
    "✅ Your file has been submitted! You will receive an email when processing begins, and another when your transcription is ready."
  const RecordingAcceptedText: string :=
    "✅ Your recording has been submitted! You will receive an email when processing begins, and another when your transcription is ready."

  /** The audio a submission would send: its file name and bytes. */
  datatype Attachment = Attachment(name: string, content: Bytes)

  /**
   * The audio attached to the pressed button's widget, if any.  The two paths
   * differ only in the file name: the upload keeps the name the browser
   * reported, a recording is always called `recording.wav`.
   */
  function Attached(src: Source): (a: Option<Attachment>)
    ensures a.None? <==> (src.Upload? && src.file.None?) || (src.Record? && src.recording.None?)
    ensures a.Some? && src.Upload? ==> a.value.name == src.file.value.name && a.value.content == src.file.value.content
    ensures a.Some? && src.Record? ==> a.value.name == RecordingName && a.value.content == src.recording.value
  {
    match src
    case Upload(None) => None
    case Record(None) => None
    case Upload(Some(f)) => Some(Attachment(f.name, f.content))
    case Record(Some(r)) => Some(Attachment(RecordingName, r))
  }

  predicate HasAudio(src: Source) {
    Attached(src).Some?
  }

  /** The request `submit_audio` builds for a file name, its bytes and an email address. */
  function MakeRequest(fileName: string, content: Bytes, email: string): (r: DispatchRequest)
    ensures r.fileName == fileName && r.content == content && r.email == email
    ensures r.contentType == WavType && r.timeout == DispatchTimeout
  {
    DispatchRequest(fileName, content, WavType, email, DispatchTimeout)
  }

  /**
   * The decision behind either button.  The email is checked first, and only
   * the empty string counts as missing; then the audio; otherwise one request
   * is built, named after the uploaded file or `recording.wav`.
   */
  function Decide(email: string, src: Source): (v: Verdict)
    ensures v == MissingEmail <==> email == []
    ensures v == MissingAudio <==> email != [] && !HasAudio(src)
    ensures v.Accepted? <==> email != [] && HasAudio(src)
    ensures v.Accepted? ==> v.request.email == email && v.request.contentType == WavType
    ensures v.Accepted? && src.Upload? ==>
              v.request.fileName == src.file.value.name && v.request.content == src.file.value.content
    ensures v.Accepted? && src.Record? ==>
              v.request.fileName == RecordingName && v.request.content == src.recording.value
  {
    if email == [] then MissingEmail
    else match Attached(src)
      case None => MissingAudio
      case Some(a) => Accepted(MakeRequest(a.name, a.content, email))
  }

  /** The message shown for a verdict: each button has its own missing-audio and success texts. */
  function NoticeFor(src: Source, v: Verdict): (n: Notice)
    ensures n.SuccessNotice? <==> v.Accepted?
    ensures v == MissingEmail ==> n == ErrorNotice(EmailMissingText)
    ensures v == MissingAudio ==> n.text == if src.Upload? then UploadMissingText else RecordingMissingText
    ensures v.Accepted? ==> n.text == if src.Upload? then UploadAcceptedText else RecordingAcceptedText
  {
    match v
    case MissingEmail => ErrorNotice(EmailMissingText)
    case MissingAudio => ErrorNotice(if src.Upload? then UploadMissingText else RecordingMissingText)
    case Accepted(_) => SuccessNotice(if src.Upload? then UploadAcceptedText else RecordingAcceptedText)
  }

  /** An email made only of blanks is not empty, so it passes the check. */
  lemma BlankEmailPasses(email: string, src: Source)
    requires |email| > 0 && forall i :: 0 <= i < |email| ==> email[i] == ' '
    requires HasAudio(src)
    ensures Decide(email, src).Accepted?
  {
  }

  class Transcriber {
    /** Every request handed to a dispatch thread, in order. */
    ghost var dispatched: seq<DispatchRequest>

    constructor ()
      ensures dispatched == []
    {
      dispatched := [];
    }

    /** `submit_audio`: start one detached dispatch of the request; its outcome is discarded. */
    method SubmitAudio(fileName: string, content: Bytes, email: string)
      modifies this
      ensures dispatched == old(dispatched) + [MakeRequest(fileName, content, email)]
    {
      dispatched := dispatched + [MakeRequest(fileName, content, email)];
    }

    /**
     * A press of either transcribe button: one dispatch when the submission
     * is accepted, none otherwise, and the notice for the verdict.
     */
    method Submit(email: string, src: Source) returns (v: Verdict, notice: Notice)
      modifies this
      ensures v == Decide(email, src) && notice == NoticeFor(src, v)
      ensures dispatched == old(dispatched) + (if v.Accepted? then [v.request] else [])
    {
      if email == [] {
        v := MissingEmail;
      } else {
        match src
        case Upload(None) =>
          v := MissingAudio;
        case Record(None) =>
          v := MissingAudio;
        case Upload(Some(f)) =>
          SubmitAudio(f.name, f.content, email);
          v := Accepted(MakeRequest(f.name, f.content, email));
        case Record(Some(r)) =>
          SubmitAudio(RecordingName, r, email);
          v := Accepted(MakeRequest(RecordingName, r, email));
      }
      notice := NoticeFor(src, v);
    }
  }

  /** An upload of "sample.wav" and a recording, each submitted with one address. */
  method SubmitScenario(b: Bytes) {
    var t := new Transcriber();
    var v, n := t.Submit("a@b.com", Upload(Some(UploadedFile("sample.wav", b))));
    assert t.dispatched == [DispatchRequest("sample.wav", b, WavType, "a@b.com", DispatchTimeout)];
    v, n := t.Submit("", Record(Some(b)));
    assert n == ErrorNotice(EmailMissingText) && |t.dispatched| == 1;
    v, n := t.Submit("a@b.com", Record(None));
    assert n == ErrorNotice(RecordingMissingText) && |t.dispatched| == 1;
    v, n := t.Submit("a@b.com", Record(Some(b)));
    assert |t.dispatched| == 2 && t.dispatched[1].fileName == RecordingName;
  }
}
