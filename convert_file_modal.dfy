/**
 * The conversion dialog (client/src/components/upload/ConvertFileModal.jsx):
 * collects name, email and recording title, posts them with the chosen file,
 * and shows progress, success (with the two downloads) or an error with a
 * retry. The request is issued by HandleConvert; its completion is a separate
 * step, Resolve, fed with the outcome of `fetch` and `response.json()`.
 */
module ConvertFileModal {
  import opened Wrappers
  import opened Base64
  import opened MidiDownload
  import opened FileUpload

  /** The JSON body of a 201 response (server/app/controllers/midi_controller.py:173-183). */
  datatype ConversionResponse = ConversionResponse(
    midiId: int, name: string, email: string, title: string, date: string,
    midiData: string, xmlData: string)

  /**
   * How the request ends: the server answered with `status`, and `body` is
   * what `response.json()` yields (None when parsing rejects); or `fetch`
   * itself rejected.
   */
  datatype FetchOutcome =
    | Responded(status: int, body: Option<ConversionResponse>)
    | TransportFailure

  /** The multipart form posted to /api/v1/midis (ConvertFileModal.jsx:50-54). */
  datatype UploadRequest = UploadRequest(name: string, email: string, title: string, file: AudioFile)

  /** The arguments handed to `downloadXml`, which is not part of this model. */
  datatype XmlDownloadCall = XmlDownloadCall(xmlData: string, filename: string)

  const ExpectedStatus: int := 201

  const ConvertingTitle: string := "Converting"
  const CompleteTitle: string := "Conversion Complete \U{1F389}"
  const ErrorTitle: string := "Conversion Error \U{274C}"
  const ConvertFileTitle: string := "Convert File"

  const UploadAnotherLabel: string := "Upload Another File"

  const MidiExtension: string := ".mid"
  const MusicXmlExtension: string := ".musicxml"

  /** Length limit for the convert button caption (ConvertFileModal.jsx:278). */
  const ConvertCaptionLength: nat := 15

  /**
   * The dialog's seven `useState` fields, plus the `file` prop it reads from
   * the upload panel.
   */
  datatype Dialog = Dialog(
    isConverting: bool,
    conversionComplete: bool,
    conversionError: bool,
    name: string,
    email: string,
    recordingTitle: string,
    backendResponse: Option<ConversionResponse>,
    file: Option<AudioFile>)

  /** The convert button, when the footer shows it (ConvertFileModal.jsx:270-280). */
  datatype ConvertButton = NoConvertButton | ConvertDisabled | ConvertEnabled(caption: string)

  /** What the footer shows (ConvertFileModal.jsx:243-284). */
  datatype Footer =
    | FooterHidden
    | TryAgainFooter
    | SelectFileFooter(selectLabel: string, convert: ConvertButton)

  function Initial(file: Option<AudioFile>): (d: Dialog)
    ensures !d.isConverting && !d.conversionComplete && !d.conversionError
    ensures d.name == d.email == d.recordingTitle == "" && d.backendResponse.None? && d.file == file
  {
    Dialog(false, false, false, "", "", "", None, file)
  }

  // ---------------------------------------------------------------------------
  // Pure derivations of the rendered dialog
  // ---------------------------------------------------------------------------

  /** The modal title: converting before complete before error (ConvertFileModal.jsx:187-194). */
  function ModalTitle(d: Dialog): (t: string)
    ensures t == ConvertingTitle <==> d.isConverting
    ensures t == CompleteTitle <==> !d.isConverting && d.conversionComplete
    ensures t == ErrorTitle <==> !d.isConverting && !d.conversionComplete && d.conversionError
    ensures t == ConvertFileTitle <==> !d.isConverting && !d.conversionComplete && !d.conversionError
  {
    if d.isConverting then ConvertingTitle
    else if d.conversionComplete then CompleteTitle
    else if d.conversionError then ErrorTitle
    else ConvertFileTitle
  }

  /** The caption of the select-file button (ConvertFileModal.jsx:264-268). */
  function SelectFileLabel(d: Dialog): (caption: string)
    ensures caption == UploadAnotherLabel <==> d.conversionComplete
    ensures caption == ChangeFileLabel <==> !d.conversionComplete && d.file.Some?
    ensures caption == ChooseFileLabel <==> !d.conversionComplete && d.file.None?
  {
    if d.conversionComplete then UploadAnotherLabel
    else if d.file.Some? then ChangeFileLabel
    else ChooseFileLabel
  }

  /**
   * The footer: hidden while converting; only "Try Again" on error; otherwise
   * the select-file button, and the convert button when a file is present and
   * the conversion is not complete, enabled only when all three fields are
   * filled in.
   */
  function FooterOf(d: Dialog): (f: Footer)
    ensures f.FooterHidden? <==> d.isConverting
    ensures f.TryAgainFooter? <==> !d.isConverting && d.conversionError
    ensures f.SelectFileFooter? ==> f.selectLabel == SelectFileLabel(d)
    ensures f.SelectFileFooter? && !f.convert.NoConvertButton? <==>
      !d.isConverting && !d.conversionError && d.file.Some? && !d.conversionComplete
    ensures f.SelectFileFooter? && f.convert.ConvertEnabled? <==>
      !d.isConverting && !d.conversionError && d.file.Some? && !d.conversionComplete &&
      d.name != "" && d.email != "" && d.recordingTitle != ""
  {
    if d.isConverting then FooterHidden
    else if d.conversionError then TryAgainFooter
    else
      var convert :=
        if d.file.None? || d.conversionComplete then NoConvertButton
        else if d.name == "" || d.email == "" || d.recordingTitle == "" then ConvertDisabled
        else ConvertEnabled("Convert " + AbbreviatedFileName(d.file.value.name, ConvertCaptionLength));
      SelectFileFooter(SelectFileLabel(d), convert)
  }

  /** The convert button is on screen and enabled. */
  predicate CanConvert(d: Dialog) {
    FooterOf(d).SelectFileFooter? && FooterOf(d).convert.ConvertEnabled?
  }

  /** The select-file button is on screen. */
  predicate CanSelectFile(d: Dialog) {
    FooterOf(d).SelectFileFooter?
  }

  /** The "Try Again" button is on screen. */
  predicate CanTryAgain(d: Dialog) {
    FooterOf(d).TryAgainFooter?
  }

  /**
   * The close button and a backdrop click dismiss the dialog
   * (ConvertFileModal.jsx:180, 186); the escape key is enabled only while
   * converting, when there is no hide handler, so it never dismisses.
   */
  predicate CanDismiss(d: Dialog) {
    !d.isConverting
  }

  /** The form with the three fields is in the body (ConvertFileModal.jsx:198-241). */
  predicate FormShown(d: Dialog) {
    !d.isConverting && !d.conversionComplete && !d.conversionError
  }

  /** The download buttons are in the body (ConvertFileModal.jsx:207-233). */
  predicate DownloadsShown(d: Dialog) {
    !d.isConverting && d.conversionComplete
  }

  /** A request is in flight: the state `handleConvert` leaves behind. */
  predicate InFlight(d: Dialog) {
    d.isConverting && !d.conversionComplete && !d.conversionError
  }

  // ---------------------------------------------------------------------------
  // Transitions
  // ---------------------------------------------------------------------------

  /**
   * `handleConvert` (ConvertFileModal.jsx:44-60): only `isConverting` changes;
   * afterwards the footer is gone and the dialog cannot be dismissed, so no
   * second request can be started.
   */
  function Convert(d: Dialog): (r: Dialog)
    requires CanConvert(d)
    ensures InFlight(r)
    ensures r.(isConverting := false) == d
    ensures !CanConvert(r) && !CanSelectFile(r) && !CanTryAgain(r) && !CanDismiss(r)
    ensures ModalTitle(r) == ConvertingTitle
  {
    d.(isConverting := true)
  }

  /** The form data `handleConvert` posts. */
  function RequestOf(d: Dialog): (req: UploadRequest)
    requires CanConvert(d)
    ensures req.name == d.name && req.email == d.email && req.title == d.recordingTitle
    ensures Some(req.file) == d.file
  {
    UploadRequest(d.name, d.email, d.recordingTitle, d.file.value)
  }

  /** The request ended with status 201. */
  predicate Created(o: FetchOutcome) {
    o.Responded? && o.status == ExpectedStatus
  }

  /**
   * The promise chain of ConvertFileModal.jsx:61-83. Status 201 sets
   * `conversionComplete`, then the parsed body becomes `backendResponse`;
   * any other status, a rejected `fetch` or a rejected `json()` ends in the
   * catch, which sets `conversionError`. Name, email, title and file stay.
   */
  function Resolve(d: Dialog, o: FetchOutcome): (r: Dialog)
    requires InFlight(d)
    ensures !r.isConverting
    ensures r.name == d.name && r.email == d.email && r.recordingTitle == d.recordingTitle && r.file == d.file
    ensures r.conversionComplete <==> Created(o)
    ensures r.conversionError <==> !(Created(o) && o.body.Some?)
    ensures r.backendResponse == if Created(o) && o.body.Some? then o.body else d.backendResponse
    ensures ModalTitle(r) == CompleteTitle <==> Created(o)
    ensures ModalTitle(r) == ErrorTitle <==> !Created(o)
  {
    if Created(o) then
      var complete := d.(conversionComplete := true, isConverting := false);
      match o.body
      case Some(data) => complete.(backendResponse := Some(data))
      case None => complete.(isConverting := false, conversionError := true)
    else
      d.(isConverting := false, conversionError := true)
  }

  /**
   * `handleDismiss` (ConvertFileModal.jsx:89-94), then the upload panel's
   * `handleClose`, which forgets the file. Name and email stay.
   */
  function Dismiss(d: Dialog): (r: Dialog)
    requires CanDismiss(d)
    ensures !r.isConverting && !r.conversionComplete && !r.conversionError
    ensures r.recordingTitle == "" && r.file.None?
    ensures r.name == d.name && r.email == d.email && r.backendResponse == d.backendResponse
    ensures ModalTitle(r) == ConvertFileTitle && FormShown(r)
  {
    d.(conversionComplete := false, conversionError := false, recordingTitle := "", file := None)
  }

  /**
   * `handleUploadAnotherFile` (ConvertFileModal.jsx:99-111): clears the title
   * only after a success, always clears `conversionComplete`, and the parent's
   * file; name and email stay.
   */
  function UploadAnother(d: Dialog): (r: Dialog)
    requires CanSelectFile(d)
    ensures !r.conversionComplete && r.file.None?
    ensures r.recordingTitle == if d.conversionComplete then "" else d.recordingTitle
    ensures r.name == d.name && r.email == d.email
    ensures r.isConverting == d.isConverting && r.conversionError == d.conversionError
    ensures r.backendResponse == d.backendResponse
    ensures FormShown(r) && !CanConvert(r)
  {
    var r := if d.conversionComplete then d.(recordingTitle := "") else d;
    r.(conversionComplete := false, file := None)
  }

  /** `handleTryAgain` (ConvertFileModal.jsx:116-118): only the error flag is cleared. */
  function TryAgain(d: Dialog): (r: Dialog)
    requires CanTryAgain(d)
    ensures !r.conversionError
    ensures r.(conversionError := true) == d
  {
    d.(conversionError := false)
  }

  // ---------------------------------------------------------------------------
  // Properties over several steps
  // ---------------------------------------------------------------------------

  /**
   * A failed request followed by "Try Again" leaves the form as it was:
   * the same name, email, title and file, and the convert button enabled again.
   */
  lemma RetryRestoresForm(d: Dialog, o: FetchOutcome)
    requires CanConvert(d) && !Created(o)
    ensures var r := TryAgain(Resolve(Convert(d), o));
      r.name == d.name && r.email == d.email && r.recordingTitle == d.recordingTitle &&
      r.file == d.file && FormShown(r) && CanConvert(r)
  {
  }

  /**
   * Status 201 with a body that does not parse ends with both flags set: the
   * success panel with its downloads under a footer that offers "Try Again",
   * and no response to download from.
   */
  lemma CreatedButUnparsable(d: Dialog)
    requires CanConvert(d)
    ensures var r := Resolve(Convert(d), Responded(ExpectedStatus, None));
      r.conversionComplete && r.conversionError && r.backendResponse == d.backendResponse &&
      ModalTitle(r) == CompleteTitle && DownloadsShown(r) && CanTryAgain(r)
  {
  }

  /** After a success, "Upload Another File" keeps name and email and clears title and file. */
  lemma UploadAnotherAfterSuccess(d: Dialog, body: ConversionResponse)
    requires CanConvert(d)
    ensures var s := Resolve(Convert(d), Responded(ExpectedStatus, Some(body)));
      CanSelectFile(s) && SelectFileLabel(s) == UploadAnotherLabel &&
      var r := UploadAnother(s);
      r.name == d.name && r.email == d.email && r.recordingTitle == "" && r.file.None? &&
      r.backendResponse == Some(body)
  {
  }

  // ---------------------------------------------------------------------------
  // The component
  // ---------------------------------------------------------------------------

  class ConvertDialog {
    var isConverting: bool
    var conversionComplete: bool
    var conversionError: bool
    var name: string
    var email: string
    var recordingTitle: string
    var backendResponse: Option<ConversionResponse>

    /** The upload panel that owns the `file` prop, `setFile` and `handleClose`. */
    const host: FileUploader

    /** The dialog as the pure transitions above see it. */
    function Model(): Dialog
      reads this, host
    {
      Dialog(isConverting, conversionComplete, conversionError, name, email,
             recordingTitle, backendResponse, host.file)
    }

    constructor (host: FileUploader)
      ensures this.host == host
      ensures Model() == Initial(host.file)
    {
      this.host := host;
      isConverting := false;
      conversionComplete := false;
      conversionError := false;
      name := "";
      email := "";
      recordingTitle := "";
      backendResponse := None;
    }

    /** Typing into one of the three fields; the form is on screen only in the draft state. */
    method EditName(value: string)
      requires FormShown(Model())
      modifies this
      ensures Model() == old(Model()).(name := value)
    {
      name := value;
    }

    method EditEmail(value: string)
      requires FormShown(Model())
      modifies this
      ensures Model() == old(Model()).(email := value)
    {
      email := value;
    }

    method EditTitle(value: string)
      requires FormShown(Model())
      modifies this
      ensures Model() == old(Model()).(recordingTitle := value)
    {
      recordingTitle := value;
    }

    /** `handleConvert`: marks the dialog busy and returns the form data it posts. */
    method HandleConvert() returns (req: UploadRequest)
      requires CanConvert(Model())
      modifies this
      ensures Model() == Convert(old(Model()))
      ensures req == RequestOf(old(Model()))
    {
      isConverting := true;
      req := UploadRequest(name, email, recordingTitle, host.file.value);
    }

    /** The `.then`/`.then`/`.catch` callbacks, run when the request ends. */
    method HandleResponse(o: FetchOutcome)
      requires InFlight(Model())
      modifies this
      ensures Model() == Resolve(old(Model()), o)
    {
      if o.Responded? && o.status == ExpectedStatus {
        conversionComplete := true;
        isConverting := false;
        match o.body {
          case Some(data) =>
            backendResponse := Some(data);
          case None =>
            isConverting := false;
            conversionError := true;
        }
      } else {
        isConverting := false;
        conversionError := true;
      }
    }

    /** `handleDismiss`, which ends in the upload panel's `handleClose`. */
    method HandleDismiss()
      requires CanDismiss(Model())
      modifies this, host
      ensures Model() == Dismiss(old(Model()))
      ensures !host.showFileDetailsModal && !host.fileSelected && host.chooseFileLabel == ChooseFileLabel
    {
      conversionComplete := false;
      conversionError := false;
      recordingTitle := "";
      host.HandleClose();
    }

    /** `handleUploadAnotherFile`; the file picker it then opens is not modelled. */
    method HandleUploadAnotherFile()
      requires CanSelectFile(Model())
      modifies this, host
      ensures Model() == UploadAnother(old(Model()))
      ensures host.fileSelected == old(host.fileSelected) && host.chooseFileLabel == old(host.chooseFileLabel)
      ensures host.showFileDetailsModal == old(host.showFileDetailsModal)
    {
      if conversionComplete {
        recordingTitle := "";
      }
      conversionComplete := false;
      host.SetFile(None);
    }

    /** `handleTryAgain`. */
    method HandleTryAgain()
      requires CanTryAgain(Model())
      modifies this
      ensures Model() == TryAgain(old(Model()))
    {
      conversionError := false;
    }

    /**
     * `handleDownloadMIDI`: the stored `midi_data` saved as title + ".mid".
     * None when no response was stored (reading `midi_data` of undefined
     * throws) or when the payload does not decode.
     */
    method HandleDownloadMidi() returns (r: Option<Download>)
      requires DownloadsShown(Model())
      ensures r.Some? <==> backendResponse.Some? && Decode(backendResponse.value.midiData).Some?
      ensures r.Some? ==> r.value.filename == backendResponse.value.title + MidiExtension
      ensures r.Some? ==> r.value.blob == Blob(Decode(backendResponse.value.midiData).value, MidiMimeType)
    {
      if backendResponse.None? {
        return None;
      }
      var data := backendResponse.value;
      r := DownloadMidi(data.midiData, data.title + MidiExtension);
    }

    /** `handleDownloadXml`: the stored `xml_data` and the name title + ".musicxml". */
    method HandleDownloadXml() returns (r: Option<XmlDownloadCall>)
      requires DownloadsShown(Model())
      ensures r.Some? <==> backendResponse.Some?
      ensures r.Some? ==> r.value.xmlData == backendResponse.value.xmlData
      ensures r.Some? ==> r.value.filename == backendResponse.value.title + MusicXmlExtension
    {
      if backendResponse.None? {
        return None;
      }
      var data := backendResponse.value;
      r := Some(XmlDownloadCall(data.xmlData, data.title + MusicXmlExtension));
    }
  }

  // ---------------------------------------------------------------------------
  // Scenarios
  // ---------------------------------------------------------------------------

  /**
   * A file is picked, the form is filled in with the title "demo", and the
   * server answers 201 with `midi_data` "QQ==": the dialog shows success and
   * the MIDI download is "demo.mid" holding the single octet 65.
   */
  method CreatedScenario() returns (title: string, midi: Option<Download>, xml: Option<XmlDownloadCall>)
    ensures title == CompleteTitle
    ensures midi == Some(Download(Blob([65], MidiMimeType), "demo.mid"))
    ensures xml == Some(XmlDownloadCall("Qg==", "demo.musicxml"))
  {
    var host := new FileUploader();
    host.HandleFileChange([Some(AudioFile("demo.wav"))]);
    host.HandleShow();
    var dialog := new ConvertDialog(host);
    dialog.EditName("Ann");
    dialog.EditEmail("ann@example.com");
    dialog.EditTitle("demo");
    var request := dialog.HandleConvert();
    var body := ConversionResponse(42, "Ann", "ann@example.com", "demo", "2024-04-01", "QQ==", "Qg==");
    dialog.HandleResponse(Responded(ExpectedStatus, Some(body)));
    title := ModalTitle(dialog.Model());
    assert dialog.backendResponse == Some(body);
    assert body.title + MidiExtension == "demo.mid";
    assert body.title + MusicXmlExtension == "demo.musicxml";
    OneOctetExample();
    midi := dialog.HandleDownloadMidi();
    xml := dialog.HandleDownloadXml();
  }

  /**
   * A 500 answer, then "Try Again" (ConvertFileModal.test.js:182-235): the
   * error title shows, and afterwards the form holds the same three values
   * with the convert button enabled again.
   */
  method FailureThenRetryScenario() returns (errorTitle: string, name: string, email: string, recordingTitle: string, canConvert: bool)
    ensures errorTitle == ErrorTitle
    ensures name == "Ann" && email == "ann@example.com" && recordingTitle == "demo" && canConvert
  {
    var host := new FileUploader();
    host.HandleFileChange([Some(AudioFile("demo.wav"))]);
    var dialog := new ConvertDialog(host);
    dialog.EditName("Ann");
    dialog.EditEmail("ann@example.com");
    dialog.EditTitle("demo");
    var request := dialog.HandleConvert();
    dialog.HandleResponse(Responded(500, None));
    errorTitle := ModalTitle(dialog.Model());
    dialog.HandleTryAgain();
    name, email, recordingTitle := dialog.name, dialog.email, dialog.recordingTitle;
    canConvert := CanConvert(dialog.Model());
  }
}
