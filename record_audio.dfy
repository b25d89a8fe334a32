/**
 * The recorder (client/src/components/record/RecordAudio.jsx): one button
 * that starts and stops a microphone recording, the recorded audio as an
 * object URL, and its download. Microphone acquisition (`getUserMedia`) and
 * chunk delivery (`ondataavailable`) are separate events, each a method.
 */
module RecordAudio {
  import opened Wrappers
  import opened Base64
  import opened MidiDownload

  const StartLabel: string := "Start Recording"
  const StopLabel: string := "Stop Recording"
  const StartAnotherLabel: string := "Start Another Recording"

  const NotAllowedError: string := "NotAllowedError"
  const PermissionDeniedMessage: string :=
    "Microphone permission denied. You need to give permission to record audio"

  const WebmMimeType: string := "audio/webm"
  const RecordingFileName: string := "melody-mapper-recording.webm"

  /** One hardware track of a media stream. */
  class Track {
    var live: bool

    constructor ()
      ensures live
    {
      live := true;
    }

    /** `track.stop()`: releases the hardware; stopping twice is harmless. */
    method Stop()
      modifies this
      ensures !live
    {
      live := false;
    }
  }

  /** The stream `getUserMedia` yields; `getTracks()` returns its tracks. */
  class MediaStream {
    const tracks: seq<Track>

    constructor (tracks: seq<Track>)
      ensures this.tracks == tracks
    {
      this.tracks := tracks;
    }
  }

  datatype RecorderState = Inactive | Recording

  /** The browser's MediaRecorder over one stream. */
  class MediaRecorder {
    const stream: MediaStream
    var state: RecorderState

    constructor (stream: MediaStream)
      ensures this.stream == stream && state == Inactive
    {
      this.stream := stream;
      state := Inactive;
    }

    method Start()
      modifies this
      ensures state == Recording
    {
      state := Recording;
    }

    method Stop()
      modifies this
      ensures state == Inactive
    {
      state := Inactive;
    }
  }

  /** How a `getUserMedia` request settles. */
  datatype Acquisition =
    | Granted(stream: MediaStream)
    | Rejected(errorName: string)

  /** The link `handleDownload` clicks: the object URL, its blob, the file name. */
  datatype RecordingDownload = RecordingDownload(url: nat, blob: Blob, filename: string)

  /**
   * `getTracks().forEach((track) => track.stop())` (RecordAudio.jsx:91):
   * every track of the stream is stopped, one after the other.
   */
  method StopAllTracks(tracks: seq<Track>)
    modifies set t | t in tracks
    ensures forall t :: t in tracks ==> !t.live
  {
    var i := 0;
    while i < |tracks|
      invariant 0 <= i <= |tracks|
      invariant forall k :: 0 <= k < i ==> !tracks[k].live
    {
      tracks[i].Stop();
      i := i + 1;
    }
  }

  class Recorder {
    var isRecording: bool
    var mediaRecorder: MediaRecorder?
    /** The object URL of the recorded audio, as an index into `objectUrls`. */
    var recordedAudio: Option<nat>
    /** `streamRef.current`. */
    var stream: MediaStream?
    var recordButtonLabel: string
    /** Every object URL this component created, in order; none is ever revoked. */
    var objectUrls: seq<Blob>
    /** The alerts shown to the user, in order. */
    var alerts: seq<string>
    /** `getUserMedia` requests that have not settled yet. */
    var pendingAcquisitions: nat

    /**
     * The recorder and the stream are set together and belong to each other;
     * while recording the recorder runs; once not recording, every track of
     * the current stream has been stopped.
     */
    ghost predicate Valid()
      reads this, mediaRecorder, if stream == null then {} else set t | t in stream.tracks
    {
      && (mediaRecorder == null <==> stream == null)
      && (mediaRecorder != null ==> mediaRecorder.stream == stream)
      && (isRecording ==> mediaRecorder != null && mediaRecorder.state == Recording)
      && (!isRecording && stream != null ==> forall t :: t in stream.tracks ==> !t.live)
      && (recordedAudio.Some? ==> recordedAudio.value < |objectUrls|)
      && (forall b :: b in objectUrls ==> b.mimeType == WebmMimeType)
    }

    /** The initial `useState` and `useRef` values (RecordAudio.jsx:24-36). */
    constructor ()
      ensures Valid()
      ensures !isRecording && mediaRecorder == null && stream == null && recordedAudio.None?
      ensures recordButtonLabel == StartLabel && objectUrls == [] && alerts == [] && pendingAcquisitions == 0
    {
      isRecording := false;
      mediaRecorder := null;
      recordedAudio := None;
      stream := null;
      recordButtonLabel := StartLabel;
      objectUrls := [];
      alerts := [];
      pendingAcquisitions := 0;
    }

    /**
     * `startRecording`: nothing happens without `navigator.mediaDevices`;
     * otherwise the label becomes "Stop Recording" and the recorded audio is
     * dropped at once, before the microphone request settles.
     */
    method StartRecording(mediaDevicesAvailable: bool)
      requires Valid()
      modifies this
      ensures Valid()
      ensures !mediaDevicesAvailable ==>
        recordButtonLabel == old(recordButtonLabel) && recordedAudio == old(recordedAudio) &&
        pendingAcquisitions == old(pendingAcquisitions)
      ensures mediaDevicesAvailable ==>
        recordButtonLabel == StopLabel && recordedAudio.None? &&
        pendingAcquisitions == old(pendingAcquisitions) + 1
      ensures isRecording == old(isRecording) && mediaRecorder == old(mediaRecorder) && stream == old(stream)
      ensures objectUrls == old(objectUrls) && alerts == old(alerts)
    {
      if !mediaDevicesAvailable {
        return;
      }
      recordButtonLabel := StopLabel;
      recordedAudio := None;
      pendingAcquisitions := pendingAcquisitions + 1;
    }

    /**
     * The `getUserMedia` promise settles (RecordAudio.jsx:53-80). Granted:
     * the stream is kept, exactly one new recorder is created and started,
     * and `isRecording` becomes true. Rejected: nothing changes but an alert
     * for NotAllowedError; the label keeps saying "Stop Recording".
     */
    method HandleAcquisition(outcome: Acquisition)
      requires Valid() && pendingAcquisitions > 0
      modifies this
      ensures Valid()
      ensures pendingAcquisitions == old(pendingAcquisitions) - 1
      ensures recordButtonLabel == old(recordButtonLabel) && recordedAudio == old(recordedAudio)
      ensures objectUrls == old(objectUrls)
      ensures outcome.Granted? ==>
        stream == outcome.stream && fresh(mediaRecorder) && mediaRecorder.stream == outcome.stream &&
        mediaRecorder.state == Recording && isRecording && alerts == old(alerts)
      ensures outcome.Rejected? ==>
        isRecording == old(isRecording) && mediaRecorder == old(mediaRecorder) && stream == old(stream) &&
        alerts == old(alerts) + (if outcome.errorName == NotAllowedError then [PermissionDeniedMessage] else [])
    {
      pendingAcquisitions := pendingAcquisitions - 1;
      match outcome {
        case Granted(s) =>
          stream := s;
          var recorder := new MediaRecorder(s);
          mediaRecorder := recorder;
          recorder.Start();
          isRecording := true;
        case Rejected(errorName) =>
          if errorName == NotAllowedError {
            alerts := alerts + [PermissionDeniedMessage];
          }
      }
    }

    /**
     * `ondataavailable` of a recorder this component created: the chunk is
     * wrapped in an "audio/webm" blob, a new object URL is created for it and
     * becomes the recorded audio. Earlier URLs stay alive.
     */
    method HandleDataAvailable(data: seq<byte>)
      requires Valid() && mediaRecorder != null
      modifies this
      ensures Valid()
      ensures objectUrls == old(objectUrls) + [Blob(data, WebmMimeType)]
      ensures recordedAudio == Some(|old(objectUrls)|)
      ensures isRecording == old(isRecording) && mediaRecorder == old(mediaRecorder) && stream == old(stream)
      ensures recordButtonLabel == old(recordButtonLabel) && alerts == old(alerts)
      ensures pendingAcquisitions == old(pendingAcquisitions)
    {
      var blob := Blob(data, WebmMimeType);
      objectUrls := objectUrls + [blob];
      recordedAudio := Some(|objectUrls| - 1);
    }

    /**
     * `stopRecording`: a no-op without a recorder; otherwise recording ends,
     * the label becomes "Start Another Recording", the recorder is stopped
     * and every track of the stream is released.
     */
    method StopRecording()
      requires Valid()
      modifies this, mediaRecorder, if stream == null then {} else set t | t in stream.tracks
      ensures Valid()
      ensures mediaRecorder == old(mediaRecorder) && stream == old(stream)
      ensures old(mediaRecorder) == null ==>
        isRecording == old(isRecording) && recordButtonLabel == old(recordButtonLabel)
      ensures old(mediaRecorder) != null ==>
        !isRecording && recordButtonLabel == StartAnotherLabel && mediaRecorder.state == Inactive &&
        forall t :: t in stream.tracks ==> !t.live
      ensures recordedAudio == old(recordedAudio) && objectUrls == old(objectUrls) && alerts == old(alerts)
      ensures pendingAcquisitions == old(pendingAcquisitions)
    {
      if mediaRecorder != null {
        isRecording := false;
        recordButtonLabel := StartAnotherLabel;
        mediaRecorder.Stop();
        StopAllTracks(stream.tracks);
      }
    }

    /** The record button dispatches to stop while recording, else to start (RecordAudio.jsx:118). */
    method ClickRecordButton(mediaDevicesAvailable: bool)
      requires Valid()
      modifies this, mediaRecorder, if stream == null then {} else set t | t in stream.tracks
      ensures Valid()
      ensures old(isRecording) ==>
        !isRecording && recordButtonLabel == StartAnotherLabel &&
        mediaRecorder != null && mediaRecorder.state == Inactive &&
        forall t :: t in stream.tracks ==> !t.live
      ensures !old(isRecording) && mediaDevicesAvailable ==>
        recordButtonLabel == StopLabel && recordedAudio.None? && !isRecording &&
        pendingAcquisitions == old(pendingAcquisitions) + 1
      ensures !old(isRecording) && !mediaDevicesAvailable ==>
        recordButtonLabel == old(recordButtonLabel) && recordedAudio == old(recordedAudio) && !isRecording
      ensures mediaRecorder == old(mediaRecorder) && stream == old(stream)
      ensures objectUrls == old(objectUrls) && alerts == old(alerts)
    {
      if isRecording {
        StopRecording();
      } else {
        StartRecording(mediaDevicesAvailable);
      }
    }

    /** The download button and the playback control exist iff there is recorded audio. */
    predicate RecordedAudioShown()
      reads this
    {
      recordedAudio.Some?
    }

    /** `handleDownload`: the recorded audio's URL, always saved as "melody-mapper-recording.webm". */
    method HandleDownload() returns (d: RecordingDownload)
      requires Valid() && RecordedAudioShown()
      ensures d.url == recordedAudio.value && d.url < |objectUrls| && d.blob == objectUrls[d.url]
      ensures d.filename == RecordingFileName && d.blob.mimeType == WebmMimeType
    {
      var url := recordedAudio.value;
      d := RecordingDownload(url, objectUrls[url], RecordingFileName);
    }
  }

  // ---------------------------------------------------------------------------
  // Scenarios
  // ---------------------------------------------------------------------------

  /**
   * The microphone request is refused (RecordAudio.test.js:137-155): the
   * button says "Stop Recording", nothing records, one alert was shown.
   */
  method PermissionDeniedScenario() returns (caption: string, recording: bool, shown: seq<string>)
    ensures caption == StopLabel && !recording && shown == [PermissionDeniedMessage]
  {
    var r := new Recorder();
    r.ClickRecordButton(true);
    r.HandleAcquisition(Rejected(NotAllowedError));
    caption, recording, shown := r.recordButtonLabel, r.isRecording, r.alerts;
  }

  /**
   * Start, grant, stop (RecordAudio.test.js:157-197), then the chunk arrives
   * after the stop: the microphone track is released, the button offers
   * another recording, and the recorded audio appears with its data.
   */
  method RecordAndStopScenario(data: seq<byte>) returns (caption: string, recording: bool, trackLive: bool, audio: Option<Blob>)
    ensures caption == StartAnotherLabel && !recording && !trackLive
    ensures audio == Some(Blob(data, WebmMimeType))
  {
    var track := new Track();
    var stream := new MediaStream([track]);
    var r := new Recorder();
    r.ClickRecordButton(true);
    r.HandleAcquisition(Granted(stream));
    r.ClickRecordButton(true);
    r.HandleDataAvailable(data);
    var d := r.HandleDownload();
    caption, recording, trackLive, audio := r.recordButtonLabel, r.isRecording, track.live, Some(d.blob);
  }
}
