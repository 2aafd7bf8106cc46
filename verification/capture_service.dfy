/** The media-capture service (src/app/services/media-capture.service.ts):
    MIME-type selection, the permission check's result and message, and
    the recorder state guards. The browser appears only through
    parameters: the set of MIME types the recorder supports, the outcome of
    the media request, and whether a recorder could be built. */
module CaptureService {
  import opened Common

  datatype CaptureMode = Image | Video | Audio

  datatype RecorderState = Inactive | Recording | Paused

  /** A recorder: its state and the MIME type it was created with. */
  datatype Recorder = Recorder(state: RecorderState, mimeType: string)

  /** A live media stream and the kinds of track it carries. */
  datatype Stream = Stream(video: bool, audio: bool)

  /** A finished capture: its kind, the recorded chunk sizes and the MIME
      type of the assembled blob. */
  datatype CaptureResult = CaptureResult(kind: CaptureMode, chunks: seq<nat>, mimeType: string)

  // ---------------------------------------------------------------------
  // MIME type selection

  const VideoMimeTypes: seq<string> :=
    ["video/webm;codecs=vp9", "video/webm;codecs=vp8", "video/webm", "video/mp4"]
  const VideoFallback: string := "video/webm"

  const AudioMimeTypes: seq<string> :=
    ["audio/webm;codecs=opus", "audio/webm", "audio/ogg;codecs=opus", "audio/mp4"]
  const AudioFallback: string := "audio/webm"

  /** The position of the first preference the browser supports, or -1. */
  function FirstSupportedIndex(prefs: seq<string>, supported: set<string>): (k: int)
    ensures -1 <= k < |prefs|
    ensures k == -1 <==> forall i :: 0 <= i < |prefs| ==> prefs[i] !in supported
    ensures k >= 0 ==> prefs[k] in supported && forall i :: 0 <= i < k ==> prefs[i] !in supported
  {
    if prefs == [] then -1
    else if prefs[0] in supported then 0
    else
      var k := FirstSupportedIndex(prefs[1..], supported);
      if k == -1 then -1 else k + 1
  }

  /** The MIME type a recorder is given: the first supported preference,
      or the fallback when the browser supports none. */
  function MimeChoice(prefs: seq<string>, supported: set<string>, fallback: string): (r: string)
    ensures r in prefs || r == fallback
    ensures (exists i :: 0 <= i < |prefs| && prefs[i] in supported) ==> r in supported
    ensures (forall i :: 0 <= i < |prefs| ==> prefs[i] !in supported) ==> r == fallback
  {
    var k := FirstSupportedIndex(prefs, supported);
    if k == -1 then fallback else prefs[k]
  }

  /** The first-match loop over the preference list. */
  method GetSupportedMimeType(prefs: seq<string>, supported: set<string>, fallback: string)
    returns (r: string)
    ensures r == MimeChoice(prefs, supported, fallback)
  {
    for i := 0 to |prefs|
      invariant forall j :: 0 <= j < i ==> prefs[j] !in supported
    {
      if prefs[i] in supported {
        return prefs[i];
      }
    }
    return fallback;
  }

  method GetSupportedVideoMimeType(supported: set<string>) returns (r: string)
    ensures r == MimeChoice(VideoMimeTypes, supported, VideoFallback)
    ensures r in VideoMimeTypes
  {
    r := GetSupportedMimeType(VideoMimeTypes, supported, VideoFallback);
  }

  method GetSupportedAudioMimeType(supported: set<string>) returns (r: string)
    ensures r == MimeChoice(AudioMimeTypes, supported, AudioFallback)
    ensures r in AudioMimeTypes
  {
    r := GetSupportedMimeType(AudioMimeTypes, supported, AudioFallback);
  }

  /** The video choice always names a video type and the audio choice an
      audio type. */
  lemma MimeChoiceKinds(supported: set<string>)
    ensures MimeChoice(VideoMimeTypes, supported, VideoFallback)[..6] == "video/"
    ensures MimeChoice(AudioMimeTypes, supported, AudioFallback)[..6] == "audio/"
  {
    var v := MimeChoice(VideoMimeTypes, supported, VideoFallback);
    var a := MimeChoice(AudioMimeTypes, supported, AudioFallback);
    assert v in VideoMimeTypes;
    assert a in AudioMimeTypes;
  }

  // ---------------------------------------------------------------------
  // Permission check

  /** How the browser answered the test media request: granted, or an
      error with its `name` and `message` (`""` when it has none). */
  datatype Probe = ProbeGranted | ProbeFailed(name: string, message: string)

  datatype PermissionStatus = PermissionStatus(
    camera: bool, microphone: bool, granted: bool, message: string)

  const DeniedPrefix: string := "Permission denied. "
  const GrantedMessage: string := "Permissions granted successfully"
  const NotAllowedText: string := "Please allow camera/microphone access in your browser settings. "
  const NotFoundText: string := "No camera or microphone found on this device."
  const NotSupportedText: string := "Media capture is not supported on this device/browser."
  const UnknownText: string := "Unknown error occurred."

  /** The explanation after the common prefix, by error name; `instructions`
      are the platform's settings instructions. */
  function DenialReason(name: string, message: string, instructions: string): (r: string)
    ensures r != []
  {
    if name == "NotAllowedError" then NotAllowedText + instructions
    else if name == "NotFoundError" then NotFoundText
    else if name == "NotSupportedError" then NotSupportedText
    else if message != "" then message
    else UnknownText
  }

  /** `checkPermissions`: echoes the requested flags either way; grants
      only when the test request succeeded; a failure's message is the
      common prefix followed by the reason. */
  function CheckPermissions(needsCamera: bool, needsMicrophone: bool, probe: Probe,
                            instructions: string): (s: PermissionStatus)
    ensures s.camera == needsCamera && s.microphone == needsMicrophone
    ensures s.granted <==> probe.ProbeGranted?
    ensures s.granted ==> s.message == GrantedMessage
    ensures !s.granted ==>
      |s.message| > |DeniedPrefix| && s.message[..|DeniedPrefix|] == DeniedPrefix
      && s.message[|DeniedPrefix|..] == DenialReason(probe.name, probe.message, instructions)
  {
    match probe
    case ProbeGranted =>
      PermissionStatus(needsCamera, needsMicrophone, true, GrantedMessage)
    case ProbeFailed(name, message) =>
      PermissionStatus(needsCamera, needsMicrophone, false,
                       DeniedPrefix + DenialReason(name, message, instructions))
  }

  /** The three recognised errors and an unexplained one give four different
      messages, whatever the platform instructions: their reasons have four
      different lengths. */
  lemma DenialMessagesDistinct(instructions: string, other: string)
    requires other != "NotAllowedError" && other != "NotFoundError" && other != "NotSupportedError"
    ensures var notAllowed := CheckPermissions(true, false, ProbeFailed("NotAllowedError", ""), instructions).message;
      var notFound := CheckPermissions(true, false, ProbeFailed("NotFoundError", ""), instructions).message;
      var notSupported := CheckPermissions(true, false, ProbeFailed("NotSupportedError", ""), instructions).message;
      var unknown := CheckPermissions(true, false, ProbeFailed(other, ""), instructions).message;
      && notAllowed != notFound && notAllowed != notSupported && notAllowed != unknown
      && notFound != notSupported && notFound != unknown && notSupported != unknown
  {
    assert |NotAllowedText| == 64 && |NotFoundText| == 45;
    assert |NotSupportedText| == 54 && |UnknownText| == 23;
    assert "NotFoundError" != "NotAllowedError";
    assert "NotSupportedError" != "NotAllowedError" && "NotSupportedError" != "NotFoundError";
    assert |DenialReason("NotAllowedError", "", instructions)| >= 64;
    assert |DenialReason("NotFoundError", "", instructions)| == 45;
    assert |DenialReason("NotSupportedError", "", instructions)| == 54;
    assert |DenialReason(other, "", instructions)| == 23;
  }

  /** What a stop request leads to: rejected at once, a result, or a
      promise that never settles (stopping an inactive recorder fires no
      stop event). */
  datatype StopOutcome = Rejected(reason: string) | Captured(result: CaptureResult) | Pending

  // ---------------------------------------------------------------------
  // The service

  class MediaCaptureService {
    var currentStream: Option<Stream>
    var recorder: Option<Recorder>
    var recordedChunks: seq<nat>
    /** How many times `stop()` was called on a recorder. */
    var recorderStops: nat

    constructor ()
      ensures currentStream == None && recorder == None && recordedChunks == [] && recorderStops == 0
    {
      currentStream := None;
      recorder := None;
      recordedChunks := [];
      recorderStops := 0;
    }

    /** Opens the camera (with audio when asked); `granted` is whether the
        browser hands out the stream. */
    method StartCameraStream(includeAudio: bool, granted: bool) returns (r: Option<Stream>)
      modifies this`currentStream
      ensures granted ==> r == Some(Stream(true, includeAudio)) && currentStream == r
      ensures !granted ==> r == None && currentStream == old(currentStream)
    {
      if !granted {
        return None;
      }
      currentStream := Some(Stream(true, includeAudio));
      r := currentStream;
    }

    /** Opens the microphone only. */
    method StartAudioStream(granted: bool) returns (r: Option<Stream>)
      modifies this`currentStream
      ensures granted ==> r == Some(Stream(false, true)) && currentStream == r
      ensures !granted ==> r == None && currentStream == old(currentStream)
    {
      if !granted {
        return None;
      }
      currentStream := Some(Stream(false, true));
      r := currentStream;
    }

    /** Starts a recorder with the preferred supported MIME type of `kind`.
        `built` is whether the browser's `MediaRecorder` constructor accepted
        the stream and options; `started` is whether its `start` then
        succeeded. The new recorder replaces the old one as soon as it is
        built, so a recorder whose `start` throws stays installed, inactive.
        The chunk buffer is emptied either way. */
    method StartRecorder(kind: CaptureMode, supported: set<string>, built: bool, started: bool)
      returns (ok: bool)
      requires kind != Image
      modifies this`recorder, this`recordedChunks
      ensures recordedChunks == []
      ensures ok <==> built && started
      ensures var mime := if kind == Video then MimeChoice(VideoMimeTypes, supported, VideoFallback)
                          else MimeChoice(AudioMimeTypes, supported, AudioFallback);
        && (built && started ==> recorder == Some(Recorder(Recording, mime)))
        && (built && !started ==> recorder == Some(Recorder(Inactive, mime)))
      ensures !built ==> recorder == old(recorder)
    {
      recordedChunks := [];
      var mime;
      if kind == Video {
        mime := GetSupportedVideoMimeType(supported);
      } else {
        mime := GetSupportedAudioMimeType(supported);
      }
      if !built {
        return false;
      }
      recorder := Some(Recorder(Inactive, mime));
      if !started {
        return false;
      }
      recorder := Some(Recorder(Recording, mime));
      ok := true;
    }

    /** A `dataavailable` event: only non-empty chunks are kept. */
    method OnDataAvailable(size: nat)
      modifies this`recordedChunks
      ensures recordedChunks == if size > 0 then old(recordedChunks) + [size] else old(recordedChunks)
    {
      if size > 0 {
        recordedChunks := recordedChunks + [size];
      }
    }

    /** Pauses only a recorder that is recording. */
    method PauseRecording()
      modifies this`recorder
      ensures old(recorder).Some? && old(recorder).value.state == Recording ==>
        recorder == Some(old(recorder).value.(state := Paused))
      ensures !(old(recorder).Some? && old(recorder).value.state == Recording) ==>
        recorder == old(recorder)
    {
      if recorder.Some? && recorder.value.state == Recording {
        recorder := Some(recorder.value.(state := Paused));
      }
    }

    /** Resumes only a recorder that is paused. */
    method ResumeRecording()
      modifies this`recorder
      ensures old(recorder).Some? && old(recorder).value.state == Paused ==>
        recorder == Some(old(recorder).value.(state := Recording))
      ensures !(old(recorder).Some? && old(recorder).value.state == Paused) ==>
        recorder == old(recorder)
    {
      if recorder.Some? && recorder.value.state == Paused {
        recorder := Some(recorder.value.(state := Recording));
      }
    }

    /** `getRecordingState`: inactive when there is no recorder. */
    method GetRecordingState() returns (s: RecorderState)
      ensures recorder.None? ==> s == Inactive
      ensures recorder.Some? ==> s == recorder.value.state
    {
      s := if recorder.None? then Inactive else recorder.value.state;
    }

    /** Stops the recorder and assembles the result from the recorded
        chunks, typed with the video MIME choice for a video and the audio
        choice otherwise; the buffer is emptied afterwards. */
    method StopRecording(kind: CaptureMode, supported: set<string>) returns (outcome: StopOutcome)
      modifies this`recorder, this`recordedChunks, this`recorderStops
      ensures old(recorder).None? ==>
        outcome == Rejected("No active recording")
        && recorder == old(recorder) && recordedChunks == old(recordedChunks)
        && recorderStops == old(recorderStops)
      ensures old(recorder).Some? ==> recorderStops == old(recorderStops) + 1
      ensures old(recorder).Some? && old(recorder).value.state == Inactive ==>
        outcome == Pending && recorder == old(recorder) && recordedChunks == old(recordedChunks)
      ensures old(recorder).Some? && old(recorder).value.state != Inactive ==>
        && outcome == Captured(CaptureResult(kind, old(recordedChunks),
             if kind == Video then MimeChoice(VideoMimeTypes, supported, VideoFallback)
             else MimeChoice(AudioMimeTypes, supported, AudioFallback)))
        && recorder == Some(old(recorder).value.(state := Inactive))
        && recordedChunks == []
    {
      if recorder.None? {
        return Rejected("No active recording");
      }
      recorderStops := recorderStops + 1;
      if recorder.value.state == Inactive {
        return Pending;
      }
      recorder := Some(recorder.value.(state := Inactive));
      var mime;
      if kind == Video {
        mime := GetSupportedVideoMimeType(supported);
      } else {
        mime := GetSupportedAudioMimeType(supported);
      }
      outcome := Captured(CaptureResult(kind, recordedChunks, mime));
      recordedChunks := [];
    }

    /** Releases the stream and drops the recorder, stopping it first only
        when it is not already inactive. */
    method StopAllStreams()
      modifies this`currentStream, this`recorder, this`recorderStops
      ensures currentStream == None && recorder == None
      ensures recorderStops ==
        if old(recorder).Some? && old(recorder).value.state != Inactive
        then old(recorderStops) + 1 else old(recorderStops)
    {
      if currentStream.Some? {
        currentStream := None;
      }
      if recorder.Some? {
        if recorder.value.state != Inactive {
          recorderStops := recorderStops + 1;
        }
        recorder := None;
      }
    }
  }

  /** Stopping everything twice is stopping it once: the second call finds
      nothing to release and stops no recorder. */
  method StopAllStreamsTwice(s: MediaCaptureService)
    modifies s
    ensures s.currentStream == None && s.recorder == None
    ensures s.recorderStops ==
      if old(s.recorder).Some? && old(s.recorder).value.state != Inactive
      then old(s.recorderStops) + 1 else old(s.recorderStops)
  {
    s.StopAllStreams();
    s.StopAllStreams();
  }
}
