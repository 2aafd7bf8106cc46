/** The media-capture dialog
    (src/app/components/media-capture-modal/media-capture-modal.component.ts):
    initialisation with its feature and permission checks, recording with
    its one-second timer, preview, retake, save and cancel. Each awaited
    browser answer arrives as a parameter, and an asynchronous handler runs
    to its end in one step. */
module CaptureModal {
  import opened Common
  import opened Text
  import opened CaptureService

  // ---------------------------------------------------------------------
  // Pure helpers

  /** The mode's name as it appears in messages. */
  function ModeName(m: CaptureMode): string {
    match m
    case Image => "image"
    case Video => "video"
    case Audio => "audio"
  }

  /** The camera is needed for a photo or a video. */
  predicate NeedsCamera(m: CaptureMode) {
    m == Image || m == Video
  }

  /** The microphone is needed for audio or a video. */
  predicate NeedsMicrophone(m: CaptureMode) {
    m == Audio || m == Video
  }

  /** Every mode needs some device, only a video needs both, and each
      device is needed by exactly two of the three modes. */
  lemma ModeDevices(m: CaptureMode)
    ensures NeedsCamera(m) || NeedsMicrophone(m)
    ensures NeedsCamera(m) && NeedsMicrophone(m) <==> m == Video
    ensures !NeedsCamera(m) <==> m == Audio
    ensures !NeedsMicrophone(m) <==> m == Image
  {
  }

  /** The `modalTitle` getter. */
  function ModalTitle(m: CaptureMode): (r: string)
    ensures r != []
  {
    match m
    case Image => "Capture Image"
    case Video => "Record Video"
    case Audio => "Record Audio"
  }

  /** The three modes have three different titles. */
  lemma ModalTitleInjective(a: CaptureMode, b: CaptureMode)
    ensures ModalTitle(a) == ModalTitle(b) <==> a == b
  {
    assert "Record Video" != "Record Audio" && "Capture Image" != "Record Video"
      && "Capture Image" != "Record Audio";
  }

  /** `formatTime`: whole minutes and the remaining seconds, each padded
      to two digits, around a colon. */
  function FormatTime(seconds: nat): (r: string)
    ensures |r| >= 5 && r[|r| - 3] == ':'
  {
    NatToStringShort(seconds % 60);
    PadTwo(NatToString(seconds / 60)) + ":" + PadTwo(NatToString(seconds % 60))
  }

  /** A padded spelling reads back as its number, whatever its size. */
  lemma ParsePadded(n: nat)
    ensures ParseDecimal(PadTwo(NatToString(n))) == Some(n)
  {
    if n < 100 {
      ParsePadTwo(n);
    } else {
      assert |NatToString(n)| >= 2;
      ParseNatToString(n);
    }
  }

  /** Cutting "MM:SS" around its colon gives back both parts. */
  lemma ColonSplit(m: string, s: string)
    requires |s| == 2
    ensures var r := m + ":" + s; r[..|r| - 3] == m && r[|r| - 2..] == s
  {
    var r := m + ":" + s;
    assert r[..|r| - 3] == m;
    assert r[|r| - 2..] == s;
  }

  /** The display reads back as the time shown: the minutes part parses to
      the whole minutes, the two-character seconds part to the remaining
      seconds, and together they give `seconds` back; below 100 minutes
      the display is exactly "MM:SS". */
  lemma {:induction false} FormatTimeRoundTrip(seconds: nat)
    ensures var r := FormatTime(seconds);
      && ParseDecimal(r[..|r| - 3]) == Some(seconds / 60)
      && ParseDecimal(r[|r| - 2..]) == Some(seconds % 60)
      && seconds % 60 < 60
      && (seconds / 60) * 60 + seconds % 60 == seconds
    ensures seconds < 6000 ==> |FormatTime(seconds)| == 5
  {
    var m := PadTwo(NatToString(seconds / 60));
    var s := PadTwo(NatToString(seconds % 60));
    ParsePadTwo(seconds % 60);
    ParsePadded(seconds / 60);
    ColonSplit(m, s);
    if seconds < 6000 {
      ParsePadTwo(seconds / 60);
    }
  }

  /** The `showCameraPreview` getter. */
  predicate CameraPreviewShown(hasPermission: bool, showPreview: bool, mode: CaptureMode) {
    hasPermission && !showPreview && (mode == Image || mode == Video)
  }

  /** The `showAudioInterface` getter. */
  predicate AudioInterfaceShown(hasPermission: bool, showPreview: bool, mode: CaptureMode) {
    hasPermission && !showPreview && mode == Audio
  }

  /** The live camera view and the audio view are never shown together,
      neither is shown over a preview, and with permission and no preview
      exactly one is shown: the one for the device the mode needs. */
  lemma ViewsExclusive(hasPermission: bool, showPreview: bool, mode: CaptureMode)
    ensures !(CameraPreviewShown(hasPermission, showPreview, mode)
              && AudioInterfaceShown(hasPermission, showPreview, mode))
    ensures showPreview || !hasPermission ==>
      !CameraPreviewShown(hasPermission, showPreview, mode)
      && !AudioInterfaceShown(hasPermission, showPreview, mode)
    ensures hasPermission && !showPreview ==>
      (CameraPreviewShown(hasPermission, showPreview, mode) <==> NeedsCamera(mode))
      && (AudioInterfaceShown(hasPermission, showPreview, mode) <==> !NeedsCamera(mode))
  {
  }

  // ---------------------------------------------------------------------
  // Initialisation

  const NoMediaDevicesMessage: string :=
    "Your browser does not support camera/microphone access. Please use a modern browser."
  const PermissionDeniedFallback: string := "Permission denied"
  const StreamFailurePrefix: string := "Failed to access camera/microphone: "
  const StreamFailureFallback: string :=
    "Failed to access camera/microphone. Please check your permissions."

  /** The message for a recording mode the browser has no recorder for. */
  function NoRecorderMessage(m: CaptureMode): string {
    "Your browser does not support " + ModeName(m) + " recording. Please use a modern browser."
  }

  /** The message names the mode: different modes give different messages,
      and none is the message for missing media devices. */
  lemma {:induction false} NoRecorderMessageNamesMode(m1: CaptureMode, m2: CaptureMode)
    ensures NoRecorderMessage(m1) == NoRecorderMessage(m2) <==> m1 == m2
    ensures NoRecorderMessage(m1) != NoMediaDevicesMessage
  {
    assert NoRecorderMessage(m1)[30] == ModeName(m1)[0];
    assert NoRecorderMessage(m2)[30] == ModeName(m2)[0];
    assert |NoRecorderMessage(m1)| < |NoMediaDevicesMessage|;
  }

  /** What the browser answers during initialisation: whether
      `getUserMedia` exists, how the test request went, the platform's
      settings instructions, and whether opening the stream failed (with
      its error message, `""` when it has none). */
  datatype CaptureEnv = CaptureEnv(
    hasGetUserMedia: bool, probe: Probe, instructions: string, streamError: Option<string>)

  /** The message an initialisation ends with, or `None` when it obtains
      a stream. It succeeds exactly when every check passes, a failure
      always explains itself, and a refused test request reports the
      permission check's "Permission denied. ..." message. */
  function InitFailure(mode: CaptureMode, supportsRecorder: bool, env: CaptureEnv): (r: Option<string>)
    ensures r.None? <==>
      env.hasGetUserMedia && (mode == Image || supportsRecorder)
      && env.probe.ProbeGranted? && env.streamError.None?
    ensures r.Some? ==> r.value != []
    ensures env.hasGetUserMedia && (mode == Image || supportsRecorder) && env.probe.ProbeFailed? ==>
      r.Some? && |r.value| > |DeniedPrefix| && r.value[..|DeniedPrefix|] == DeniedPrefix
  {
    if !env.hasGetUserMedia then Some(NoMediaDevicesMessage)
    else if mode != Image && !supportsRecorder then Some(NoRecorderMessage(mode))
    else
      var status := CheckPermissions(NeedsCamera(mode), NeedsMicrophone(mode), env.probe, env.instructions);
      if !status.granted then Some(if status.message != "" then status.message else PermissionDeniedFallback)
      else match env.streamError
        case None => None
        case Some(e) => Some(if e != "" then StreamFailurePrefix + e else StreamFailureFallback)
  }

  /** A file picked through the native file input. */
  datatype PickedFile = PickedFile(size: nat, mimeType: string)

  const ImageMimeType: string := "image/jpeg"

  class MediaCaptureModal {
    const service: MediaCaptureService
    var visible: bool
    var mode: CaptureMode
    var isLoading: bool
    var hasPermission: bool
    var permissionMessage: string
    var isRecording: bool
    var isPaused: bool
    /** Seconds shown on the recording clock. */
    var recordingTime: nat
    var showPreview: bool
    var capturedResult: Option<CaptureResult>
    var supportsMediaRecorder: bool
    var supportsPauseResume: bool
    /** Whether the component holds an interval handle. */
    var recordingTimer: bool
    /** How many one-second intervals are running, including any whose
        handle was overwritten and so can no longer be cleared. */
    var liveTimers: nat
    var stream: Option<Stream>
    /** Results emitted through `onCapture`, and the number of `onCancel`
        emissions. */
    var emitted: seq<CaptureResult>
    var cancels: nat

    /** A preview is shown exactly when there is a result to show, and a
        held handle belongs to a running interval. */
    ghost predicate Valid()
      reads this`showPreview, this`capturedResult, this`recordingTimer, this`liveTimers
    {
      && (showPreview <==> capturedResult.Some?)
      && (recordingTimer ==> liveTimers >= 1)
    }

    /** No interval runs except the one whose handle is held. */
    ghost predicate TimerSound()
      reads this`recordingTimer, this`liveTimers
    {
      liveTimers == if recordingTimer then 1 else 0
    }

    /** The state `cleanup` leaves: nothing recorded, shown or running. */
    ghost predicate Cleaned()
      reads this`stream, this`isRecording, this`isPaused, this`recordingTime, this`showPreview
      reads this`capturedResult, this`recordingTimer, service`currentStream, service`recorder
    {
      && stream.None? && !isRecording && !isPaused && recordingTime == 0
      && !showPreview && capturedResult.None? && !recordingTimer
      && service.currentStream.None? && service.recorder.None?
    }

    /** `hasRecorder` and `hasPause` are the feature tests on the browser. */
    constructor (service: MediaCaptureService, hasRecorder: bool, hasPause: bool)
      ensures Valid() && TimerSound()
      ensures this.service == service
      ensures !visible && mode == Image
      ensures supportsMediaRecorder == hasRecorder
      ensures supportsPauseResume == (hasRecorder && hasPause)
      ensures !isLoading && !hasPermission && permissionMessage == ""
      ensures !isRecording && !isPaused && recordingTime == 0
      ensures !showPreview && capturedResult.None? && stream.None?
      ensures !recordingTimer && liveTimers == 0 && emitted == [] && cancels == 0
    {
      this.service := service;
      visible, mode := false, Image;
      isLoading, hasPermission, permissionMessage := false, false, "";
      isRecording, isPaused, recordingTime := false, false, 0;
      showPreview, capturedResult := false, None;
      supportsMediaRecorder := hasRecorder;
      supportsPauseResume := hasRecorder && hasPause;
      recordingTimer, liveTimers := false, 0;
      stream := None;
      emitted, cancels := [], 0;
    }

    /** `initializeCapture`: clears any preview, then either ends with the
        message `InitFailure` gives, or holds a stream carrying exactly the
        devices the mode needs. */
    method InitializeCapture(env: CaptureEnv)
      requires Valid()
      modifies this`isLoading, this`hasPermission, this`showPreview, this`capturedResult,
               this`permissionMessage, this`stream, service`currentStream
      ensures Valid()
      ensures !isLoading && !showPreview && capturedResult.None?
      ensures hasPermission <==> InitFailure(mode, supportsMediaRecorder, env).None?
      ensures hasPermission ==>
        && stream == Some(Stream(NeedsCamera(mode), NeedsMicrophone(mode)))
        && service.currentStream == stream
        && permissionMessage == old(permissionMessage)
      ensures !hasPermission ==>
        && permissionMessage == InitFailure(mode, supportsMediaRecorder, env).value
        && stream == old(stream) && service.currentStream == old(service.currentStream)
    {
      isLoading, hasPermission, showPreview, capturedResult := true, false, false, None;
      var failure, acquired := Acquire(env);
      if failure.Some? {
        permissionMessage := failure.value;
      } else {
        stream := acquired;
        hasPermission := true;
      }
      isLoading := false;
    }

    /** The checks `initializeCapture` makes in turn (media devices, a
        recorder for the recording modes, the permission probe, the stream
        request) and the stream it obtains when all of them pass. */
    method Acquire(env: CaptureEnv) returns (failure: Option<string>, acquired: Option<Stream>)
      modifies service`currentStream
      ensures failure == InitFailure(mode, supportsMediaRecorder, env)
      ensures failure.None? ==>
        acquired == Some(Stream(NeedsCamera(mode), NeedsMicrophone(mode)))
        && service.currentStream == acquired
      ensures failure.Some? ==> service.currentStream == old(service.currentStream)
    {
      acquired := None;
      if !env.hasGetUserMedia {
        failure := Some(NoMediaDevicesMessage);
      } else if mode != Image && !supportsMediaRecorder {
        failure := Some(NoRecorderMessage(mode));
      } else {
        var status := CheckPermissions(NeedsCamera(mode), NeedsMicrophone(mode), env.probe, env.instructions);
        if !status.granted {
          failure := Some(if status.message != "" then status.message else PermissionDeniedFallback);
        } else {
          acquired := OpenStream(env.streamError.None?);
          if acquired.None? {
            var e := env.streamError.value;
            failure := Some(if e != "" then StreamFailurePrefix + e else StreamFailureFallback);
          } else {
            failure := None;
          }
        }
      }
    }

    /** Opens the stream the mode needs: the camera, with sound for a
        video, or the microphone alone; `granted` is whether the browser
        hands it out. */
    method OpenStream(granted: bool) returns (acquired: Option<Stream>)
      modifies service`currentStream
      ensures granted ==>
        acquired == Some(Stream(NeedsCamera(mode), NeedsMicrophone(mode)))
        && service.currentStream == acquired
      ensures !granted ==> acquired.None? && service.currentStream == old(service.currentStream)
    {
      if mode == Image || mode == Video {
        acquired := service.StartCameraStream(mode == Video, granted);
      } else {
        acquired := service.StartAudioStream(granted);
      }
    }

    /** Starts a one-second interval and keeps its handle; a handle already
        held is overwritten, not cleared. */
    method StartTimer()
      modifies this`recordingTimer, this`liveTimers
      ensures recordingTimer && liveTimers == old(liveTimers) + 1
    {
      liveTimers := liveTimers + 1;
      recordingTimer := true;
    }

    /** Clears the interval whose handle is held, if any. */
    method StopTimer()
      requires Valid()
      modifies this`recordingTimer, this`liveTimers
      ensures Valid()
      ensures !recordingTimer
      ensures liveTimers == (if old(recordingTimer) then old(liveTimers) - 1 else old(liveTimers))
      ensures old(TimerSound()) ==> liveTimers == 0
    {
      if recordingTimer {
        liveTimers := liveTimers - 1;
        recordingTimer := false;
      }
    }

    /** One second passes: every running interval advances the clock. */
    method Tick()
      modifies this`recordingTime
      ensures recordingTime == old(recordingTime) + liveTimers
      ensures liveTimers == 0 ==> recordingTime == old(recordingTime)
    {
      recordingTime := recordingTime + liveTimers;
    }

    /** `startRecording`: needs a stream; the clock restarts from zero and
        a video or audio recorder is started, and when the recorder cannot
        be built or started the recording flag and the timer are taken
        back. */
    method StartRecording(supported: set<string>, built: bool, started: bool)
      requires Valid()
      modifies this`isRecording, this`recordingTime, this`recordingTimer, this`liveTimers,
               service`recorder, service`recordedChunks
      ensures Valid()
      ensures stream.None? ==>
        && isRecording == old(isRecording) && recordingTime == old(recordingTime)
        && recordingTimer == old(recordingTimer) && liveTimers == old(liveTimers)
        && service.recorder == old(service.recorder)
        && service.recordedChunks == old(service.recordedChunks)
      ensures stream.Some? ==> recordingTime == 0
      ensures mode == Image ==>
        service.recorder == old(service.recorder)
        && service.recordedChunks == old(service.recordedChunks)
      ensures stream.Some? && (mode == Image || (built && started)) ==>
        && isRecording && recordingTimer && liveTimers == old(liveTimers) + 1
        && (!old(recordingTimer) && old(TimerSound()) ==> TimerSound())
      ensures stream.Some? && mode != Image ==>
        && service.recordedChunks == []
        && var mime := if mode == Video then MimeChoice(VideoMimeTypes, supported, VideoFallback)
                       else MimeChoice(AudioMimeTypes, supported, AudioFallback);
           && (built && started ==> service.recorder == Some(Recorder(Recording, mime)))
           && (built && !started ==> service.recorder == Some(Recorder(Inactive, mime)))
           && (!built ==> service.recorder == old(service.recorder))
      ensures stream.Some? && mode != Image && !(built && started) ==>
        && !isRecording && !recordingTimer
        && liveTimers == old(liveTimers)
    {
      if stream.None? {
        return;
      }
      isRecording := true;
      recordingTime := 0;
      StartTimer();
      if mode != Image {
        var ok := service.StartRecorder(mode, supported, built, started);
        if !ok {
          isRecording := false;
          StopTimer();
        }
      }
    }

    /** `pauseRecording`: pauses the recorder if it is recording and stops
        the clock. */
    method PauseRecording()
      requires Valid()
      modifies this`isPaused, this`recordingTimer, this`liveTimers, service`recorder
      ensures Valid()
      ensures isPaused && !recordingTimer
      ensures liveTimers == (if old(recordingTimer) then old(liveTimers) - 1 else old(liveTimers))
      ensures old(TimerSound()) ==> liveTimers == 0
      ensures old(service.recorder).Some? && old(service.recorder).value.state == Recording ==>
        service.recorder == Some(old(service.recorder).value.(state := Paused))
      ensures !(old(service.recorder).Some? && old(service.recorder).value.state == Recording) ==>
        service.recorder == old(service.recorder)
    {
      service.PauseRecording();
      isPaused := true;
      StopTimer();
    }

    /** `resumeRecording`: resumes the recorder if it is paused and starts
        the clock again. */
    method ResumeRecording()
      requires Valid()
      modifies this`isPaused, this`recordingTimer, this`liveTimers, service`recorder
      ensures Valid()
      ensures !isPaused && recordingTimer && liveTimers == old(liveTimers) + 1
      ensures !old(recordingTimer) && old(TimerSound()) ==> TimerSound()
      ensures old(service.recorder).Some? && old(service.recorder).value.state == Paused ==>
        service.recorder == Some(old(service.recorder).value.(state := Recording))
      ensures !(old(service.recorder).Some? && old(service.recorder).value.state == Paused) ==>
        service.recorder == old(service.recorder)
    {
      service.ResumeRecording();
      isPaused := false;
      StartTimer();
    }

    /** `stopRecording`: does nothing unless recording. Otherwise the clock
        stops and the recorder is asked for its result: a result becomes
        the preview, a rejection ends loading, and a recorder that was
        already inactive never answers, leaving the dialog loading. */
    method StopRecording(supported: set<string>)
      requires Valid()
      modifies this`isLoading, this`isRecording, this`isPaused, this`recordingTimer,
               this`liveTimers, this`capturedResult, this`showPreview,
               service`recorder, service`recordedChunks, service`recorderStops
      ensures Valid()
      ensures !old(isRecording) ==> unchanged(this) && unchanged(service)
      ensures old(isRecording) ==>
        && !isRecording && !isPaused && !recordingTimer
        && liveTimers == (if old(recordingTimer) then old(liveTimers) - 1 else old(liveTimers))
        && (old(TimerSound()) ==> liveTimers == 0)
        && service.recorderStops ==
             (if old(service.recorder).Some? then old(service.recorderStops) + 1
              else old(service.recorderStops))
      ensures old(isRecording) && old(service.recorder).None? ==>
        && !isLoading && capturedResult == old(capturedResult)
        && service.recorder == old(service.recorder)
        && service.recordedChunks == old(service.recordedChunks)
      ensures old(isRecording) && old(service.recorder).Some?
              && old(service.recorder).value.state == Inactive ==>
        && isLoading && capturedResult == old(capturedResult)
        && service.recorder == old(service.recorder)
        && service.recordedChunks == old(service.recordedChunks)
      ensures old(isRecording) && old(service.recorder).Some?
              && old(service.recorder).value.state != Inactive ==>
        && !isLoading && showPreview
        && capturedResult == Some(CaptureResult(mode, old(service.recordedChunks),
             if mode == Video then MimeChoice(VideoMimeTypes, supported, VideoFallback)
             else MimeChoice(AudioMimeTypes, supported, AudioFallback)))
        && service.recorder == Some(old(service.recorder).value.(state := Inactive))
        && service.recordedChunks == []
    {
      if !isRecording {
        return;
      }
      isLoading, isRecording, isPaused := true, false, false;
      StopTimer();
      var outcome := service.StopRecording(mode, supported);
      match outcome {
        case Captured(result) =>
          capturedResult := Some(result);
          showPreview := true;
          isLoading := false;
        case Rejected(_) =>
          isLoading := false;
          isRecording := false;
          StopTimer();
        case Pending =>
      }
    }

    /** `captureImage`: needs the live video element; the frame encoder
        either hands back a JPEG of `frame` bytes, which becomes the
        preview, or (no blob) never answers, leaving the dialog loading. */
    method CaptureImage(hasVideoElement: bool, frame: Option<nat>)
      requires Valid()
      modifies this`isLoading, this`capturedResult, this`showPreview
      ensures Valid()
      ensures !hasVideoElement ==> unchanged(this)
      ensures hasVideoElement && frame.None? ==>
        isLoading && capturedResult == old(capturedResult) && showPreview == old(showPreview)
      ensures hasVideoElement && frame.Some? ==>
        && !isLoading && showPreview
        && capturedResult == Some(CaptureResult(Image, [frame.value], ImageMimeType))
    {
      if !hasVideoElement {
        return;
      }
      isLoading := true;
      if frame.Some? {
        capturedResult := Some(CaptureResult(Image, [frame.value], ImageMimeType));
        showPreview := true;
        isLoading := false;
      }
    }

    /** `handleFileInput`: the first picked file, if any, becomes the
        preview, typed with the dialog's mode. */
    method HandleFileInput(files: seq<PickedFile>)
      requires Valid()
      modifies this`capturedResult, this`showPreview, this`hasPermission, this`isLoading
      ensures Valid()
      ensures files == [] ==> unchanged(this)
      ensures files != [] ==>
        && capturedResult == Some(CaptureResult(mode, [files[0].size], files[0].mimeType))
        && showPreview && hasPermission && !isLoading
    {
      if |files| > 0 {
        var file := files[0];
        capturedResult := Some(CaptureResult(mode, [file.size], file.mimeType));
        showPreview, hasPermission, isLoading := true, true, false;
      }
    }

    /** `cleanup`: releases the streams and the recorder, stops the clock
        and forgets any result. Cleaning a cleaned dialog changes nothing:
        every field it writes already has the value `Cleaned` fixes, and
        the interval and recorder-stop counts stay put. */
    method Cleanup()
      requires Valid()
      modifies this`stream, this`isRecording, this`isPaused, this`recordingTime,
               this`showPreview, this`capturedResult, this`recordingTimer, this`liveTimers,
               service`currentStream, service`recorder, service`recorderStops
      ensures Valid() && Cleaned()
      ensures old(TimerSound()) ==> liveTimers == 0
      ensures liveTimers == (if old(recordingTimer) then old(liveTimers) - 1 else old(liveTimers))
      ensures service.recorderStops ==
        (if old(service.recorder).Some? && old(service.recorder).value.state != Inactive
         then old(service.recorderStops) + 1 else old(service.recorderStops))
      ensures old(Cleaned()) ==>
        liveTimers == old(liveTimers) && service.recorderStops == old(service.recorderStops)
    {
      service.StopAllStreams();
      StopTimer();
      stream := None;
      isRecording, isPaused, recordingTime := false, false, 0;
      showPreview, capturedResult := false, None;
    }

    /** `close`: cleans up and hides the dialog. */
    method Close()
      requires Valid()
      modifies this`visible, this`stream, this`isRecording, this`isPaused, this`recordingTime,
               this`showPreview, this`capturedResult, this`recordingTimer, this`liveTimers,
               service`currentStream, service`recorder, service`recorderStops
      ensures Valid() && Cleaned() && !visible
      ensures liveTimers == (if old(recordingTimer) then old(liveTimers) - 1 else old(liveTimers))
      ensures old(TimerSound()) ==> liveTimers == 0
      ensures service.recorderStops ==
        (if old(service.recorder).Some? && old(service.recorder).value.state != Inactive
         then old(service.recorderStops) + 1 else old(service.recorderStops))
    {
      Cleanup();
      visible := false;
    }

    /** `save`: emits the result and closes, and does nothing when there is
        no result to save. */
    method Save()
      requires Valid()
      modifies this`emitted, this`visible, this`stream, this`isRecording, this`isPaused, this`recordingTime,
               this`showPreview, this`capturedResult, this`recordingTimer, this`liveTimers,
               service`currentStream, service`recorder, service`recorderStops
      ensures Valid()
      ensures old(capturedResult).None? ==> unchanged(this) && unchanged(service)
      ensures old(capturedResult).Some? ==>
        && emitted == old(emitted) + [old(capturedResult).value] && Cleaned() && !visible
        && liveTimers == (if old(recordingTimer) then old(liveTimers) - 1 else old(liveTimers))
        && service.recorderStops ==
             (if old(service.recorder).Some? && old(service.recorder).value.state != Inactive
              then old(service.recorderStops) + 1 else old(service.recorderStops))
    {
      if capturedResult.Some? {
        emitted := emitted + [capturedResult.value];
        Close();
      }
    }

    /** `cancel`: emits the cancellation and closes. */
    method Cancel()
      requires Valid()
      modifies this`cancels, this`visible, this`stream, this`isRecording, this`isPaused, this`recordingTime,
               this`showPreview, this`capturedResult, this`recordingTimer, this`liveTimers,
               service`currentStream, service`recorder, service`recorderStops
      ensures Valid() && Cleaned() && !visible
      ensures cancels == old(cancels) + 1
      ensures liveTimers == (if old(recordingTimer) then old(liveTimers) - 1 else old(liveTimers))
      ensures service.recorderStops ==
        (if old(service.recorder).Some? && old(service.recorder).value.state != Inactive
         then old(service.recorderStops) + 1 else old(service.recorderStops))
    {
      cancels := cancels + 1;
      Close();
    }

    /** `retake`: drops the result and the recording state, stops the
        clock and initialises again. */
    method Retake(env: CaptureEnv)
      requires Valid()
      modifies this`showPreview, this`capturedResult, this`isRecording, this`isPaused,
               this`recordingTime, this`recordingTimer, this`liveTimers,
               this`isLoading, this`hasPermission, this`permissionMessage, this`stream,
               service`currentStream
      ensures Valid()
      ensures !showPreview && capturedResult.None? && !isLoading
      ensures !isRecording && !isPaused && recordingTime == 0 && !recordingTimer
      ensures old(TimerSound()) ==> liveTimers == 0
      ensures liveTimers == (if old(recordingTimer) then old(liveTimers) - 1 else old(liveTimers))
      ensures hasPermission <==> InitFailure(mode, supportsMediaRecorder, env).None?
      ensures hasPermission ==>
        && stream == Some(Stream(NeedsCamera(mode), NeedsMicrophone(mode)))
        && service.currentStream == stream
        && permissionMessage == old(permissionMessage)
      ensures !hasPermission ==>
        && permissionMessage == InitFailure(mode, supportsMediaRecorder, env).value
        && stream == old(stream) && service.currentStream == old(service.currentStream)
    {
      showPreview, capturedResult := false, None;
      isRecording, isPaused, recordingTime := false, false, 0;
      StopTimer();
      InitializeCapture(env);
    }

    /** `ngOnInit`: initialises when the dialog starts visible. */
    method OnInit(env: CaptureEnv)
      requires Valid()
      modifies this`isLoading, this`hasPermission, this`showPreview, this`capturedResult,
               this`permissionMessage, this`stream, service`currentStream
      ensures Valid()
      ensures !visible ==> unchanged(this) && unchanged(service)
      ensures visible ==> !isLoading && !showPreview && capturedResult.None?
      ensures visible ==> (hasPermission <==> InitFailure(mode, supportsMediaRecorder, env).None?)
      ensures visible && hasPermission ==>
        && stream == Some(Stream(NeedsCamera(mode), NeedsMicrophone(mode)))
        && service.currentStream == stream
        && permissionMessage == old(permissionMessage)
      ensures visible && !hasPermission ==>
        && permissionMessage == InitFailure(mode, supportsMediaRecorder, env).value
        && stream == old(stream) && service.currentStream == old(service.currentStream)
    {
      if visible {
        InitializeCapture(env);
      }
    }

    /** `ngOnChanges`: a visible dialog initialises, a hidden one cleans
        up. */
    method OnChanges(env: CaptureEnv)
      requires Valid()
      modifies this`isLoading, this`hasPermission, this`permissionMessage, this`stream, this`isRecording, this`isPaused, this`recordingTime,
               this`showPreview, this`capturedResult, this`recordingTimer, this`liveTimers,
               service`currentStream, service`recorder, service`recorderStops
      ensures Valid()
      ensures visible ==> !isLoading && !showPreview && capturedResult.None?
      ensures visible ==> (hasPermission <==> InitFailure(mode, supportsMediaRecorder, env).None?)
      ensures visible && hasPermission ==>
        && stream == Some(Stream(NeedsCamera(mode), NeedsMicrophone(mode)))
        && service.currentStream == stream
        && permissionMessage == old(permissionMessage)
      ensures visible && !hasPermission ==>
        && permissionMessage == InitFailure(mode, supportsMediaRecorder, env).value
        && stream == old(stream) && service.currentStream == old(service.currentStream)
      ensures !visible ==> Cleaned()
      ensures !visible ==> liveTimers == (if old(recordingTimer) then old(liveTimers) - 1 else old(liveTimers))
      ensures !visible ==>
        service.recorderStops ==
          (if old(service.recorder).Some? && old(service.recorder).value.state != Inactive
           then old(service.recorderStops) + 1 else old(service.recorderStops))
    {
      if visible {
        InitializeCapture(env);
      } else {
        Cleanup();
      }
    }

    /** `ngOnDestroy`. */
    method OnDestroy()
      requires Valid()
      modifies this`stream, this`isRecording, this`isPaused, this`recordingTime,
               this`showPreview, this`capturedResult, this`recordingTimer, this`liveTimers,
               service`currentStream, service`recorder, service`recorderStops
      ensures Valid() && Cleaned()
      ensures liveTimers == (if old(recordingTimer) then old(liveTimers) - 1 else old(liveTimers))
      ensures old(TimerSound()) ==> liveTimers == 0
      ensures service.recorderStops ==
        (if old(service.recorder).Some? && old(service.recorder).value.state != Inactive
         then old(service.recorderStops) + 1 else old(service.recorderStops))
    {
      Cleanup();
    }
  }
}
