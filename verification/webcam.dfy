/** The `useWebcam` hook (src/hooks/use-webcam.ts) as a state record with
    step functions.

    The hook's React state is the record `Webcam`; each operation returns
    the state after its setter calls, in the order they run, together with
    the platform calls it made. Camera acquisitions are outcome parameters.
    Inside one `switchCamera` call the closure sees the facing mode of the
    render that created it, so the fallback request uses the facing mode the
    call started with. */
module Webcam {
  import opened Common

  const User: string := "user"
  const Environment: string := "environment"
  const VideoInput: string := "videoinput"

  /** The resolution hints of the primary requests: ideal 1280 x 720. */
  datatype Resolution = Resolution(idealWidth: nat, idealHeight: nat)
  const Hd: Resolution := Resolution(1280, 720)

  /** The video constraints of one getUserMedia call. */
  datatype VideoRequest = VideoRequest(facingMode: string, hints: Option<Resolution>)

  /** A platform call made by the hook. */
  datatype CameraCall =
    | StopTracks(stream: nat)           // stop every track of the stream
    | GetUserMedia(request: VideoRequest)

  /** An entry of `enumerateDevices()`; only its kind matters here. */
  datatype DeviceInfo = DeviceInfo(kind: string)

  /** The hook's state: the stream (`null` is `None`), the streaming flag,
      the facing mode, and the cached camera inventory. */
  datatype Webcam = Webcam(
    stream: Option<nat>,
    isStreaming: bool,
    facingMode: string,
    hasMultipleCameras: bool)

  /** The outcome of an asynchronous operation of the hook. */
  datatype Transition = Transition(webcam: Webcam, calls: seq<CameraCall>, result: Result<nat>)

  /** The outcome of `stop`, which returns nothing. */
  datatype Stopped = Stopped(webcam: Webcam, calls: seq<CameraCall>)

  /** Which track listener fired. */
  datatype TrackEvent = Ended | TrackError

  /** The state of a freshly mounted hook. */
  function Mount(): (w: Webcam)
    ensures Consistent(w) && w.stream.None? && w.facingMode == User && !w.hasMultipleCameras
  {
    Webcam(None, false, User, false)
  }

  predicate ValidFacingMode(m: string) {
    m == User || m == Environment
  }

  /** What every reachable state satisfies: streaming exactly while a
      stream is held, and a facing mode the hook itself produces. */
  predicate Consistent(w: Webcam) {
    && (w.isStreaming <==> w.stream.Some?)
    && ValidFacingMode(w.facingMode)
  }

  // ---------------------------------------------------------------------
  // Camera inventory
  // ---------------------------------------------------------------------

  /** `devices.filter(device => device.kind === 'videoinput')` */
  function VideoInputs(devices: seq<DeviceInfo>): (cams: seq<DeviceInfo>)
    ensures |cams| <= |devices|
    ensures forall i :: 0 <= i < |cams| ==> cams[i].kind == VideoInput && cams[i] in devices
    ensures forall i :: 0 <= i < |devices| && devices[i].kind == VideoInput ==> devices[i] in cams
  {
    if |devices| == 0 then []
    else if devices[0].kind == VideoInput then [devices[0]] + VideoInputs(devices[1..])
    else VideoInputs(devices[1..])
  }

  /** Some entry is a video input exactly when the filter keeps one. */
  lemma {:induction false} SomeVideoInput(devices: seq<DeviceInfo>)
    ensures |VideoInputs(devices)| >= 1 <==> exists j :: 0 <= j < |devices| && devices[j].kind == VideoInput
  {
    if |devices| > 0 {
      var rest := devices[1..];
      SomeVideoInput(rest);
      if exists j :: 0 <= j < |rest| && rest[j].kind == VideoInput {
        var j :| 0 <= j < |rest| && rest[j].kind == VideoInput;
        assert devices[j + 1].kind == VideoInput;
      }
      if exists j :: 0 <= j < |devices| && devices[j].kind == VideoInput {
        var j :| 0 <= j < |devices| && devices[j].kind == VideoInput;
        if j > 0 {
          assert rest[j - 1].kind == VideoInput;
        }
      }
    }
  }

  predicate TwoVideoInputs(devices: seq<DeviceInfo>) {
    exists i, j :: 0 <= i < j < |devices| && devices[i].kind == VideoInput && devices[j].kind == VideoInput
  }

  /** The filter keeps more than one entry exactly when two distinct entries
      are video inputs. */
  lemma {:induction false} MultipleVideoInputs(devices: seq<DeviceInfo>)
    ensures |VideoInputs(devices)| > 1 <==> TwoVideoInputs(devices)
  {
    if |devices| > 0 {
      var rest := devices[1..];
      MultipleVideoInputs(rest);
      SomeVideoInput(rest);
      if TwoVideoInputs(rest) {
        var i, j :| 0 <= i < j < |rest| && rest[i].kind == VideoInput && rest[j].kind == VideoInput;
        assert devices[i + 1] == rest[i] && devices[j + 1] == rest[j];
      }
      if devices[0].kind == VideoInput && exists j :: 0 <= j < |rest| && rest[j].kind == VideoInput {
        var j :| 0 <= j < |rest| && rest[j].kind == VideoInput;
        assert devices[j + 1] == rest[j];
      }
      if TwoVideoInputs(devices) {
        var i, j :| 0 <= i < j < |devices| && devices[i].kind == VideoInput && devices[j].kind == VideoInput;
        assert rest[j - 1] == devices[j];
        if i > 0 {
          assert rest[i - 1] == devices[i];
        }
      }
    }
  }

  /** The result of the inventory probe: more than one video input, and
      false when enumeration fails. */
  function HasMultipleCameras(enumeration: Result<seq<DeviceInfo>>): (multiple: bool)
    ensures multiple <==> enumeration.Ok? && TwoVideoInputs(enumeration.value)
  {
    match enumeration
    case Ok(devices) =>
      MultipleVideoInputs(devices);
      |VideoInputs(devices)| > 1
    case Fail(_) => false
  }

  /** The mount effect `checkDevices`: caches the inventory, nothing else. */
  function CheckDevices(w: Webcam, enumeration: Result<seq<DeviceInfo>>): (w': Webcam)
    ensures w'.hasMultipleCameras <==> enumeration.Ok? && TwoVideoInputs(enumeration.value)
    ensures w'.(hasMultipleCameras := w.hasMultipleCameras) == w
  {
    w.(hasMultipleCameras := HasMultipleCameras(enumeration))
  }

  // ---------------------------------------------------------------------
  // Facing mode
  // ---------------------------------------------------------------------

  /** `facingMode === "user" ? "environment" : "user"` */
  function Toggle(m: string): (t: string)
    ensures ValidFacingMode(t)
    ensures t == User <==> m != User
  {
    if m == User then Environment else User
  }

  /** Toggling twice is the identity on the two facing modes, and toggling
      changes every one of them. */
  lemma ToggleInvolution(m: string)
    requires ValidFacingMode(m)
    ensures Toggle(Toggle(m)) == m
    ensures Toggle(m) != m
  {
  }

  // ---------------------------------------------------------------------
  // start / stop / track events
  // ---------------------------------------------------------------------

  /** `start()`: request the current facing mode with resolution hints. */
  function Start(w: Webcam, acquired: Result<nat>): (t: Transition)
    ensures t.calls == [GetUserMedia(VideoRequest(w.facingMode, Some(Hd)))]
    ensures t.result == acquired
    ensures t.webcam.isStreaming <==> acquired.Ok?
    ensures acquired.Ok? ==> t.webcam.stream == Some(acquired.value)
    ensures acquired.Fail? ==> t.webcam.stream.None?
    ensures t.webcam.facingMode == w.facingMode && t.webcam.hasMultipleCameras == w.hasMultipleCameras
  {
    var calls := [GetUserMedia(VideoRequest(w.facingMode, Some(Hd)))];
    match acquired
    case Ok(stream) => Transition(w.(stream := Some(stream), isStreaming := true), calls, acquired)
    case Fail(e) => Transition(w.(isStreaming := false, stream := None), calls, Fail(e))
  }

  /** `stop()`: with a stream, stop its tracks and clear it; without one,
      nothing happens. */
  function Stop(w: Webcam): (s: Stopped)
    ensures s.webcam.stream.None?
    ensures w.stream.Some? ==> s.calls == [StopTracks(w.stream.value)] && !s.webcam.isStreaming
    ensures w.stream.None? ==> s == Stopped(w, [])
    ensures s.webcam.facingMode == w.facingMode && s.webcam.hasMultipleCameras == w.hasMultipleCameras
  {
    match w.stream
    case Some(stream) => Stopped(w.(stream := None, isStreaming := false), [StopTracks(stream)])
    case None => Stopped(w, [])
  }

  /** A second `stop` stops nothing and changes nothing. */
  lemma StopIdempotent(w: Webcam)
    ensures Stop(Stop(w).webcam) == Stopped(Stop(w).webcam, [])
  {
  }

  /** The `ended` and `error` listeners on the current stream's tracks both
      end streaming. Listeners exist only while a stream is set. */
  function OnTrackEvent(w: Webcam, event: TrackEvent): (w': Webcam)
    ensures w'.stream.None?
    ensures w.stream.Some? ==> !w'.isStreaming
    ensures w'.facingMode == w.facingMode && w'.hasMultipleCameras == w.hasMultipleCameras
  {
    if w.stream.Some? then w.(isStreaming := false, stream := None) else w
  }

  // ---------------------------------------------------------------------
  // switchCamera
  // ---------------------------------------------------------------------

  /** `switchCamera`, which is `undefined` (`None`) unless the inventory
      found more than one camera. It stops the current stream, stores the
      toggled facing mode and requests it with resolution hints; if that
      fails it falls back to the facing mode the call started with, without
      hints. A successful fallback resolves with its stream and leaves the
      toggled facing mode stored; a failed one clears the stream and throws
      the fallback's error. */
  function SwitchCamera(w: Webcam, primary: Result<nat>, fallback: Result<nat>): (t: Option<Transition>)
    ensures t.Some? <==> w.hasMultipleCameras
  {
    if !w.hasMultipleCameras then None
    else
      var entryMode := w.facingMode;
      var stopped := Stop(w);
      var toggled := Toggle(entryMode);
      var switching := stopped.webcam.(facingMode := toggled);
      var calls := stopped.calls + [GetUserMedia(VideoRequest(toggled, Some(Hd)))];
      match primary
      case Ok(stream) =>
        Some(Transition(switching.(stream := Some(stream), isStreaming := true), calls, primary))
      case Fail(_) =>
        var calls' := calls + [GetUserMedia(VideoRequest(entryMode, None))];
        match fallback
        case Ok(stream) =>
          Some(Transition(switching.(stream := Some(stream), isStreaming := true), calls', fallback))
        case Fail(e) =>
          Some(Transition(switching.(isStreaming := false, stream := None), calls', Fail(e)))
  }

  /** A successful switch stops the old stream before its single request,
      which asks for the toggled facing mode with hints; it stores that mode
      and streams the new stream. */
  lemma SwitchSuccess(w: Webcam, primary: Result<nat>, fallback: Result<nat>)
    requires w.hasMultipleCameras && primary.Ok?
    ensures var t := SwitchCamera(w, primary, fallback).value;
      && t.calls == (if w.stream.Some? then [StopTracks(w.stream.value)] else [])
                    + [GetUserMedia(VideoRequest(Toggle(w.facingMode), Some(Hd)))]
      && t.webcam == Webcam(Some(primary.value), true, Toggle(w.facingMode), true)
      && t.result == primary
  {
  }

  /** When the primary request fails and the fallback succeeds, the fallback
      asks for the pre-call facing mode without hints, the call resolves with
      the fallback stream, and the stored facing mode stays toggled. */
  lemma SwitchFallbackSuccess(w: Webcam, primary: Result<nat>, fallback: Result<nat>)
    requires w.hasMultipleCameras && primary.Fail? && fallback.Ok?
    ensures var t := SwitchCamera(w, primary, fallback).value;
      && t.calls[|t.calls| - 1] == GetUserMedia(VideoRequest(w.facingMode, None))
      && t.result == fallback
      && t.webcam == Webcam(Some(fallback.value), true, Toggle(w.facingMode), true)
  {
  }

  /** When both requests fail, the hook ends without a stream and the
      fallback's error is the one thrown. */
  lemma SwitchFallbackFailure(w: Webcam, primary: Result<nat>, fallback: Result<nat>)
    requires w.hasMultipleCameras && primary.Fail? && fallback.Fail?
    ensures var t := SwitchCamera(w, primary, fallback).value;
      && t.result == Fail(fallback.error)
      && t.webcam.stream.None? && !t.webcam.isStreaming
      && |t.calls| >= 2
      && t.calls[|t.calls| - 2] == GetUserMedia(VideoRequest(Toggle(w.facingMode), Some(Hd)))
      && t.calls[|t.calls| - 1] == GetUserMedia(VideoRequest(w.facingMode, None))
  {
  }

  /** Every operation of the hook keeps a consistent state consistent. */
  lemma OperationsPreserveConsistent(w: Webcam, outcome: Result<nat>, fallback: Result<nat>,
                                     enumeration: Result<seq<DeviceInfo>>, event: TrackEvent)
    requires Consistent(w)
    ensures Consistent(Start(w, outcome).webcam)
    ensures Consistent(Stop(w).webcam)
    ensures Consistent(OnTrackEvent(w, event))
    ensures Consistent(CheckDevices(w, enumeration))
    ensures SwitchCamera(w, outcome, fallback).Some? ==> Consistent(SwitchCamera(w, outcome, fallback).value.webcam)
  {
  }

  // ---------------------------------------------------------------------
  // Stored facing mode after a recovered switch
  // ---------------------------------------------------------------------

  /** The stored facing mode is the one the live stream was requested with:
      the last call of an operation that ends streaming is a request for
      the stored facing mode. */
  predicate FacingModeMatchesStream(t: Transition) {
    t.webcam.stream.Some? ==>
      && |t.calls| > 0
      && t.calls[|t.calls| - 1].GetUserMedia?
      && t.calls[|t.calls| - 1].request.facingMode == t.webcam.facingMode
  }

  /** As written, a switch rescued by the fallback streams the pre-call
      camera while storing the toggled facing mode. */
  lemma FallbackMislabelsCamera()
    ensures var t := SwitchCamera(Webcam(Some(1), true, User, true), Fail(Error("NotReadableError")), Ok(2)).value;
      && t.webcam.facingMode == Environment
      && t.calls[|t.calls| - 1] == GetUserMedia(VideoRequest(User, None))
      && !FacingModeMatchesStream(t)
  {
  }

  /** `switchCamera` with the facing mode restored to its pre-call value
      when the fallback succeeds; otherwise as written. */
  function SwitchCameraRestoring(w: Webcam, primary: Result<nat>, fallback: Result<nat>): (t: Option<Transition>)
    ensures t.Some? <==> w.hasMultipleCameras
    ensures t.Some? ==> FacingModeMatchesStream(t.value)
    ensures t.Some? && primary.Fail? && fallback.Ok? ==> t.value.webcam.facingMode == w.facingMode
  {
    match SwitchCamera(w, primary, fallback)
    case None => None
    case Some(t) =>
      if primary.Fail? && fallback.Ok? then Some(t.(webcam := t.webcam.(facingMode := w.facingMode)))
      else Some(t)
  }

  /** `start` already keeps the stored facing mode in step with the stream. */
  lemma StartMatchesStream(w: Webcam, acquired: Result<nat>)
    ensures FacingModeMatchesStream(Start(w, acquired))
  {
  }
}
