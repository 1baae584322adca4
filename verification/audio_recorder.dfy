/** The lifecycle of `AudioRecorder` (src/lib/audio-recorder.ts) as a state
    record with step functions.

    Every platform call the recorder makes (getUserMedia, the AudioContext
    constructor and `resume`, node creation and wiring, the first metering
    tick) is summarised by a `Platform` record: which call, if any, throws
    first, the error it throws, and the handles the successful calls return.
    Asynchronous interleavings are not modelled: an operation runs to
    completion, and a `starting` flag that is set in the input state stands
    for an attempt that is still in flight when the call arrives. */
module AudioRecorder {
  import opened Common
  import AudioEncoding
  import VolumeMeter

  /** `requestAnimationFrame` returns a positive id, so the truthiness test
      of audio-recorder.ts on the stored id is a presence test. */
  type FrameId = n: nat | n > 0 witness 1

  /** The constructor's default sample rate, in Hz. */
  const DefaultSampleRate: nat := 16000

  /** The error `start` throws when the media-devices API is missing. */
  const NoMediaDevices: Error := Error("Could not request user media")

  /** The recorder's fields. Handles are opaque ids; `None` is `undefined`. */
  datatype Recorder = Recorder(
    sampleRate: nat,
    stream: Option<nat>,
    context: Option<nat>,
    source: Option<nat>,
    analyser: Option<nat>,
    processor: Option<nat>,
    volumeCheckId: Option<FrameId>,
    recording: bool,
    starting: bool)

  /** The six resources `cleanup` releases, in its order. */
  datatype Kind = Frame | Processor | Analyser | Source | Stream | Context

  /** One release performed by `cleanup`: cancelling the animation frame,
      disconnecting a node, stopping the stream's tracks or closing the
      context, with the id of the handle released. */
  datatype Release = Release(kind: Kind, id: nat)

  const TeardownOrder: seq<Kind> := [Frame, Processor, Analyser, Source, Stream, Context]

  /** Position of a kind in the teardown order. */
  function Rank(k: Kind): nat {
    match k
    case Frame => 0
    case Processor => 1
    case Analyser => 2
    case Source => 3
    case Stream => 4
    case Context => 5
  }

  /** The handle of the given kind the recorder holds, if any. */
  function Held(r: Recorder, k: Kind): Option<nat> {
    match k
    case Frame => if r.volumeCheckId.Some? then Some(r.volumeCheckId.value as nat) else None
    case Processor => r.processor
    case Analyser => r.analyser
    case Source => r.source
    case Stream => r.stream
    case Context => r.context
  }

  /** No resource is held. */
  predicate Idle(r: Recorder) {
    && r.volumeCheckId.None?
    && r.processor.None?
    && r.analyser.None?
    && r.source.None?
    && r.stream.None?
    && r.context.None?
  }

  /** Every resource is held. */
  predicate HoldsAll(r: Recorder) {
    && r.volumeCheckId.Some?
    && r.processor.Some?
    && r.analyser.Some?
    && r.source.Some?
    && r.stream.Some?
    && r.context.Some?
  }

  /** The states a recorder can be in between operations: no attempt in
      flight, and the handles present exactly while recording. */
  predicate Quiescent(r: Recorder) {
    && !r.starting
    && (if r.recording then HoldsAll(r) else Idle(r))
  }

  /** A freshly constructed recorder. */
  function Create(sampleRate: nat): (r: Recorder)
    ensures Quiescent(r) && !r.recording && Idle(r)
    ensures r.sampleRate == sampleRate
  {
    Recorder(sampleRate, None, None, None, None, None, None, false, false)
  }

  /** A recorder built with the constructor's default argument. */
  function CreateDefault(): (r: Recorder)
    ensures Quiescent(r) && !r.recording && Idle(r)
    ensures r.sampleRate == 16000
  {
    Create(DefaultSampleRate)
  }

  // ---------------------------------------------------------------------
  // cleanup / stop
  // ---------------------------------------------------------------------

  /** Rank and the teardown order are inverse to each other. */
  lemma RankOrder()
    ensures forall k: Kind :: Rank(k) < |TeardownOrder| && TeardownOrder[Rank(k)] == k
    ensures forall n :: 0 <= n < |TeardownOrder| ==> Rank(TeardownOrder[n]) == n
  {
  }

  /** The guarded releases of `cleanup` from position `n` of the teardown
      order on: a release for each held handle and none for an absent one. */
  function ReleaseFrom(r: Recorder, n: nat): (log: seq<Release>)
    requires n <= |TeardownOrder|
    ensures forall i :: 0 <= i < |log| ==> n <= Rank(log[i].kind) && Held(r, log[i].kind) == Some(log[i].id)
    ensures forall i, j :: 0 <= i < j < |log| ==> Rank(log[i].kind) < Rank(log[j].kind)
    ensures forall k: Kind :: n <= Rank(k) && Held(r, k).Some? ==> Release(k, Held(r, k).value) in log
    decreases |TeardownOrder| - n
  {
    if n == |TeardownOrder| then []
    else
      RankOrder();
      var k := TeardownOrder[n];
      var rest := ReleaseFrom(r, n + 1);
      if Held(r, k).Some? then [Release(k, Held(r, k).value)] + rest else rest
  }

  /** The result of `cleanup`: the new state and the releases performed. */
  datatype Teardown = Teardown(recorder: Recorder, released: seq<Release>)

  /** `cleanup()`: clears `recording`, then releases each present handle in
      the fixed order frame, processor, analyser, source, stream tracks,
      context. A failing `close()` of the context is caught and logged, so
      the context is dropped whatever `close()` does. */
  function Cleanup(r: Recorder): (t: Teardown)
    ensures !t.recorder.recording && Idle(t.recorder)
    ensures t.recorder.starting == r.starting && t.recorder.sampleRate == r.sampleRate
    ensures forall i :: 0 <= i < |t.released| ==> Held(r, t.released[i].kind) == Some(t.released[i].id)
    ensures forall i, j :: 0 <= i < j < |t.released| ==> Rank(t.released[i].kind) < Rank(t.released[j].kind)
    ensures forall k: Kind :: Held(r, k).Some? ==> Release(k, Held(r, k).value) in t.released
    ensures Idle(r) ==> t.released == []
  {
    var log := ReleaseFrom(r, 0);
    assert |log| > 0 ==> Held(r, log[0].kind).Some?;
    Teardown(
      r.(recording := false, volumeCheckId := None, processor := None, analyser := None,
         source := None, stream := None, context := None),
      log)
  }

  /** `stop()` is `cleanup()`. */
  function Stop(r: Recorder): (t: Teardown)
    ensures !t.recorder.recording && Idle(t.recorder)
    ensures forall k: Kind :: Held(r, k).Some? ==> Release(k, Held(r, k).value) in t.released
  {
    Cleanup(r)
  }

  /** A second `stop` releases nothing and changes nothing. */
  lemma StopIdempotent(r: Recorder)
    ensures Stop(Stop(r).recorder) == Teardown(Stop(r).recorder, [])
  {
  }

  // ---------------------------------------------------------------------
  // start
  // ---------------------------------------------------------------------

  /** The platform calls of one start attempt, in the order they are made. */
  datatype Step =
    | RequestMicrophone   // getUserMedia with echo cancellation, noise suppression, gain control
    | CreateContext       // new AudioContext at the recorder's sample rate
    | ResumeContext       // await audioContext.resume()
    | CreateSource        // createMediaStreamSource(stream)
    | CreateAnalyser      // createAnalyser() with fftSize 1024
    | ConnectAnalyser     // source.connect(analyser)
    | CreateProcessor     // createScriptProcessor(4096, 1, 1)
    | ConnectProcessor    // source.connect(processor)
    | ConnectDestination  // processor.connect(destination)
    | FirstVolumeCheck    // the first checkVolume(): emits a volume event and schedules the next frame

  const AcquisitionOrder: seq<Step> := [
    RequestMicrophone, CreateContext, ResumeContext, CreateSource, CreateAnalyser,
    ConnectAnalyser, CreateProcessor, ConnectProcessor, ConnectDestination, FirstVolumeCheck]

  function StepIndex(s: Step): (i: nat)
    ensures i < |AcquisitionOrder| && AcquisitionOrder[i] == s
  {
    match s
    case RequestMicrophone => 0
    case CreateContext => 1
    case ResumeContext => 2
    case CreateSource => 3
    case CreateAnalyser => 4
    case ConnectAnalyser => 5
    case CreateProcessor => 6
    case ConnectProcessor => 7
    case ConnectDestination => 8
    case FirstVolumeCheck => 9
  }

  /** The step whose success stores the handle of the given kind. */
  function AcquiredBy(k: Kind): Step {
    match k
    case Stream => RequestMicrophone
    case Context => CreateContext
    case Source => CreateSource
    case Analyser => CreateAnalyser
    case Processor => CreateProcessor
    case Frame => FirstVolumeCheck
  }

  /** What the platform does during one start attempt. */
  datatype Platform = Platform(
    mediaDevices: bool,      // navigator.mediaDevices.getUserMedia exists
    failAt: Option<Step>,    // the first call that throws, if any
    error: Error,            // what it throws
    stream: nat, context: nat, source: nat, analyser: nat, processor: nat,
    frame: FrameId)

  /** The handle the platform hands out for the given kind. */
  function Issued(p: Platform, k: Kind): nat {
    match k
    case Frame => p.frame as nat
    case Processor => p.processor
    case Analyser => p.analyser
    case Source => p.source
    case Stream => p.stream
    case Context => p.context
  }

  /** How a call to `start` settles. */
  datatype StartOutcome =
    | Started           // this call acquired the microphone and began recording
    | AlreadyRecording  // no-op: the recorder was already recording
    | JoinedInFlight    // awaited the attempt already in flight and shares its outcome
    | Threw(error: Error)

  datatype StartResult = StartResult(
    recorder: Recorder,
    attempted: seq<Step>,     // the platform calls made, in order
    released: seq<Release>,   // the releases of the cleanup after a failure
    outcome: StartOutcome)

  /** The recorder after the first `done` steps of an attempt succeeded:
      each successful step stores its handle, and `recording` is set just
      before the first metering tick. */
  function Acquired(r: Recorder, p: Platform, done: nat): Recorder {
    r.(stream := if done > StepIndex(RequestMicrophone) then Some(p.stream) else r.stream,
       context := if done > StepIndex(CreateContext) then Some(p.context) else r.context,
       source := if done > StepIndex(CreateSource) then Some(p.source) else r.source,
       analyser := if done > StepIndex(CreateAnalyser) then Some(p.analyser) else r.analyser,
       processor := if done > StepIndex(CreateProcessor) then Some(p.processor) else r.processor,
       recording := if done > StepIndex(ConnectDestination) then true else r.recording,
       volumeCheckId := if done > StepIndex(FirstVolumeCheck) then Some(p.frame) else r.volumeCheckId)
  }

  /** `start()`: the three entry guards, then the acquisition sequence. A
      failure at any step runs `cleanup` and rethrows; the in-flight guard is
      cleared on both paths. */
  function Start(r: Recorder, p: Platform): (res: StartResult)
    ensures res.recorder.sampleRate == r.sampleRate
    // the platform is asked for the microphone exactly when no guard applies
    ensures RequestMicrophone in res.attempted <==> p.mediaDevices && !r.starting && !r.recording
    ensures res.attempted <= AcquisitionOrder
    // the guards change nothing
    ensures !p.mediaDevices ==> res.outcome == Threw(NoMediaDevices) && res.recorder == r
    ensures p.mediaDevices && r.starting ==> res.outcome == JoinedInFlight && res.recorder == r
    ensures p.mediaDevices && !r.starting && r.recording ==> res.outcome == AlreadyRecording && res.recorder == r
    ensures res.attempted == [] ==> res.recorder == r && res.released == []
    ensures forall i, j :: 0 <= i < j < |res.released| ==> Rank(res.released[i].kind) < Rank(res.released[j].kind)
    // an attempt leaves the guard cleared and either records with every
    // handle present or is back to idle with the platform's error
    ensures res.attempted != [] ==> !res.recorder.starting
    ensures res.outcome == Started <==> res.attempted != [] && p.failAt.None?
    ensures res.outcome == Started ==> res.recorder.recording && HoldsAll(res.recorder)
    ensures res.attempted != [] && p.failAt.Some? ==>
      && res.outcome == Threw(p.error)
      && !res.recorder.recording && Idle(res.recorder)
      && res.attempted[|res.attempted| - 1] == p.failAt.value
  {
    if !p.mediaDevices then StartResult(r, [], [], Threw(NoMediaDevices))
    else if r.starting then StartResult(r, [], [], JoinedInFlight)
    else if r.recording then StartResult(r, [], [], AlreadyRecording)
    else
      var pending := r.(starting := true);
      match p.failAt
      case None =>
        StartResult(Acquired(pending, p, |AcquisitionOrder|).(starting := false), AcquisitionOrder, [], Started)
      case Some(step) =>
        var k := StepIndex(step);
        var t := Cleanup(Acquired(pending, p, k));
        StartResult(t.recorder.(starting := false), AcquisitionOrder[..k + 1], t.released, Threw(p.error))
  }

  /** A successful start from an idle recorder records with exactly the
      handles the platform issued. */
  lemma StartSuccessHoldsIssued(r: Recorder, p: Platform)
    requires Quiescent(r) && !r.recording
    requires p.mediaDevices && p.failAt.None?
    ensures var res := Start(r, p);
      && res.outcome == Started
      && res.recorder.recording && !res.recorder.starting
      && res.attempted == AcquisitionOrder
      && forall k: Kind :: Held(res.recorder, k) == Some(Issued(p, k))
  {
  }

  /** No leak after a failed start from an idle recorder: a handle is
      released exactly when it is the one issued by a step that came before
      the failing one. */
  lemma StartFailureReleasesAcquired(r: Recorder, p: Platform, k: Kind, id: nat)
    requires Quiescent(r) && !r.recording
    requires p.mediaDevices && p.failAt.Some?
    ensures Release(k, id) in Start(r, p).released
      <==> id == Issued(p, k) && StepIndex(AcquiredBy(k)) < StepIndex(p.failAt.value)
  {
  }

  /** From an idle recorder, the first `done` steps store exactly the
      handles of the steps among them. */
  lemma AcquiredHolds(r: Recorder, p: Platform, done: nat, k: Kind)
    requires Idle(r)
    ensures Held(Acquired(r, p, done), k) == (if StepIndex(AcquiredBy(k)) < done then Some(Issued(p, k)) else None)
  {
  }

  /** Start keeps the recorder in a state reachable between operations. */
  lemma StartPreservesQuiescent(r: Recorder, p: Platform)
    requires Quiescent(r)
    ensures Quiescent(Start(r, p).recorder)
  {
  }

  lemma StopPreservesQuiescent(r: Recorder)
    requires Quiescent(r)
    ensures Quiescent(Stop(r).recorder)
  {
  }

  // ---------------------------------------------------------------------
  // event handlers installed by start
  // ---------------------------------------------------------------------

  /** `onaudioprocess`: while recording, each block is converted and packed
      (the base64 step that follows is not modelled); otherwise the block is
      dropped. */
  function OnAudioProcess(r: Recorder, block: seq<real>): (data: Option<seq<AudioEncoding.Byte>>)
    ensures data.Some? <==> r.recording
    ensures data.Some? ==> |data.value| == 2 * |block| && AudioEncoding.Unpack(data.value) == AudioEncoding.Samples(block)
  {
    if !r.recording then None else Some(AudioEncoding.EncodeBlock(block))
  }

  datatype Tick = Tick(recorder: Recorder, volume: Option<real>)

  /** `checkVolume`: while recording with an analyser, emit the volume of
      the current bins and schedule the next frame; otherwise do nothing,
      which ends the metering loop. */
  function OnVolumeCheck(r: Recorder, bins: seq<AudioEncoding.Byte>, next: FrameId): (t: Tick)
    requires |bins| == VolumeMeter.BinCount
    ensures t.volume.Some? <==> r.recording && r.analyser.Some?
    ensures t.volume.Some? ==> 0.0 <= t.volume.value <= VolumeMeter.MaxVolume
    // the figure is the mean of exactly these bins over 128
    ensures t.volume.Some? ==> t.volume.value == VolumeMeter.Volume(bins)
    ensures t.volume.Some? ==>
      t.volume.value * VolumeMeter.Reference * (VolumeMeter.BinCount as real) == VolumeMeter.Sum(bins) as real
    // only the scheduled frame id changes
    ensures t.volume.Some? ==> t.recorder == r.(volumeCheckId := Some(next))
    ensures t.volume.None? ==> t.recorder == r
    ensures t.recorder.recording == r.recording
  {
    if r.recording && r.analyser.Some? then
      Tick(r.(volumeCheckId := Some(next)), Some(VolumeMeter.Volume(bins)))
    else Tick(r, None)
  }

  /** After `stop` no further audio block or volume figure is emitted and
      no frame is scheduled. */
  lemma NothingEmittedAfterStop(r: Recorder, block: seq<real>, bins: seq<AudioEncoding.Byte>, next: FrameId)
    requires |bins| == VolumeMeter.BinCount
    ensures var s := Stop(r).recorder;
      && OnAudioProcess(s, block).None?
      && OnVolumeCheck(s, bins, next) == Tick(s, None)
  {
  }
}
