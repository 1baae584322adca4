# Capture lifecycle model

A Dafny model of the two capture managers of a browser media-capture
front end:

- **AudioRecorder** (`src/lib/audio-recorder.ts`). It owns the microphone
  stream and a processing graph (source → analyser for metering, source →
  script processor → destination for sampling). It converts every 4096-frame
  block of Float32 samples to little-endian Int16 bytes and emits a volume
  figure on every animation frame. `start` is guarded against a missing
  media-devices API, an attempt already in flight, and a recorder already
  recording. `cleanup`/`stop` releases the handles in a fixed order.
- **useWebcam** (`src/hooks/use-webcam.ts`). It owns the camera stream,
  the facing mode ("user" or "environment") and a cached flag saying whether
  more than one camera exists. It also offers `switchCamera`, with a
  fallback to the previous camera when the new one cannot be opened.

Files:

- `common.dfy`: `Option`, `Error`, `Result`.
- `audio_encoding.dfy` (module `AudioEncoding`): the per-sample conversion
  (clamp, scale, ECMA-262 ToInt16), the conversion loop, and little-endian
  packing and unpacking.
- `volume_meter.dfy` (module `VolumeMeter`): the volume figure and the
  summing loop.
- `audio_recorder.dfy` (module `AudioRecorder`): the recorder state record,
  `cleanup`/`stop`, `start`, and the two event handlers `start` installs.
- `webcam.dfy` (module `Webcam`): the hook state, the camera-inventory
  probe, the facing-mode toggle, `start`, `stop`, `switchCamera` and the
  track listeners.

Platform calls are parameters, not behaviour:

- A `Platform` record says which step of an audio start attempt throws
  first, what it throws, and which handles the successful steps return.
- A `Result<nat>` value gives the outcome of each camera request, and a
  `Result<seq<DeviceInfo>>` value gives the outcome of device enumeration.

The operations that call the platform return the new state together with
the platform calls they made: `attempted` and `released` for the recorder's
`Start` and `Cleanup`, and `calls` for the webcam's `Start`, `Stop` and
`SwitchCamera`. This lets the contracts talk about order and about leaks.
`CheckDevices` and `OnTrackEvent` return only the new state.
`OnAudioProcess` and `OnVolumeCheck` return what they emit, and
`OnVolumeCheck` also returns the new state.

Samples are modelled as `real`. Scaling a Float32 value by 0x8000 or 0x7FFF
is exact in double precision. So truncating the real product toward zero
gives the same value as the TypeScript code on every finite input.

Three behaviours of the code are easy to misread; the model follows the
code:

- **Fallback in `switchCamera`.** When the fallback request succeeds, the
  call resolves with the fallback stream. It does not report an error, and
  the stored facing mode stays at the toggled value rather than being
  reverted.
- **Volume range.** The volume figure ranges over [0, 255/128], not the
  [0, 1] a comment next to it suggests.
- **Stop during start.** A `stop` issued while `start` is still awaiting the
  platform can see handles that `start` stores afterwards. The code does
  not guard against this, and the model does not interleave the two.

## Model

| member | source | states |
|---|---|---|
| AudioEncoding.Truncate | src/lib/audio-recorder.ts:104 | the integer part toward zero: between 0 and x and less than 1 away from x |
| AudioEncoding.ToInt16 | src/lib/audio-recorder.ts:104 | storing into an Int16Array yields a 16-bit value congruent to the truncation modulo 2^16 |
| AudioEncoding.ToInt16InRange | src/lib/audio-recorder.ts:104 | ToInt16 is the truncation itself whenever that fits in 16 bits (no wrap-around) |
| AudioEncoding.Clamp | src/lib/audio-recorder.ts:103 | the clamped sample lies in [-1, 1], equals the input inside that range and the nearer bound outside it |
| AudioEncoding.ConvertSample | src/lib/audio-recorder.ts:103-104 | every converted sample is in [-32768, 32767]; inputs >= 1 give 32767, inputs <= -1 give -32768, 0 gives 0; the result is the scaled amplitude rounded toward zero; a positive (negative) result comes only from a positive (negative) input |
| AudioEncoding.ConvertSampleMonotone | src/lib/audio-recorder.ts:103-104 | the conversion is monotone non-decreasing |
| AudioEncoding.ConvertBlock | src/lib/audio-recorder.ts:98-105 | the zero-filled block written by the loop has the input's length and holds the conversion of each input sample at its index |
| AudioEncoding.Pack | src/lib/audio-recorder.ts:108-109 | the byte view of n samples has exactly 2n bytes |
| AudioEncoding.PackAt | src/lib/audio-recorder.ts:108-109 | sample i occupies bytes 2i (low) and 2i+1 (high): little-endian order |
| AudioEncoding.Unpack | src/lib/audio-recorder.ts:108-109 | reading an even-length buffer as little-endian Int16 gives half as many 16-bit values |
| AudioEncoding.UnpackPack | src/lib/audio-recorder.ts:99-109 | decoding the packed buffer gives back the converted samples (round trip) |
| AudioEncoding.PackUnpack | src/lib/audio-recorder.ts:108-109 | packing the decoded samples gives back the buffer (the other round trip) |
| AudioEncoding.EncodeBlock | src/lib/audio-recorder.ts:98-109 | the payload of a data event has 2n bytes and decodes to the converted block |
| VolumeMeter.Sum | src/lib/audio-recorder.ts:79-82 | the sum of n byte bins is at most 255n |
| VolumeMeter.SumZero | src/lib/audio-recorder.ts:79-82 | the sum is zero exactly when every bin is zero |
| VolumeMeter.SumFull | src/lib/audio-recorder.ts:79-82 | the sum reaches 255n exactly when every bin is 255 |
| VolumeMeter.Volume | src/lib/audio-recorder.ts:79-84 | the volume lies in [0, 255/128]; it is 0 exactly for an all-zero bin array and 255/128 exactly when every bin is 255; volume times 128 times the bin count is the sum |
| VolumeMeter.VolumeMonotone | src/lib/audio-recorder.ts:79-84 | louder bins, bin by bin, never give a lower volume |
| VolumeMeter.MeasureVolume | src/lib/audio-recorder.ts:75-84 | the summing loop computes the volume figure, in [0, 255/128], zero exactly for silence |
| AudioRecorder.Create | src/lib/audio-recorder.ts:20-31 | a new recorder holds nothing, is not recording, has no attempt in flight, and keeps its sample rate |
| AudioRecorder.CreateDefault | src/lib/audio-recorder.ts:29-31 | a recorder built with the default argument has sample rate 16000, holds nothing, is not recording and has no attempt in flight |
| AudioRecorder.ReleaseFrom | src/lib/audio-recorder.ts:138-173 | each guarded release step releases a handle only if it is present, carries that handle's id, keeps the fixed order, and misses no present handle |
| AudioRecorder.Cleanup | src/lib/audio-recorder.ts:135-174 | afterwards recording is false and all six handles are absent; it releases exactly the present handles, each once, in the order frame, processor, analyser, source, stream tracks, context; the in-flight guard and sample rate are untouched; on an idle recorder it releases nothing |
| AudioRecorder.Stop | src/lib/audio-recorder.ts:176-178 | after stop, recording is false, all handles are absent, and every held handle was released |
| AudioRecorder.StopIdempotent | src/lib/audio-recorder.ts:135-178 | a second stop releases nothing and leaves the state unchanged |
| AudioRecorder.Start | src/lib/audio-recorder.ts:33-133 | without a media-devices API it throws and changes nothing; with an attempt in flight it joins it and issues no request; when recording it is a no-op; the microphone is requested exactly when no guard applies, and calls follow the acquisition order; success leaves every handle present, recording true and the guard cleared; a failure at any step ends idle, not recording, guard cleared, with the platform's error rethrown after the failing call, its releases in teardown order |
| AudioRecorder.StartSuccessHoldsIssued | src/lib/audio-recorder.ts:47-122 | a successful start from idle makes every call in order and holds exactly the handles the platform issued |
| AudioRecorder.AcquiredHolds | src/lib/audio-recorder.ts:50-92 | after the first k steps succeed from idle, a handle is held exactly when the step storing it is among them |
| AudioRecorder.StartFailureReleasesAcquired | src/lib/audio-recorder.ts:123-129 | after a failed start from idle, a handle is released exactly when it is the one the platform issued to a step before the failing one: every acquired resource is released and nothing else is (no leak) |
| AudioRecorder.StartPreservesQuiescent | src/lib/audio-recorder.ts:33-133 | start keeps the between-operations invariant: no attempt in flight, and handles present exactly while recording |
| AudioRecorder.StopPreservesQuiescent | src/lib/audio-recorder.ts:135-178 | stop keeps the same invariant |
| AudioRecorder.OnAudioProcess | src/lib/audio-recorder.ts:94-115 | a block is emitted exactly while recording, as 2n bytes that decode to the converted block |
| AudioRecorder.OnVolumeCheck | src/lib/audio-recorder.ts:76-88 | a figure is emitted and the next frame scheduled exactly while recording with an analyser; the figure is the mean of exactly these bins divided by 128 (times 128 times 512 it is their sum), in [0, 255/128]; only the frame id changes; otherwise nothing changes and metering ends |
| AudioRecorder.NothingEmittedAfterStop | src/lib/audio-recorder.ts:76-95 | after stop, neither handler emits anything or schedules a frame |
| Webcam.Mount | src/hooks/use-webcam.ts:21-24 | a mounted hook has no stream, is not streaming, faces "user" and assumes a single camera |
| Webcam.VideoInputs | src/hooks/use-webcam.ts:31 | the filter keeps every video input of the list and only entries of the list that are video inputs, and is no longer than the list |
| Webcam.SomeVideoInput | src/hooks/use-webcam.ts:31 | the filter keeps at least one entry exactly when some device is a video input |
| Webcam.MultipleVideoInputs | src/hooks/use-webcam.ts:31-32 | the filter keeps more than one entry exactly when two distinct devices are video inputs |
| Webcam.HasMultipleCameras | src/hooks/use-webcam.ts:28-37 | true exactly when enumeration succeeds and two distinct devices have kind videoinput; false when enumeration fails |
| Webcam.CheckDevices | src/hooks/use-webcam.ts:27-39 | the probe caches that flag and changes nothing else |
| Webcam.Toggle | src/hooks/use-webcam.ts:102 | the result is "user" or "environment", and it is "user" exactly when the input is not "user" |
| Webcam.ToggleInvolution | src/hooks/use-webcam.ts:102 | on "user" and "environment", toggling twice is the identity and toggling once changes the mode |
| Webcam.Start | src/hooks/use-webcam.ts:66-85 | one request for the current facing mode with 1280x720 hints; on success the stream is set and streaming is true; on failure there is no stream, streaming is false and the error is rethrown |
| Webcam.Stop | src/hooks/use-webcam.ts:87-95 | with a stream, its tracks are stopped and the stream and streaming flag are cleared; without one nothing happens |
| Webcam.StopIdempotent | src/hooks/use-webcam.ts:87-95 | a second stop stops nothing and changes nothing |
| Webcam.OnTrackEvent | src/hooks/use-webcam.ts:41-64 | an ended or error event on the current stream's tracks clears the stream and streaming flag and nothing else |
| Webcam.SwitchCamera | src/hooks/use-webcam.ts:97-132 | switchCamera is defined exactly when more than one camera was found |
| Webcam.SwitchSuccess | src/hooks/use-webcam.ts:98-114 | a successful switch stops the old stream before its one request for the toggled mode with hints, stores the toggled mode and streams the new stream |
| Webcam.SwitchFallbackSuccess | src/hooks/use-webcam.ts:115-124 | after a failed primary request, the fallback asks for the pre-call facing mode without hints; on success the call resolves with the fallback stream, streaming is true and the stored mode stays toggled |
| Webcam.SwitchFallbackFailure | src/hooks/use-webcam.ts:125-130 | when both requests fail there is no stream, streaming is false and the fallback's error is thrown |
| Webcam.OperationsPreserveConsistent | src/hooks/use-webcam.ts:21-132 | every operation keeps streaming true exactly while a stream is held and the facing mode in {"user", "environment"} |
| Webcam.FallbackMislabelsCamera | src/hooks/use-webcam.ts:117-124 | as written, a switch rescued by the fallback streams the pre-call camera but stores the toggled facing mode |
| Webcam.SwitchCameraRestoring | src/hooks/use-webcam.ts:117-124 | with the facing mode restored on fallback success, the stored mode is always the one the live stream was requested with |
| Webcam.StartMatchesStream | src/hooks/use-webcam.ts:66-78 | start keeps the stored facing mode equal to the mode of the stream it opened |

## Left out

- Base64 encoding (`btoa`, section 4 of RFC 4648). The data payload is modelled up to the packed byte buffer.
- EventEmitter delivery and console logging. Emissions are results of the handlers.
- The per-block `try`/`catch` in `onaudioprocess`. Conversion of finite samples cannot throw in the model.
- NaN and infinite samples. The conversion domain is the finite reals. In the code the clamp comes first, so +Infinity becomes 1 and then 32767, and -Infinity becomes -1 and then -32768, like the `x >= 1` and `x <= -1` cases of `ConvertSample`. Only NaN passes the clamp unchanged, and ToInt16 maps it to 0.
- The byte order of the host. Packing assumes a little-endian platform, as every mainstream one is.
- Asynchronous interleavings. One example is a `stop` during a pending `start`, which can see handles that are assigned after an `await`. A concurrent `start` is modelled only as a call that finds `starting` set.
- Start: does not report the volume value emitted by the first metering tick. Failure of that tick (a throwing volume listener) is the `FirstVolumeCheck` step.
- Start: the microphone constraints, the context's sample rate and latency hint, the FFT size and the processor's buffer size are named in comments and constants only. They do not appear in the recorded calls.
- Cleanup: takes no outcome for `AudioContext.close()`. A rejection there is caught and logged, and the context is dropped either way.
- Volume: requires a non-empty bin array. The analyser's FFT size of 1024 fixes the array at 512 bins, so the NaN an empty array would produce cannot arise.
- OnVolumeCheck: requires exactly 512 bins, the length of the array allocated from `frequencyBinCount`.
- Webcam listener bookkeeping (adding and removing the track listeners when the stream changes) is reduced to "listeners exist while a stream is set".
- React rendering and state batching beyond the captured facing mode are not modelled.
- Webcam.Start: the model does not stop an existing stream; as in the code, the old stream is simply replaced.
- The camera-switch button in `src/components/control-tray/CameraControls.tsx` is presentation only. Its one decision, rendering nothing when `switchCamera` is undefined, rests on `Webcam.SwitchCamera` being `None`.

## Findings

| source | as written | input that shows it | evidently intended | confidence | as-written member | corrected member |
|---|---|---|---|---|---|---|
| src/hooks/use-webcam.ts:117-124 | when the fallback request succeeds, the stream comes from the pre-call facing mode, but the stored facing mode stays at the toggled value | facing mode "user", two cameras, the "environment" request fails and the "user" fallback succeeds: the stored mode is "environment" while the "user" camera streams, so the switch button offers the wrong camera and the next switch requests "user" again | restore the stored facing mode to its pre-call value when the fallback succeeds, so that it names the camera in use | medium, not executed | Webcam.FallbackMislabelsCamera | Webcam.SwitchCameraRestoring |
