# Home page conversation controller: a Dafny model

The home page of `conversation-animation` (`src/app/page.tsx`) is a React component. It starts a voice conversation with an ElevenLabs agent when the user picks one of two personas, Maya or Miles. While the conversation runs, it watches the microphone and scales a sphere by the user's loudness. It also shows an `MM:SS` timer. This project models the logic inside that component:

- `TimeFormat` is `formatTime`, which turns elapsed seconds into the `MM:SS` display. JavaScript semantics are written out: `Math.floor`, the truncating `%`, `toString()` and `padStart(2, '0')`.
- `AudioLevel` is the arithmetic of `updateLevel`. The byte spectrum is summed in a loop, averaged over its bins, divided by 128 and clamped to 1 with `Math.min`. An empty buffer yields NaN.
- `HomePage` is the component's state as a class `Home`. It holds the seven `useState` values and the four `useRef` slots, plus what the browser and the SDK hold for the component: scheduled frame callbacks, live microphone streams, open audio contexts, suspended `await`s and armed timers. Every handler is a method whose contract gives the whole new state. The stop, acquire and sample steps are also specified by pure functions on a `Monitor` value (`Released`, `Acquired`, `Sampled`), and the lemmas are stated about those functions.
- `Scenarios` drives the component through whole interactions. Its methods state what the page shows afterwards.

Each `await` splits a handler in two. The method named after the handler runs the code up to the `await`. An outcome method (`PermissionGranted`/`PermissionDenied`, `SessionStartResolved`/`SessionStartRejected`, `MicrophoneGranted`/`MicrophoneDenied`) runs the continuation. The event loop may resume these in any order, as long as one of that kind is suspended. The SDK's `onConnect`, `onDisconnect` and `onError` callbacks, the 600 ms reveal timer and the frame callbacks are methods that can be called at any time their guard allows.

## Behaviour of page.tsx worth knowing

- A click while a conversation is running clears the persona and calls `endSession`.
- `onError` only clears `isLoading`. It does not end the session or stop capture.
- A microphone failure in `startUserMicrophoneMonitoring` is only logged.
- `stopUserMicrophoneMonitoring` does not clear `analyserRef`. Later frames therefore still pass the analyser check.
- Capture can remain open after a session ends, in three ways:
  - The stream granted to the permission check in `handleHalfClick` is never stored or stopped (`RejectedStart`).
  - A microphone grant that arrives after a disconnect is stored and sampled (`MicrophoneAfterDisconnect`).
  - Two grants in a row overwrite the refs of the first without closing anything. The first stream and the first audio context are then out of every stop's reach (`OrphanedLoop`). The first grant's sampling loop also survives the next disconnect. The analyser ref stays set, so that loop keeps publishing a level while the page is not started. It lasts until a later stop finds its newest frame id in the ref and cancels it (`OrphanedLoopRecaptured`).
- A failure reported before the 600 ms timer fires clears the persona, and the timer then shows it anyway (`FailureBeforeReveal`).

## Model

| member | source | states |
|---|---|---|
| TimeFormat.NatToString | src/app/page.tsx:64 | `toString()` of a non-negative integer is a non-empty string of decimal digits |
| TimeFormat.NatToStringValue | src/app/page.tsx:64 | that string reads back as the number and has no leading zero |
| TimeFormat.NatToStringAtMostTwo | src/app/page.tsx:64 | the numeral has at most two digits exactly when the number is below 100 |
| TimeFormat.IntToString | src/app/page.tsx:64 | `toString()` is the canonical numeral: for i >= 0 a non-empty digit string worth i, and for i < 0 '-' followed by digits worth -i; in both cases without a leading zero |
| TimeFormat.Zeros | src/app/page.tsx:64 | the `padStart` fill: k decimal digits (`ZerosValue` gives them the value 0) |
| TimeFormat.PadStart | src/app/page.tsx:64 | `padStart` yields a string of length max(|s|, width) |
| TimeFormat.PadStartValue | src/app/page.tsx:64 | padding with '0' keeps a digit string's value |
| TimeFormat.TruncRem | src/app/page.tsx:63 | `%` takes the sign of the dividend, and its magnitude is below the divisor |
| TimeFormat.TruncRemCongruent | src/app/page.tsx:63 | `a % 60` differs from `a` by a multiple of 60, which together with the sign and bound fixes the remainder |
| TimeFormat.Field | src/app/page.tsx:64 | a padded field has at least two characters |
| TimeFormat.FieldBelow100 | src/app/page.tsx:64 | below 100 a field is exactly the tens digit followed by the units digit |
| TimeFormat.FormatTime | src/app/page.tsx:61-65 | the display has at least five characters, for every integer input |
| TimeFormat.FieldOfNat | src/app/page.tsx:64 | a padded field of n >= 0 reads back as n and is two characters long exactly when n < 100 |
| TimeFormat.FormatTimeFields | src/app/page.tsx:61-65 | for s >= 0 the display is the field of s / 60, ':', and the field of s % 60 |
| TimeFormat.FormatTimeExamples | src/app/page.tsx:61-65 | formatTime(125) = "02:05", formatTime(59) = "00:59", formatTime(0) = "00:00", formatTime(3) = "00:03" |
| TimeFormat.FormatTimeShape | src/app/page.tsx:61-65 | for 0 <= s < 6000 the result has five characters, digits around a ':' at index 2 |
| TimeFormat.FormatTimeLength | src/app/page.tsx:62-64 | for s >= 0 the result has length 5 if and only if s < 6000, and is longer from 6000 on |
| TimeFormat.FormatTimeRoundTrip | src/app/page.tsx:61-65 | for s >= 0, reading MM and SS back gives MM * 60 + SS = s with SS < 60 |
| TimeFormat.FormatTimeInjective | src/app/page.tsx:61-65 | distinct non-negative durations are displayed differently |
| TimeFormat.FormatTimeNegative | src/app/page.tsx:62-64 | a negative duration is displayed with a leading '-' |
| AudioLevel.MeasureLevel | src/app/page.tsx:185-192 | the loop sums exactly the buffer's bins, the sum lies in [0, 255 * length], and the level is the normalised average |
| AudioLevel.Sum | src/app/page.tsx:185-188 | the sum of the bins is non-negative |
| AudioLevel.Average | src/app/page.tsx:189 | `sum / bufferLength` is a finite number exactly when the buffer is non-empty |
| AudioLevel.MinOne | src/app/page.tsx:192 | `Math.min(x, 1)`: NaN exactly for NaN; otherwise at most 1 and at most x, and equal to one of them |
| AudioLevel.Normalized | src/app/page.tsx:192 | the normalised level is finite exactly when the buffer is non-empty, and is then at most 1 |
| AudioLevel.SumBounds | src/app/page.tsx:185-188 | the sum of n bytes lies in [0, 255 * n] |
| AudioLevel.SumZeroIff | src/app/page.tsx:185-188 | the sum is 0 if and only if every bin is 0 |
| AudioLevel.AverageBounds | src/app/page.tsx:189 | the average is finite exactly for a non-empty buffer, and then lies in [0, 255] |
| AudioLevel.NormalizedInUnit | src/app/page.tsx:192 | `min(average / 128, 1)` is finite exactly for a non-empty buffer, and then lies in [0, 1] |
| AudioLevel.NormalizedZeroIff | src/app/page.tsx:192 | the level is 0 if and only if the buffer is silent |
| AudioLevel.NormalizedFullIff | src/app/page.tsx:192 | the level is 1 if and only if the average is at least 128 |
| HomePage.ElapsedSeconds | src/app/page.tsx:249 | the elapsed time is the floor of the millisecond difference over 1000 |
| HomePage.ElapsedNonNegative | src/app/page.tsx:249 | it is >= 0 when now >= start |
| HomePage.ElapsedMonotone | src/app/page.tsx:249 | it never decreases as now grows |
| HomePage.ElapsedWholeSeconds | src/app/page.tsx:249 | k whole seconds (plus under one more) after the start it reads k |
| HomePage.Released | src/app/page.tsx:215-235 | stopping keeps the monitor invariant |
| HomePage.Acquired | src/app/page.tsx:136-152 | storing a granted stream, context and analyser keeps the monitor invariant |
| HomePage.Sampled | src/app/page.tsx:176-205 | a frame's sample keeps the monitor invariant |
| HomePage.ReleasedClearsSlots | src/app/page.tsx:218-233 | after stopping, the frame, stream and audio-context slots are empty, the level is 0, the analyser slot is unchanged, and one live stream (one open audio context) fewer remains exactly when the stream (context) ref was held |
| HomePage.ReleasedIdempotent | src/app/page.tsx:215-235 | stopping twice gives the same state as stopping once |
| HomePage.ReleasedWhenIdle | src/app/page.tsx:215-235 | stopping with no frame, stream or context held only resets the level |
| HomePage.ReleasedCancelsLoop | src/app/page.tsx:218-221 | only the frames in `RefFrames` (the id held in the ref, if any) are cancelled; with a single loop no frame callback is left |
| HomePage.SampledFreshFrame | src/app/page.tsx:204 | `requestAnimationFrame` hands out an id no scheduled callback holds, so a sample adds exactly one scheduled callback |
| HomePage.SampledLevel | src/app/page.tsx:189-201 | with a curve mapping [0, 1] into itself, the level stays in [0, 1]; a silent spectrum gives the curve's value at 0 |
| HomePage.Home.constructor | src/app/page.tsx:11-22 | the initial state: every value at its default and every ref null |
| HomePage.Home.OnConnect | src/app/page.tsx:29-36 | started, start time = now, elapsed = 0, loading cleared, one microphone request issued, nothing else changed; connecting at a non-zero time arms the interval (`TimerArmed`) |
| HomePage.Home.OnDisconnect | src/app/page.tsx:37-43 | not started, start time unset, elapsed = 0, monitoring released, the interval no longer armed (`TimerArmed` is false) |
| HomePage.Home.OnError | src/app/page.tsx:44-47 | only `isLoading` changes, to false |
| HomePage.Home.HandleHalfClick | src/app/page.tsx:71-87 | while started: persona cleared, endSession requested, loading unchanged, nothing started; otherwise transition and loading raised, the reveal timer armed and permission requested before any await |
| HomePage.Home.RevealTimerFires | src/app/page.tsx:83-86 | the oldest armed timer shows its persona and ends the transition |
| HomePage.Home.PermissionGranted | src/app/page.tsx:107-119 | the click proceeds to startSession; one more stream is live while every ref is unchanged |
| HomePage.Home.PermissionDenied | src/app/page.tsx:107-126 | a failed permission check clears loading and the persona |
| HomePage.Home.SessionStartResolved | src/app/page.tsx:116-121 | a resolved start changes no component state |
| HomePage.Home.SessionStartRejected | src/app/page.tsx:116-126 | a rejected start clears loading and the persona |
| HomePage.Home.StartUserMicrophoneMonitoring | src/app/page.tsx:134-142 | one microphone request is issued and nothing else changes |
| HomePage.Home.MicrophoneGranted | src/app/page.tsx:136-159 | the new monitor is `Sampled(Acquired(old))`: the refs are filled, one more stream and one more audio context are live, and the first sample is taken |
| HomePage.Home.AttachMicrophone | src/app/page.tsx:144-156 | the monitor becomes `Acquired` of the old one, and nothing else changes |
| HomePage.Home.StoreStream | src/app/page.tsx:144 | the stream ref is set, one more stream is live, and the pending request is consumed |
| HomePage.Home.CreateAnalyser | src/app/page.tsx:147-156 | the context and analyser refs are set and one more audio context is open, without closing the one the ref held before |
| HomePage.Home.MicrophoneDenied | src/app/page.tsx:161-163 | a microphone failure changes nothing but the pending request |
| HomePage.Home.UpdateLevel | src/app/page.tsx:176-205 | without an analyser nothing changes; otherwise the level is the curve of the normalised level and a new frame is scheduled into the ref |
| HomePage.Home.ContinueMonitoring | src/app/page.tsx:201-204 | the level is stored, a fresh frame id is requested, scheduled and kept in the ref, and nothing else changes |
| HomePage.Home.RunAnimationFrame | src/app/page.tsx:204 | a scheduled frame callback is consumed and runs updateLevel |
| HomePage.Home.CancelAnimationFrame | src/app/page.tsx:218-221 | the frame in the ref (`RefFrames`) is removed from the scheduled frames and the ref cleared; nothing else changes |
| HomePage.Home.StopStreamTracks | src/app/page.tsx:223-226 | a held stream stops being live and the ref is cleared; nothing else changes |
| HomePage.Home.CloseAudioContext | src/app/page.tsx:228-231 | a held audio context is closed and the ref cleared; nothing else changes |
| HomePage.Home.StopUserMicrophoneMonitoring | src/app/page.tsx:215-235 | the monitor state becomes `Released` of the old one (whose properties the Released lemmas state), and the lifecycle state is unchanged |
| HomePage.Home.TimerTick | src/app/page.tsx:246-251 | a tick, possible only while the interval exists (`TimerArmed`: started with a start time other than 0), sets elapsed to the floor of (now - start) / 1000 |
| HomePage.Home.UnmountCleanup | src/app/page.tsx:263-267 | monitoring is released, and endSession is requested exactly when a conversation is running |
| Scenarios.ConnectedSession | src/app/page.tsx:29-36 | after a successful start the page is started, and three one-second ticks show "00:03", with the monitor running and loading cleared |
| Scenarios.RejectedStart | src/app/page.tsx:83-126 | a start rejected after the reveal timer leaves the page not started, not loading, not transitioning, with no persona, no armed timer and no capture refs, but with the probe stream live |
| Scenarios.RemoteDisconnect | src/app/page.tsx:37-43 | a remote disconnect stops the timer and the sampling loop and zeroes the level in the same step |
| Scenarios.MicrophoneAfterDisconnect | src/app/page.tsx:143-159 | a microphone grant that arrives after the disconnect holds a stream and a frame while not started |
| Scenarios.FailureBeforeReveal | src/app/page.tsx:83-86 | a permission failure before the reveal timer fires still ends with the persona shown |
| Scenarios.OrphanedLoop | src/app/page.tsx:144-159 | two grants leave one frame callback, one stream and one audio context running right after the final disconnect |
| Scenarios.OrphanedLoopRecaptured | src/app/page.tsx:176-233 | the surviving callback publishes a level while not started and puts its next id into the ref; the next stop cancels it, while one stream and one audio context stay open |

## Left out

- The ElevenLabs SDK (`useConversation`) is left out: its transport, the hard-coded signed URL, `onMessage` and `isSpeaking`. Its three callbacks are methods. `startSession` and `endSession` are recorded only as a pending start or a request count. The persona is not passed to `startSession` in page.tsx, and the model does not model the call's arguments.
- The `isSpeaking` logging effect, `console` output and the `frameCount % 60` throttle are logging only.
- `getUserMedia` constraints, `AudioContext`, `AnalyserNode` (its smoothing constant) and `getByteFrequencyData` are browser APIs. Only their success or failure is modelled; the byte spectrum is a parameter. `fftSize = 256` fixes the spectrum's length at `FrequencyBinCount`, 128.
- A failure inside the `try` of `startUserMicrophoneMonitoring` after the stream is granted (an `AudioContext` that cannot be built) is not modelled. Such a failure would leave `streamRef` set.
- `AudioContext.close()` is asynchronous; the model treats the context as closed at once.
- `Math.pow(level, 0.7)` and `toFixed(1)` are floating-point numerics. The curve is a parameter `curve: real -> real` of the sampling methods. `SampledLevel` states what follows for any curve that maps [0, 1] into itself.
- `AudioLevel` computes the average and the clamp in exact `real` arithmetic, not IEEE double precision. With the analyser's 128 bins the sum is at most 32640, and both divisions are by 128 = 2^7, so every step is exact in double precision as well. For other buffer lengths, which `MeasureLevel` also accepts, the two can differ in the last bits.
- `setTimeout`, `setInterval`, `requestAnimationFrame` and the clock are scheduling. Reveal timers fire in arming order, since they all wait 600 ms. A tick takes `now` as a parameter and is possible only while the interval exists.
- React's effect re-runs and `useState` batching are framework behaviour. `UnmountCleanup` reads the current `conversationStarted`. The real cleanup also runs when its dependencies change, with the value captured at the earlier render. That is not modelled.
- JSX, CSS and transforms such as `scale(1 + userAudioLevel * 0.3)` are UI.
- `formatTime` is modelled for integer seconds, which is all `elapsedTime` can hold. Fractional inputs and the exponent notation of `toString()` from 1e21 on are not modelled.
