/**
 * The state of the home page component and the handlers that change it:
 * the ElevenLabs connection callbacks, the persona click handler, the
 * microphone monitor (start, per-frame sampling, stop), the elapsed-time
 * interval and the unmount cleanup.
 *
 * Every `await` splits a handler in two: the method named after the handler
 * runs the code up to the await, and an outcome method (granted / denied,
 * resolved / rejected) runs the continuation when the event loop resumes it.
 * Counters of suspended continuations say which outcomes can still arrive.
 */
module HomePage {
  import opened Wrappers
  import opened AudioLevel

  datatype Persona = Maya | Miles

  /** `analyser.fftSize`; the analyser then exposes `fftSize / 2` frequency bins. */
  const FftSize: nat := 256
  const FrequencyBinCount: nat := FftSize / 2

  // ---- elapsed time ----

  /** `Math.floor((now - start) / 1000)` for two `Date.now()` readings in milliseconds. */
  function ElapsedSeconds(start: int, now: int): (e: int)
    ensures e * 1000 <= now - start < e * 1000 + 1000
  {
    (now - start) / 1000
  }

  lemma ElapsedNonNegative(start: int, now: int)
    requires start <= now
    ensures ElapsedSeconds(start, now) >= 0
  {
  }

  /** A later reading never shows fewer elapsed seconds. */
  lemma ElapsedMonotone(start: int, now1: int, now2: int)
    requires now1 <= now2
    ensures ElapsedSeconds(start, now1) <= ElapsedSeconds(start, now2)
  {
  }

  /** `k` whole seconds after the start (plus less than one more) the timer reads `k`. */
  lemma ElapsedWholeSeconds(start: int, k: nat, ms: int)
    requires 0 <= ms < 1000
    ensures ElapsedSeconds(start, start + 1000 * k + ms) == k
  {
  }

  // ---- the microphone monitor ----

  /** The part of the state that belongs to microphone monitoring. */
  datatype Monitor = Monitor(
    stream: bool,                    // streamRef.current is set
    audioContext: bool,              // audioContextRef.current is set
    analyser: bool,                  // analyserRef.current is set
    animationFrame: Option<nat>,     // animationFrameRef.current
    scheduledFrames: set<nat>,       // requestAnimationFrame callbacks not yet run or cancelled
    nextFrameId: nat,                // the id the next requestAnimationFrame returns
    liveStreams: nat,                // microphone streams whose tracks are still live
    liveContexts: nat,               // audio contexts created and not yet closed
    pendingMicrophoneRequests: nat,  // startUserMicrophoneMonitoring calls suspended at getUserMedia
    level: real)                     // userAudioLevel

  ghost predicate MonitorValid(m: Monitor)
  {
    && (m.stream ==> m.liveStreams > 0)
    && (m.audioContext ==> m.analyser && m.liveContexts > 0)
    && m.nextFrameId > 0
    && (forall id :: id in m.scheduledFrames ==> id < m.nextFrameId)
    && (m.animationFrame.Some? ==> 0 < m.animationFrame.value < m.nextFrameId)
  }

  /** The frame callbacks that stopping can cancel: the one whose id is in the ref. */
  function RefFrames(m: Monitor): set<nat>
  {
    if m.animationFrame.Some? then {m.animationFrame.value} else {}
  }

  /**
   * The effect of `stopUserMicrophoneMonitoring`: the frame in the ref is
   * cancelled, the held stream's tracks are stopped, the held audio context is
   * closed, the three refs are cleared and the level is reset. The analyser
   * ref is left as it was.
   */
  function Released(m: Monitor): (r: Monitor)
    requires MonitorValid(m)
    ensures MonitorValid(r)
  {
    m.(stream := false, audioContext := false, animationFrame := None,
       scheduledFrames := m.scheduledFrames - RefFrames(m),
       liveStreams := if m.stream then m.liveStreams - 1 else m.liveStreams,
       liveContexts := if m.audioContext then m.liveContexts - 1 else m.liveContexts,
       level := 0.0)
  }

  /** The effect of a successful `getUserMedia` in `startUserMicrophoneMonitoring`, before the first sample. */
  function Acquired(m: Monitor): (r: Monitor)
    requires MonitorValid(m) && m.pendingMicrophoneRequests > 0
    ensures MonitorValid(r)
  {
    m.(stream := true, audioContext := true, analyser := true,
       liveStreams := m.liveStreams + 1,
       liveContexts := m.liveContexts + 1,
       pendingMicrophoneRequests := m.pendingMicrophoneRequests - 1)
  }

  /**
   * The effect of one run of `updateLevel` on a spectrum of `FrequencyBinCount`
   * bytes: without an analyser nothing happens; otherwise the level becomes the
   * sensitivity curve applied to the normalised level and a new frame is requested.
   */
  function Sampled(m: Monitor, spectrum: seq<Byte>, curve: real -> real): (r: Monitor)
    requires MonitorValid(m) && |spectrum| == FrequencyBinCount
    ensures MonitorValid(r)
  {
    if !m.analyser then m
    else
      NormalizedInUnit(spectrum);
      m.(level := curve(Normalized(spectrum).value),
         animationFrame := Some(m.nextFrameId),
         scheduledFrames := m.scheduledFrames + {m.nextFrameId},
         nextFrameId := m.nextFrameId + 1)
  }

  /** Stopping leaves the frame, stream and audio-context refs empty and the level 0, keeps the analyser, and stops what the refs held. */
  lemma ReleasedClearsSlots(m: Monitor)
    requires MonitorValid(m)
    ensures var r := Released(m);
            && !r.stream && !r.audioContext && r.animationFrame == None && r.level == 0.0
            && r.analyser == m.analyser
            && r.liveStreams == (if m.stream then m.liveStreams - 1 else m.liveStreams)
            && r.liveContexts == (if m.audioContext then m.liveContexts - 1 else m.liveContexts)
  {
  }

  /** Stopping twice is the same as stopping once. */
  lemma ReleasedIdempotent(m: Monitor)
    requires MonitorValid(m)
    ensures Released(Released(m)) == Released(m)
  {
  }

  /** Stopping when nothing is held only resets the level. */
  lemma ReleasedWhenIdle(m: Monitor)
    requires MonitorValid(m) && !m.stream && !m.audioContext && m.animationFrame == None
    ensures Released(m) == m.(level := 0.0)
  {
  }

  /**
   * When the only scheduled frame is the one in the ref (a single sampling
   * loop), no frame callback is left after stopping; every other scheduled
   * callback survives it.
   */
  lemma ReleasedCancelsLoop(m: Monitor)
    requires MonitorValid(m)
    ensures Released(m).scheduledFrames == m.scheduledFrames - RefFrames(m)
    ensures m.scheduledFrames <= RefFrames(m) ==> Released(m).scheduledFrames == {}
  {
  }

  /** With a sensitivity curve that maps [0, 1] into [0, 1], a sample keeps the level in [0, 1]; a silent spectrum sets it to the curve's value at 0. */
  lemma SampledLevel(m: Monitor, spectrum: seq<Byte>, curve: real -> real)
    requires MonitorValid(m) && m.analyser && |spectrum| == FrequencyBinCount
    requires forall x: real :: 0.0 <= x <= 1.0 ==> 0.0 <= curve(x) <= 1.0
    ensures 0.0 <= Sampled(m, spectrum, curve).level <= 1.0
    ensures (forall i :: 0 <= i < |spectrum| ==> spectrum[i] == 0) ==> Sampled(m, spectrum, curve).level == curve(0.0)
  {
    NormalizedInUnit(spectrum);
    NormalizedZeroIff(spectrum);
  }

  /** A sample requests a fresh frame id, so one more frame callback is scheduled than before. */
  lemma SampledFreshFrame(m: Monitor, spectrum: seq<Byte>, curve: real -> real)
    requires MonitorValid(m) && m.analyser && |spectrum| == FrequencyBinCount
    ensures m.nextFrameId !in m.scheduledFrames
    ensures |Sampled(m, spectrum, curve).scheduledFrames| == |m.scheduledFrames| + 1
  {
  }

  // ---- the session lifecycle ----

  /** The part of the state that belongs to the conversation and the persona view. */
  datatype Lifecycle = Lifecycle(
    clickedHalf: Option<Persona>,
    isTransitioning: bool,
    conversationStarted: bool,
    isLoading: bool,
    conversationStartTime: Option<int>,
    elapsedTime: int,
    revealTimers: seq<Persona>,     // armed setTimeout(…, 600) callbacks, in firing order
    pendingPermissionChecks: nat,   // clicks suspended at the getUserMedia permission check
    pendingSessionStarts: nat,      // clicks suspended at startSession
    endSessionRequests: nat)        // calls made to conversation.endSession()

  ghost predicate LifecycleValid(l: Lifecycle)
  {
    && (l.conversationStarted <==> l.conversationStartTime.Some?)
    && (!l.conversationStarted ==> l.elapsedTime == 0)
  }

  /** The home page component: its `useState` values, its `useRef` slots, and what the browser and the SDK hold for it. */
  class Home {
    // useState
    var clickedHalf: Option<Persona>
    var isTransitioning: bool
    var userAudioLevel: real
    var conversationStarted: bool
    var isLoading: bool
    var conversationStartTime: Option<int>
    var elapsedTime: int
    // useRef slots (a `bool` says whether the slot holds an object)
    var audioContextRef: bool
    var analyserRef: bool
    var streamRef: bool
    var animationFrameRef: Option<nat>
    // outside the component
    var scheduledFrames: set<nat>
    var nextFrameId: nat
    var liveStreams: nat
    var liveContexts: nat
    var pendingMicrophoneRequests: nat
    var revealTimers: seq<Persona>
    var pendingPermissionChecks: nat
    var pendingSessionStarts: nat
    var endSessionRequests: nat

    function MonitorState(): Monitor
      reads this
    {
      Monitor(streamRef, audioContextRef, analyserRef, animationFrameRef, scheduledFrames,
              nextFrameId, liveStreams, liveContexts, pendingMicrophoneRequests, userAudioLevel)
    }

    function LifecycleState(): Lifecycle
      reads this
    {
      Lifecycle(clickedHalf, isTransitioning, conversationStarted, isLoading, conversationStartTime,
                elapsedTime, revealTimers, pendingPermissionChecks, pendingSessionStarts, endSessionRequests)
    }

    ghost predicate Valid()
      reads this
    {
      MonitorValid(MonitorState()) && LifecycleValid(LifecycleState())
    }

    /** The timer effect installs its interval only while started with a (truthy, hence non-zero) start time. */
    predicate TimerArmed()
      reads this
    {
      conversationStarted && conversationStartTime.Some? && conversationStartTime.value != 0
    }

    /** The first render: every state value at its `useState` default, every ref null. */
    constructor ()
      ensures Valid()
      ensures LifecycleState() == Lifecycle(None, false, false, false, None, 0, [], 0, 0, 0)
      ensures MonitorState() == Monitor(false, false, false, None, {}, 1, 0, 0, 0, 0.0)
    {
      clickedHalf, isTransitioning, userAudioLevel := None, false, 0.0;
      conversationStarted, isLoading, conversationStartTime, elapsedTime := false, false, None, 0;
      audioContextRef, analyserRef, streamRef, animationFrameRef := false, false, false, None;
      scheduledFrames, nextFrameId, liveStreams, liveContexts, pendingMicrophoneRequests := {}, 1, 0, 0, 0;
      revealTimers, pendingPermissionChecks, pendingSessionStarts, endSessionRequests := [], 0, 0, 0;
    }

    // ---- connection callbacks ----

    /** `onConnect`: the conversation is started now, the timer reset, loading cleared, and monitoring begun. */
    method OnConnect(now: int)
      requires Valid()
      modifies this
      ensures Valid()
      ensures LifecycleState() == old(LifecycleState()).(conversationStarted := true,
                conversationStartTime := Some(now), elapsedTime := 0, isLoading := false)
      ensures MonitorState() == old(MonitorState()).(pendingMicrophoneRequests := old(pendingMicrophoneRequests) + 1)
      ensures now != 0 ==> TimerArmed()
    {
      conversationStarted := true;
      conversationStartTime := Some(now);
      elapsedTime := 0;
      isLoading := false;
      StartUserMicrophoneMonitoring();
    }

    /** `onDisconnect`: the conversation is over, the timer cleared and stopped, and monitoring stopped. */
    method OnDisconnect()
      requires Valid()
      modifies this
      ensures Valid()
      ensures LifecycleState() == old(LifecycleState()).(conversationStarted := false,
                conversationStartTime := None, elapsedTime := 0)
      ensures MonitorState() == Released(old(MonitorState()))
      ensures !TimerArmed()
    {
      conversationStarted := false;
      conversationStartTime := None;
      elapsedTime := 0;
      StopUserMicrophoneMonitoring();
    }

    /** `onError`: only the loading indicator is cleared. */
    method OnError()
      requires Valid()
      modifies this
      ensures Valid()
      ensures LifecycleState() == old(LifecycleState()).(isLoading := false)
      ensures MonitorState() == old(MonitorState())
    {
      isLoading := false;
    }

    // ---- the persona click handler ----

    /**
     * `handleHalfClick(half)` up to its first await. While started it only
     * clears the persona and asks the SDK to end the session; otherwise it
     * raises the transition and loading flags, arms the 600 ms reveal timer
     * and asks for microphone permission.
     */
    method HandleHalfClick(half: Persona)
      requires Valid()
      modifies this
      ensures Valid()
      ensures old(conversationStarted) ==>
        LifecycleState() == old(LifecycleState()).(clickedHalf := None,
          endSessionRequests := old(endSessionRequests) + 1)
      ensures !old(conversationStarted) ==>
        LifecycleState() == old(LifecycleState()).(isTransitioning := true, isLoading := true,
          revealTimers := old(revealTimers) + [half],
          pendingPermissionChecks := old(pendingPermissionChecks) + 1)
      ensures MonitorState() == old(MonitorState())
    {
      if conversationStarted {
        clickedHalf := None;
        endSessionRequests := endSessionRequests + 1;
        return;
      }
      isTransitioning := true;
      isLoading := true;
      revealTimers := revealTimers + [half];
      pendingPermissionChecks := pendingPermissionChecks + 1;
    }

    /** The reveal timer armed by a click fires: its persona is shown and the transition ends. */
    method RevealTimerFires()
      requires Valid() && |revealTimers| > 0
      modifies this
      ensures Valid()
      ensures LifecycleState() == old(LifecycleState()).(clickedHalf := Some(old(revealTimers)[0]),
                isTransitioning := false, revealTimers := old(revealTimers)[1..])
      ensures MonitorState() == old(MonitorState())
    {
      clickedHalf := Some(revealTimers[0]);
      isTransitioning := false;
      revealTimers := revealTimers[1..];
    }

    /**
     * The permission check resolves: the click goes on to `startSession`.
     * The stream it was granted is not kept in any ref and its tracks are never stopped.
     */
    method PermissionGranted()
      requires Valid() && pendingPermissionChecks > 0
      modifies this
      ensures Valid()
      ensures LifecycleState() == old(LifecycleState()).(pendingPermissionChecks := old(pendingPermissionChecks) - 1,
                pendingSessionStarts := old(pendingSessionStarts) + 1)
      ensures MonitorState() == old(MonitorState()).(liveStreams := old(liveStreams) + 1)
    {
      pendingPermissionChecks := pendingPermissionChecks - 1;
      liveStreams := liveStreams + 1;
      pendingSessionStarts := pendingSessionStarts + 1;
    }

    /** The permission check rejects: the catch block clears loading and the persona. */
    method PermissionDenied()
      requires Valid() && pendingPermissionChecks > 0
      modifies this
      ensures Valid()
      ensures LifecycleState() == old(LifecycleState()).(pendingPermissionChecks := old(pendingPermissionChecks) - 1,
                isLoading := false, clickedHalf := None)
      ensures MonitorState() == old(MonitorState())
    {
      pendingPermissionChecks := pendingPermissionChecks - 1;
      isLoading := false;
      clickedHalf := None;
    }

    /** `startSession` resolves: the click only logs the conversation id. */
    method SessionStartResolved()
      requires Valid() && pendingSessionStarts > 0
      modifies this
      ensures Valid()
      ensures LifecycleState() == old(LifecycleState()).(pendingSessionStarts := old(pendingSessionStarts) - 1)
      ensures MonitorState() == old(MonitorState())
    {
      pendingSessionStarts := pendingSessionStarts - 1;
    }

    /** `startSession` rejects: the catch block clears loading and the persona. */
    method SessionStartRejected()
      requires Valid() && pendingSessionStarts > 0
      modifies this
      ensures Valid()
      ensures LifecycleState() == old(LifecycleState()).(pendingSessionStarts := old(pendingSessionStarts) - 1,
                isLoading := false, clickedHalf := None)
      ensures MonitorState() == old(MonitorState())
    {
      pendingSessionStarts := pendingSessionStarts - 1;
      isLoading := false;
      clickedHalf := None;
    }

    // ---- microphone monitoring ----

    /** `startUserMicrophoneMonitoring` up to its await: a microphone stream is requested. */
    method StartUserMicrophoneMonitoring()
      requires Valid()
      modifies this
      ensures Valid()
      ensures LifecycleState() == old(LifecycleState())
      ensures MonitorState() == old(MonitorState()).(pendingMicrophoneRequests := old(pendingMicrophoneRequests) + 1)
    {
      pendingMicrophoneRequests := pendingMicrophoneRequests + 1;
    }

    /**
     * The microphone request resolves: the stream, audio context and analyser
     * are stored in their refs (whatever they held before is overwritten) and
     * `monitorUserAudioLevel` takes the first sample.
     */
    method MicrophoneGranted(spectrum: array<Byte>, curve: real -> real)
      requires Valid() && pendingMicrophoneRequests > 0 && spectrum.Length == FrequencyBinCount
      modifies this
      ensures Valid()
      ensures LifecycleState() == old(LifecycleState())
      ensures MonitorState() == Sampled(Acquired(old(MonitorState())), spectrum[..], curve)
    {
      AttachMicrophone();
      // monitorUserAudioLevel: its own analyser check is the one updateLevel repeats
      UpdateLevel(spectrum, curve);
    }

    /** The resolved microphone request: the granted stream is stored, then a new audio context and its analyser are created into their refs. */
    method AttachMicrophone()
      requires Valid() && pendingMicrophoneRequests > 0
      modifies this
      ensures Valid()
      ensures LifecycleState() == old(LifecycleState())
      ensures MonitorState() == Acquired(old(MonitorState()))
    {
      StoreStream();
      CreateAnalyser();
    }

    /** `streamRef.current = stream`. */
    method StoreStream()
      requires Valid() && pendingMicrophoneRequests > 0
      modifies this
      ensures Valid()
      ensures LifecycleState() == old(LifecycleState())
      ensures MonitorState() == old(MonitorState()).(stream := true, liveStreams := old(liveStreams) + 1,
                pendingMicrophoneRequests := old(pendingMicrophoneRequests) - 1)
    {
      pendingMicrophoneRequests := pendingMicrophoneRequests - 1;
      liveStreams := liveStreams + 1;
      streamRef := true;
    }

    /** A new audio context and its analyser are created into their refs; whatever context the ref held before is not closed. */
    method CreateAnalyser()
      requires Valid()
      modifies this
      ensures Valid()
      ensures LifecycleState() == old(LifecycleState())
      ensures MonitorState() == old(MonitorState()).(audioContext := true, analyser := true,
                liveContexts := old(liveContexts) + 1)
    {
      liveContexts := liveContexts + 1;
      audioContextRef := true;
      analyserRef := true;
    }

    /** The microphone request rejects: the error is only logged. */
    method MicrophoneDenied()
      requires Valid() && pendingMicrophoneRequests > 0
      modifies this
      ensures Valid()
      ensures LifecycleState() == old(LifecycleState())
      ensures MonitorState() == old(MonitorState()).(pendingMicrophoneRequests := old(pendingMicrophoneRequests) - 1)
    {
      pendingMicrophoneRequests := pendingMicrophoneRequests - 1;
    }

    /**
     * The body of `updateLevel` on the spectrum `getByteFrequencyData` wrote:
     * without an analyser it returns; otherwise it measures the level, stores
     * the curve's value for it and requests the next frame.
     */
    method UpdateLevel(spectrum: array<Byte>, curve: real -> real)
      requires Valid() && spectrum.Length == FrequencyBinCount
      modifies this
      ensures Valid()
      ensures LifecycleState() == old(LifecycleState())
      ensures MonitorState() == Sampled(old(MonitorState()), spectrum[..], curve)
    {
      if !analyserRef {
        return;
      }
      ghost var data := spectrum[..];
      var _, level := MeasureLevel(spectrum);
      NormalizedInUnit(data);
      ContinueMonitoring(curve(level.value));
    }

    /** The tail of `updateLevel`: the level is stored and the next frame requested into the ref. */
    method ContinueMonitoring(level: real)
      requires Valid()
      modifies this
      ensures Valid()
      ensures LifecycleState() == old(LifecycleState())
      ensures MonitorState() == old(MonitorState()).(level := level, animationFrame := Some(old(nextFrameId)),
                scheduledFrames := old(scheduledFrames) + {old(nextFrameId)}, nextFrameId := old(nextFrameId) + 1)
    {
      var id := nextFrameId;
      userAudioLevel := level;
      animationFrameRef := Some(id);
      scheduledFrames := scheduledFrames + {id};
      nextFrameId := id + 1;
    }

    /** The browser runs the scheduled frame callback `id`. */
    method RunAnimationFrame(id: nat, spectrum: array<Byte>, curve: real -> real)
      requires Valid() && id in scheduledFrames && spectrum.Length == FrequencyBinCount
      modifies this
      ensures Valid()
      ensures LifecycleState() == old(LifecycleState())
      ensures MonitorState() == Sampled(old(MonitorState()).(scheduledFrames := old(scheduledFrames) - {id}), spectrum[..], curve)
    {
      scheduledFrames := scheduledFrames - {id};
      UpdateLevel(spectrum, curve);
    }

    /** `stopUserMicrophoneMonitoring`; the analyser ref is not cleared. */
    method StopUserMicrophoneMonitoring()
      requires Valid()
      modifies this
      ensures Valid()
      ensures LifecycleState() == old(LifecycleState())
      ensures MonitorState() == Released(old(MonitorState()))
    {
      CancelAnimationFrame();
      StopStreamTracks();
      CloseAudioContext();
      userAudioLevel := 0.0;
    }

    /** The first step of stopping: the frame whose id is in the ref is cancelled and the ref cleared. */
    method CancelAnimationFrame()
      requires Valid()
      modifies this
      ensures Valid()
      ensures LifecycleState() == old(LifecycleState())
      ensures MonitorState() == old(MonitorState()).(animationFrame := None,
                scheduledFrames := old(scheduledFrames) - RefFrames(old(MonitorState())))
    {
      if animationFrameRef.Some? {  // frame ids are positive, so a held id is truthy
        scheduledFrames := scheduledFrames - {animationFrameRef.value};
        animationFrameRef := None;
      }
    }

    /** The second step of stopping: the held stream's tracks are stopped and the ref cleared. */
    method StopStreamTracks()
      requires Valid()
      modifies this
      ensures Valid()
      ensures LifecycleState() == old(LifecycleState())
      ensures MonitorState() == old(MonitorState()).(stream := false,
                liveStreams := if old(streamRef) then old(liveStreams) - 1 else old(liveStreams))
    {
      if streamRef {
        liveStreams := liveStreams - 1;
        streamRef := false;
      }
    }

    /** The third step of stopping: the held audio context is closed and the ref cleared. */
    method CloseAudioContext()
      requires Valid()
      modifies this
      ensures Valid()
      ensures LifecycleState() == old(LifecycleState())
      ensures MonitorState() == old(MonitorState()).(audioContext := false,
                liveContexts := if old(audioContextRef) then old(liveContexts) - 1 else old(liveContexts))
    {
      if audioContextRef {
        liveContexts := liveContexts - 1;
        audioContextRef := false;
      }
    }

    // ---- effects ----

    /** One tick of the one-second interval: the elapsed time is recomputed from the start time. */
    method TimerTick(now: int)
      requires Valid() && TimerArmed()
      modifies this
      ensures Valid()
      ensures LifecycleState() == old(LifecycleState()).(elapsedTime := ElapsedSeconds(old(conversationStartTime).value, now))
      ensures MonitorState() == old(MonitorState())
    {
      elapsedTime := ElapsedSeconds(conversationStartTime.value, now);
    }

    /** The unmount cleanup: monitoring is stopped and, if a conversation is running, the SDK is asked to end it. */
    method UnmountCleanup()
      requires Valid()
      modifies this
      ensures Valid()
      ensures LifecycleState() == old(LifecycleState()).(endSessionRequests :=
                old(endSessionRequests) + if old(conversationStarted) then 1 else 0)
      ensures MonitorState() == Released(old(MonitorState()))
    {
      StopUserMicrophoneMonitoring();
      if conversationStarted {
        endSessionRequests := endSessionRequests + 1;
      }
    }
  }
}
