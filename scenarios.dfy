/**
 * Client code driving the home page through whole interactions, in the
 * style of a test: each method builds a fresh component, feeds it a
 * sequence of user, SDK and browser events, and states what the component
 * then shows.
 */
module Scenarios {
  import opened Wrappers
  import opened AudioLevel
  import opened TimeFormat
  import opened HomePage

  /** A click on Maya, permission granted, session connected, microphone granted, three ticks one second apart. */
  method ConnectedSession(t0: int, spectrum: array<Byte>, curve: real -> real)
    returns (started: bool, elapsed: int, display: string, monitoring: bool, loading: bool)
    requires t0 != 0 && spectrum.Length == FrequencyBinCount
    ensures started && elapsed == 3 && display == "00:03"
    ensures monitoring && !loading
  {
    var home := new Home();
    home.HandleHalfClick(Maya);
    home.PermissionGranted();
    home.SessionStartResolved();
    home.OnConnect(t0);
    home.MicrophoneGranted(spectrum, curve);
    home.TimerTick(t0 + 1000);
    home.TimerTick(t0 + 2000);
    home.TimerTick(t0 + 3000);
    ElapsedWholeSeconds(t0, 3, 0);
    started, elapsed := home.conversationStarted, home.elapsedTime;
    FormatTimeExamples();
    display := FormatTime(elapsed);
    monitoring := home.streamRef && home.animationFrameRef.Some?;
    loading := home.isLoading;
  }

  /**
   * A click on Miles whose `startSession` rejects after the 600 ms reveal:
   * loading is cleared, the persona shown by the timer is taken away again,
   * no timer is left armed and no capture resources were opened; the stream
   * granted to the permission check is still live.
   */
  method RejectedStart()
    returns (started: bool, loading: bool, transitioning: bool, shown: Option<Persona>, armedTimers: nat,
             capturing: bool, liveStreams: nat)
    ensures !started && !loading && !transitioning && shown == None && armedTimers == 0 && !capturing
    ensures liveStreams == 1
  {
    var home := new Home();
    home.HandleHalfClick(Miles);
    home.RevealTimerFires();
    home.PermissionGranted();
    home.SessionStartRejected();
    started, loading, shown := home.conversationStarted, home.isLoading, home.clickedHalf;
    transitioning, armedTimers := home.isTransitioning, |home.revealTimers|;
    capturing := home.streamRef || home.audioContextRef || home.animationFrameRef.Some?;
    liveStreams := home.liveStreams;
  }

  /** A remote disconnect during a monitored conversation stops the timer and the sampling loop in the same step. */
  method RemoteDisconnect(t0: int, spectrum: array<Byte>, curve: real -> real)
    returns (started: bool, holdsStream: bool, frames: set<nat>, ticking: bool, level: real)
    requires spectrum.Length == FrequencyBinCount
    ensures !started && !holdsStream && frames == {} && !ticking && level == 0.0
  {
    var home := new Home();
    home.OnConnect(t0);
    home.MicrophoneGranted(spectrum, curve);
    home.OnDisconnect();
    started, holdsStream, frames := home.conversationStarted, home.streamRef, home.scheduledFrames;
    ticking, level := home.TimerArmed(), home.userAudioLevel;
  }

  /**
   * A disconnect that arrives while the monitor's microphone request is
   * still pending: the stream granted afterwards is stored and sampled
   * although the conversation is over.
   */
  method MicrophoneAfterDisconnect(t0: int, spectrum: array<Byte>, curve: real -> real)
    returns (started: bool, holdsStream: bool, frames: set<nat>)
    requires spectrum.Length == FrequencyBinCount
    ensures !started && holdsStream && frames != {}
  {
    var home := new Home();
    home.OnConnect(t0);
    home.OnDisconnect();
    home.MicrophoneGranted(spectrum, curve);
    started, holdsStream, frames := home.conversationStarted, home.streamRef, home.scheduledFrames;
  }

  /**
   * A permission failure reported before the 600 ms reveal timer fires: the
   * catch block clears the persona, and the timer then shows it anyway.
   */
  method FailureBeforeReveal() returns (started: bool, loading: bool, shown: Option<Persona>)
    ensures !started && !loading && shown == Some(Maya)
  {
    var home := new Home();
    home.HandleHalfClick(Maya);
    home.PermissionDenied();
    home.RevealTimerFires();
    started, loading, shown := home.conversationStarted, home.isLoading, home.clickedHalf;
  }

  /**
   * Connect, disconnect and connect again before the first microphone request
   * resolves: both requests are granted, the second overwrites the refs of the
   * first without closing its audio context, and after the final disconnect
   * one sampling loop, one stream and one audio context are left running.
   */
  method OrphanedLoop(t0: int, t1: int, spectrum: array<Byte>, curve: real -> real)
    returns (started: bool, frames: set<nat>, liveStreams: nat, liveContexts: nat)
    requires spectrum.Length == FrequencyBinCount
    ensures !started && |frames| == 1 && liveStreams == 1 && liveContexts == 1
  {
    var home := new Home();
    home.OnConnect(t0);
    home.OnDisconnect();
    home.OnConnect(t1);
    home.MicrophoneGranted(spectrum, curve);
    home.MicrophoneGranted(spectrum, curve);
    home.OnDisconnect();
    started, frames, liveStreams := home.conversationStarted, home.scheduledFrames, home.liveStreams;
    liveContexts := home.liveContexts;
  }

  /**
   * The sequence of `OrphanedLoop`, then the surviving frame callback runs and a
   * later stop follows. The analyser ref is still set, so the callback publishes
   * a level while not started and puts its next frame id into the ref. The next
   * stop then finds that id and cancels the loop. The first stream and the
   * first audio context stay open.
   */
  method OrphanedLoopRecaptured(t0: int, t1: int, spectrum: array<Byte>, curve: real -> real)
    returns (started: bool, levelWhileStopped: real, frames: set<nat>, liveStreams: nat, liveContexts: nat)
    requires spectrum.Length == FrequencyBinCount
    ensures !started && levelWhileStopped == curve(Normalized(spectrum[..]).value)
    ensures frames == {} && liveStreams == 1 && liveContexts == 1
  {
    var home := new Home();
    home.OnConnect(t0);
    home.OnDisconnect();
    home.OnConnect(t1);
    home.MicrophoneGranted(spectrum, curve);
    home.MicrophoneGranted(spectrum, curve);
    home.OnDisconnect();
    home.RunAnimationFrame(1, spectrum, curve);
    started, levelWhileStopped := home.conversationStarted, home.userAudioLevel;
    home.StopUserMicrophoneMonitoring();
    frames, liveStreams, liveContexts := home.scheduledFrames, home.liveStreams, home.liveContexts;
  }
}
