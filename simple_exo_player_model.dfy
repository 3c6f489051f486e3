/** The state machine of `SimpleExoPlayerData`, on values: one function per
    operation of the controller, each mapping the state before the call to
    the state after it (and, where the Java code can throw, to how the call
    ended). The class in module `Player` is proved to follow these
    functions; module `SimpleExoPlayerProperties` proves what they promise. */
module SimpleExoPlayerModel {
  import opened Java
  import opened ExoPlayer
  import opened PlayerData

  /** Every field the controller reads or writes, plus the environment it
      talks to: the engine's command log and the listeners' notification
      trace. */
  datatype State = State(
    player: Option<Engine>,          // mSimpleExoPlayer
    loadListenerPending: bool,       // mLoadCompletionListener != null
    firstFrameRendered: bool,        // mFirstFrameRendered
    videoWidthHeight: Option<(int, int)>, // mVideoWidthHeight
    lastPlaybackState: Option<int>,  // mLastPlaybackState
    isLooping: bool,                 // mIsLooping
    isLoading: bool,                 // mIsLoading
    intent: Intent,                  // superclass playback intent
    sdkAtLeastM: bool,               // Build.VERSION.SDK_INT >= M
    hasSizeListener: bool,           // mVideoSizeUpdateListener != null
    progressUpdating: bool,          // superclass progress-update loop
    commands: seq<Command>,
    trace: seq<Notification>)

  /** The status fields `getExtraStatusFields` writes into the status map. */
  datatype ExtraStatus = ExtraStatus(
    durationMillis: int,
    positionMillis: int,
    playableDurationMillis: int,
    isPlaying: bool,
    isBuffering: bool,
    isLooping: bool)

  /** A freshly constructed controller (field initialisers of the class). */
  function Initial(sdkAtLeastM: bool, hasSizeListener: bool): (r: State) {
    State(None, false, false, None, None, false, true, DefaultIntent,
          sdkAtLeastM, hasSizeListener, false, [], [])
  }

  /** Issue one command to the live engine. */
  function Issue(s: State, c: Command): (r: State)
    requires s.player.Some?
  {
    s.(player := Some(Perform(s.player.value, c)), commands := s.commands + [c])
  }

  /** Append one notification to the trace. */
  function Notify(s: State, n: Notification): (r: State)
  {
    s.(trace := s.trace + [n])
  }

  // ---------------- Lifecycle ----------------

  /** `load`: stores the completion listener, creates and prepares the
      engine (`engine` is the new instance's initial state) and records the
      requested status. */
  function Load(s: State, intent: Intent, engine: Engine): (r: State)
  {
    s.(loadListenerPending := true, player := Some(engine),
       commands := s.commands + [Prepare], intent := intent)
  }

  /** `release`: releases and drops the engine if there is one. */
  function Release(s: State): (r: State)
  {
    if s.player.Some? then s.(player := None, commands := s.commands + [ReleasePlayer]) else s
  }

  /** `shouldContinueUpdatingProgress` */
  predicate ShouldContinueUpdatingProgress(s: State) {
    s.player.Some? && s.player.value.playWhenReady
  }

  // ---------------- Set status ----------------

  /** `updateVolumeMuteAndDuck`: pushes the volume to the engine, if any. */
  function UpdateVolumeMuteAndDuck(s: State): (r: State)
  {
    if s.player.Some? then Issue(s, SetVolume) else s
  }

  /** `playPlayerWithRateAndMuteIfNecessary`. Audio focus is acquired only
      for unmuted playback; `focusGranted` is the focus manager's answer,
      and a refusal is the `AudioFocusNotAcquiredException`. */
  function PlayPlayerWithRateAndMuteIfNecessary(s: State, focusGranted: bool): (r: (State, Thrown))
    ensures r.0.trace == s.trace
  {
    if s.player.None? || !s.intent.shouldPlayerPlay then (s, Returned)
    else if !s.intent.isMuted && !focusGranted then (s, AudioFocusNotAcquiredException)
    else (StartPlayback(s), Returned)
  }

  /** The playing branch of `playPlayerWithRateAndMuteIfNecessary`: volume,
      then rate and pitch where the platform has `PlaybackParams`, then
      `setPlayWhenReady(mShouldPlay)`, then progress updates. */
  function StartPlayback(s: State): (r: State)
    requires s.player.Some?
    ensures r.trace == s.trace && r.player.Some?
  {
    var s1 := ApplyRate(UpdateVolumeMuteAndDuck(s));
    Issue(s1, SetPlayWhenReady(s.intent.shouldPlay)).(progressUpdating := true)
  }

  /** The version-gated `setPlaybackParams` call. */
  function ApplyRate(s: State): (r: State)
    requires s.player.Some?
    ensures r.trace == s.trace && r.player.Some?
  {
    if s.sdkAtLeastM then Issue(s, SetPlaybackParams) else s
  }

  /** `applyNewStatus(newPositionMillis, newIsLooping)`; the two nullable
      arguments are `Option`s. */
  function ApplyNewStatus(s: State, newPositionMillis: Option<int>, newIsLooping: Option<bool>,
                          focusGranted: bool): (r: (State, Thrown))
    ensures r.0.trace == s.trace
  {
    if s.player.None? then (s, IllegalStateException)
    else
      var s1 := SetLoopingIfGiven(s, newIsLooping);
      var s2 := PauseFirstIfNecessary(s1);
      var s3 := UpdateVolumeMuteAndDuck(s2);
      var s4 := SeekIfRequested(s3, newPositionMillis);
      PlayPlayerWithRateAndMuteIfNecessary(s4, focusGranted)
  }

  /** The "set looping idempotently" step of `applyNewStatus`. */
  function SetLoopingIfGiven(s: State, newIsLooping: Option<bool>): (r: State)
    ensures r.isLooping == newIsLooping.GetOr(s.isLooping)
  {
    if newIsLooping.Some? then s.(isLooping := newIsLooping.value) else s
  }

  /** The "pause first if necessary" step of `applyNewStatus`. */
  function PauseFirstIfNecessary(s: State): (r: State)
    requires s.player.Some?
    ensures r.trace == s.trace && r.player.Some? && r.intent == s.intent
  {
    if !s.intent.shouldPlayerPlay
    then Issue(s, SetPlayWhenReady(false)).(progressUpdating := false)
    else s
  }

  /** The "seek" step of `applyNewStatus`. */
  function SeekIfRequested(s: State, newPositionMillis: Option<int>): (r: State)
    requires s.player.Some?
    ensures r.trace == s.trace && r.player.Some? && r.intent == s.intent
  {
    if newPositionMillis.Some? then Issue(s, SeekTo(newPositionMillis.value)) else s
  }

  // ---------------- Get status ----------------

  /** `isLoaded` */
  predicate IsLoaded(s: State) {
    s.player.Some?
  }

  /** `getExtraStatusFields`. It dereferences the engine, so with no engine
      the Java call dereferences a null engine: `None` here. */
  function GetExtraStatusFields(s: State): (r: Option<ExtraStatus>)
    ensures r.Some? <==> s.player.Some?
    ensures r.Some? ==> IsInt(r.value.durationMillis)
    ensures r.Some? && r.value.durationMillis >= 0 ==>
              0 <= r.value.positionMillis <= r.value.durationMillis &&
              0 <= r.value.playableDurationMillis <= r.value.durationMillis
    ensures r.Some? && IsInt(s.player.value.duration) ==> r.value.durationMillis == s.player.value.duration
    ensures r.Some? && IsInt(s.player.value.duration) && 0 <= s.player.value.currentPosition <= s.player.value.duration ==>
              r.value.positionMillis == s.player.value.currentPosition
    ensures r.Some? && IsInt(s.player.value.duration) && 0 <= s.player.value.bufferedPosition <= s.player.value.duration ==>
              r.value.playableDurationMillis == s.player.value.bufferedPosition
    ensures r.Some? ==> (r.value.isPlaying <==>
              s.player.value.playbackState == STATE_READY && s.player.value.playWhenReady)
    ensures r.Some? ==> (r.value.isBuffering <==>
              s.player.value.playbackState == STATE_BUFFERING || s.isLoading)
    ensures r.Some? ==> r.value.isLooping == s.isLooping
    ensures r.Some? ==> r.value.durationMillis == LongToInt(s.player.value.duration)
    ensures r.Some? ==> r.value.positionMillis == Clip(LongToInt(s.player.value.currentPosition), 0, r.value.durationMillis)
    ensures r.Some? ==>
              r.value.playableDurationMillis == Clip(LongToInt(s.player.value.bufferedPosition), 0, r.value.durationMillis)
  {
    if s.player.None? then None
    else
      var e := s.player.value;
      var duration := LongToInt(e.duration);
      Some(ExtraStatus(
        duration,
        Clip(LongToInt(e.currentPosition), 0, duration),
        Clip(LongToInt(e.bufferedPosition), 0, duration),
        e.playbackState == STATE_READY && e.playWhenReady,
        e.playbackState == STATE_BUFFERING || s.isLoading,
        s.isLooping))
  }

  /** `getVideoWidthHeight` */
  function GetVideoWidthHeight(s: State): (r: (int, int))
    ensures s.videoWidthHeight.None? ==> r == (0, 0)
    ensures s.videoWidthHeight.Some? ==> r == s.videoWidthHeight.value
  {
    s.videoWidthHeight.GetOr((0, 0))
  }

  // ---------------- Audio events ----------------

  /** `pauseImmediately` */
  function PauseImmediately(s: State): (r: State)
  {
    var s1 := if s.player.Some? then Issue(s, SetPlayWhenReady(false)) else s;
    s1.(progressUpdating := false)
  }

  /** `requiresAudioFocus` */
  predicate RequiresAudioFocus(s: State) {
    s.player.Some? && (s.player.value.playWhenReady || s.intent.shouldPlayerPlay) && !s.intent.isMuted
  }

  // ---------------- Engine callbacks ----------------

  /** `onLoadingChanged`: the first report of "not loading" fires the
      pending load callback, which is cleared before it is called. */
  function OnLoadingChanged(s: State, isLoading: bool): (r: State)
  {
    var s1 := if !isLoading && s.loadListenerPending
              then Notify(s.(loadListenerPending := false), LoadSuccess)
              else s;
    Notify(s1.(isLoading := isLoading), StatusUpdate)
  }

  /** `onPlayerStateChanged`. On a transition into ENDED with looping on it
      replays through `applyNewStatus(0, null)`, swallowing an audio focus
      refusal. An `IllegalStateException` from there (no engine) is not
      caught: it leaves the callback before `mLastPlaybackState` is
      written. */
  function OnPlayerStateChanged(s: State, playWhenReady: bool, playbackState: int,
                                focusGranted: bool): (r: (State, Thrown))
  {
    if s.lastPlaybackState.Some? && playbackState != s.lastPlaybackState.value
       && playbackState == STATE_ENDED
    then
      var s1 := Notify(s, DidJustFinish);
      if s1.isLooping then
        var (s2, thrown) := ApplyNewStatus(s1, Some(0), None, focusGranted);
        if thrown == IllegalStateException then (s2, IllegalStateException)
        else (s2.(lastPlaybackState := Some(playbackState)), Returned)
      else (s1.(lastPlaybackState := Some(playbackState)), Returned)
    else
      (Notify(s, StatusUpdate).(lastPlaybackState := Some(playbackState)), Returned)
  }

  /** `onLoadError`: fires the pending load callback with the error's
      message, if still pending, and then releases. */
  function OnLoadError(s: State, message: string): (r: State)
  {
    var s1 := if s.loadListenerPending
              then Notify(s.(loadListenerPending := false), LoadFailure(message))
              else s;
    Release(s1)
  }

  /** `onVideoSizeChanged`: stores the size; reports it only once the first
      frame has been rendered. */
  function OnVideoSizeChanged(s: State, width: int, height: int): (r: State)
  {
    var s1 := s.(videoWidthHeight := Some((width, height)));
    if s.firstFrameRendered && s.hasSizeListener then Notify(s1, VideoSizeUpdate((width, height))) else s1
  }

  /** `onRenderedFirstFrame`: reports a size already known, on the first
      rendered frame only. */
  function OnRenderedFirstFrame(s: State): (r: State)
  {
    var s1 := if !s.firstFrameRendered && s.videoWidthHeight.Some? && s.hasSizeListener
              then Notify(s, VideoSizeUpdate(s.videoWidthHeight.value))
              else s;
    s1.(firstFrameRendered := true)
  }

  // ---------------- Sequences of inputs ----------------

  /** Everything that can happen to a loaded controller: an engine callback,
      a consumer command other than `load`, the superclass installing or
      removing its video-size listener, or the engine's readings moving on.
      Focus answers travel with the inputs that may ask for focus. */
  datatype Input =
    | LoadingChanged(isLoading: bool)
    | PlayerStateChanged(playWhenReady: bool, playbackState: int, focusGranted: bool)
    | LoadErrorOccurred(message: string)
    | VideoSizeChanged(width: int, height: int)
    | RenderedFirstFrame
    | TimelineChanged
    | PlayerErrorOccurred
    | PositionDiscontinuity
    | VideoTracksDisabled
    | NewStatus(positionMillis: Option<int>, looping: Option<bool>, focusGranted: bool)
    | PlayIfNecessary(focusGranted: bool)
    | PauseNow
    | ReleaseNow
    | IntentChanged(intent: Intent)
    | SizeListenerChanged(present: bool)
    | EngineAdvanced(playbackState: int, duration: int, currentPosition: int, bufferedPosition: int)

  /** The engine's own progress between callbacks: its playback state,
      duration and positions move on; what the controller commanded stays. */
  function AdvanceEngine(s: State, playbackState: int, duration: int, currentPosition: int,
                         bufferedPosition: int): (r: State)
    ensures IsLoaded(r) == IsLoaded(s)
    ensures IsLoaded(s) ==> r.player.value.playWhenReady == s.player.value.playWhenReady
    ensures IsLoaded(s) ==> r.player.value.playbackState == playbackState && r.player.value.duration == duration
    ensures IsLoaded(s) ==>
              r.player.value.currentPosition == currentPosition && r.player.value.bufferedPosition == bufferedPosition
  {
    if s.player.None? then s
    else s.(player := Some(s.player.value.(playbackState := playbackState, duration := duration,
                                            currentPosition := currentPosition,
                                            bufferedPosition := bufferedPosition)))
  }

  /** The controller's reaction to one input; exceptions are dropped, as
      the state they leave behind is what the next input sees. The four
      empty handlers of the class change nothing. */
  function Step(s: State, i: Input): (r: State)
  {
    match i
    case LoadingChanged(b) => OnLoadingChanged(s, b)
    case PlayerStateChanged(pwr, ps, f) => OnPlayerStateChanged(s, pwr, ps, f).0
    case LoadErrorOccurred(m) => OnLoadError(s, m)
    case VideoSizeChanged(w, h) => OnVideoSizeChanged(s, w, h)
    case RenderedFirstFrame => OnRenderedFirstFrame(s)
    case TimelineChanged => s
    case PlayerErrorOccurred => s
    case PositionDiscontinuity => s
    case VideoTracksDisabled => s
    case NewStatus(p, l, f) => ApplyNewStatus(s, p, l, f).0
    case PlayIfNecessary(f) => PlayPlayerWithRateAndMuteIfNecessary(s, f).0
    case PauseNow => PauseImmediately(s)
    case ReleaseNow => Release(s)
    case IntentChanged(intent) => s.(intent := intent)
    case SizeListenerChanged(present) => s.(hasSizeListener := present)
    case EngineAdvanced(ps, d, cp, bp) => AdvanceEngine(s, ps, d, cp, bp)
  }

  /** The controller's state after a sequence of inputs. */
  function Run(s: State, inputs: seq<Input>): (r: State)
    decreases |inputs|
  {
    if inputs == [] then s else Run(Step(s, inputs[0]), inputs[1..])
  }
}
