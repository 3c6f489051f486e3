/** `SimpleExoPlayerData` as the object it is: its fields are updated in
    place, step by step as in the Java methods, and every method is proved
    to move the object's state exactly as the corresponding function of
    `SimpleExoPlayerModel` says. What those functions promise is proved in
    `SimpleExoPlayerProperties`. */
module Player {
  import opened Java
  import opened ExoPlayer
  import opened PlayerData
  import opened SimpleExoPlayerModel

  class SimpleExoPlayerData {
    var simpleExoPlayer: Option<Engine>
    var loadCompletionListenerPending: bool
    var firstFrameRendered: bool
    var videoWidthHeight: Option<(int, int)>
    var lastPlaybackState: Option<int>
    var isLooping: bool
    var isLoading: bool
    /** The superclass's playback intent. */
    var intent: Intent
    /** `Build.VERSION.SDK_INT >= Build.VERSION_CODES.M` */
    const sdkAtLeastM: bool
    /** The superclass's `mVideoSizeUpdateListener != null` */
    var hasVideoSizeUpdateListener: bool
    /** Whether the superclass's progress-update loop is running. */
    var progressUpdating: bool
    /** Commands issued to the engine so far. */
    var commands: seq<Command>
    /** Notifications delivered to the listeners so far. */
    var notifications: seq<Notification>

    /** The object's state as a value. */
    function Model(): State
      reads this
    {
      State(simpleExoPlayer, loadCompletionListenerPending, firstFrameRendered, videoWidthHeight,
            lastPlaybackState, isLooping, isLoading, intent, sdkAtLeastM, hasVideoSizeUpdateListener,
            progressUpdating, commands, notifications)
    }

    constructor(sdkAtLeastM: bool, hasVideoSizeUpdateListener: bool)
      ensures Model() == Initial(sdkAtLeastM, hasVideoSizeUpdateListener)
    {
      simpleExoPlayer := None;
      loadCompletionListenerPending := false;
      firstFrameRendered := false;
      videoWidthHeight := None;
      lastPlaybackState := None;
      isLooping := false;
      isLoading := true;
      intent := DefaultIntent;
      this.sdkAtLeastM := sdkAtLeastM;
      this.hasVideoSizeUpdateListener := hasVideoSizeUpdateListener;
      progressUpdating := false;
      commands := [];
      notifications := [];
    }

    /** Hands one command to the live engine. */
    method Issue(c: Command)
      requires simpleExoPlayer.Some?
      modifies this
      ensures Model() == SimpleExoPlayerModel.Issue(old(Model()), c)
    {
      simpleExoPlayer := Some(Perform(simpleExoPlayer.value, c));
      commands := commands + [c];
    }

    /** Delivers one notification to a listener. */
    method Notify(n: Notification)
      modifies this
      ensures Model() == SimpleExoPlayerModel.Notify(old(Model()), n)
    {
      notifications := notifications + [n];
    }

    // ---------------- Lifecycle ----------------

    method Load(newIntent: Intent, engine: Engine)
      modifies this
      ensures Model() == SimpleExoPlayerModel.Load(old(Model()), newIntent, engine)
    {
      loadCompletionListenerPending := true;
      simpleExoPlayer := Some(engine);
      commands := commands + [Prepare];
      intent := newIntent;
    }

    method Release()
      modifies this
      ensures Model() == SimpleExoPlayerModel.Release(old(Model()))
    {
      if simpleExoPlayer.Some? {
        commands := commands + [ReleasePlayer];
        simpleExoPlayer := None;
      }
    }

    function ShouldContinueUpdatingProgress(): (r: bool)
      reads this
      ensures r == SimpleExoPlayerModel.ShouldContinueUpdatingProgress(Model())
    {
      simpleExoPlayer.Some? && simpleExoPlayer.value.playWhenReady
    }

    // ---------------- Set status ----------------

    /** `focusGranted` is the audio focus manager's answer. */
    method PlayPlayerWithRateAndMuteIfNecessary(focusGranted: bool) returns (thrown: Thrown)
      modifies this
      ensures (Model(), thrown) == SimpleExoPlayerModel.PlayPlayerWithRateAndMuteIfNecessary(old(Model()), focusGranted)
    {
      if simpleExoPlayer.None? || !intent.shouldPlayerPlay {
        return Returned;
      }
      if !intent.isMuted && !focusGranted {
        return AudioFocusNotAcquiredException;
      }
      ghost var s0 := Model();
      UpdateVolumeMuteAndDuck();
      if sdkAtLeastM {
        Issue(SetPlaybackParams);
      }
      assert Model() == ApplyRate(SimpleExoPlayerModel.UpdateVolumeMuteAndDuck(s0));
      Issue(SetPlayWhenReady(intent.shouldPlay));
      progressUpdating := true;
      thrown := Returned;
    }

    method ApplyNewStatus(newPositionMillis: Option<int>, newIsLooping: Option<bool>, focusGranted: bool)
      returns (thrown: Thrown)
      modifies this
      ensures (Model(), thrown)
           == SimpleExoPlayerModel.ApplyNewStatus(old(Model()), newPositionMillis, newIsLooping, focusGranted)
    {
      if simpleExoPlayer.None? {
        return IllegalStateException;
      }
      ghost var s0 := Model();
      if newIsLooping.Some? {
        isLooping := newIsLooping.value;
      }
      ghost var s1 := Model();
      assert s1 == SetLoopingIfGiven(s0, newIsLooping);
      if !intent.shouldPlayerPlay {
        Issue(SetPlayWhenReady(false));
        progressUpdating := false;
      }
      ghost var s2 := Model();
      assert s2 == PauseFirstIfNecessary(s1);
      UpdateVolumeMuteAndDuck();
      ghost var s3 := Model();
      if newPositionMillis.Some? {
        Issue(SeekTo(newPositionMillis.value));
      }
      assert Model() == SeekIfRequested(s3, newPositionMillis);
      thrown := PlayPlayerWithRateAndMuteIfNecessary(focusGranted);
    }

    // ---------------- Get status ----------------

    function IsLoaded(): (r: bool)
      reads this
      ensures r == SimpleExoPlayerModel.IsLoaded(Model())
    {
      simpleExoPlayer.Some?
    }

    /** `None` when the Java method would dereference a null engine. */
    function GetExtraStatusFields(): (r: Option<ExtraStatus>)
      reads this
      ensures r == SimpleExoPlayerModel.GetExtraStatusFields(Model())
    {
      if simpleExoPlayer.None? then None
      else
        var e := simpleExoPlayer.value;
        var duration := LongToInt(e.duration);
        Some(ExtraStatus(
          duration,
          Clip(LongToInt(e.currentPosition), 0, duration),
          Clip(LongToInt(e.bufferedPosition), 0, duration),
          e.playbackState == STATE_READY && e.playWhenReady,
          e.playbackState == STATE_BUFFERING || isLoading,
          isLooping))
    }

    function GetVideoWidthHeight(): (r: (int, int))
      reads this
      ensures r == SimpleExoPlayerModel.GetVideoWidthHeight(Model())
    {
      if videoWidthHeight.Some? then videoWidthHeight.value else (0, 0)
    }

    // ---------------- Audio events ----------------

    method PauseImmediately()
      modifies this
      ensures Model() == SimpleExoPlayerModel.PauseImmediately(old(Model()))
    {
      if simpleExoPlayer.Some? {
        Issue(SetPlayWhenReady(false));
      }
      progressUpdating := false;
    }

    function RequiresAudioFocus(): (r: bool)
      reads this
      ensures r == SimpleExoPlayerModel.RequiresAudioFocus(Model())
    {
      simpleExoPlayer.Some? && (simpleExoPlayer.value.playWhenReady || intent.shouldPlayerPlay) && !intent.isMuted
    }

    method UpdateVolumeMuteAndDuck()
      modifies this
      ensures Model() == SimpleExoPlayerModel.UpdateVolumeMuteAndDuck(old(Model()))
    {
      if simpleExoPlayer.Some? {
        Issue(SetVolume);
      }
    }

    // ---------------- Engine callbacks ----------------

    method OnLoadingChanged(newIsLoading: bool)
      modifies this
      ensures Model() == SimpleExoPlayerModel.OnLoadingChanged(old(Model()), newIsLoading)
    {
      if !newIsLoading && loadCompletionListenerPending {
        loadCompletionListenerPending := false;
        Notify(LoadSuccess);
      }
      isLoading := newIsLoading;
      Notify(StatusUpdate);
    }

    /** Returns how the callback ended: it can only end with the
        `IllegalStateException` of the looping replay. */
    method OnPlayerStateChanged(playWhenReady: bool, playbackState: int, focusGranted: bool)
      returns (thrown: Thrown)
      modifies this
      ensures (Model(), thrown)
           == SimpleExoPlayerModel.OnPlayerStateChanged(old(Model()), playWhenReady, playbackState, focusGranted)
    {
      if lastPlaybackState.Some? && playbackState != lastPlaybackState.value && playbackState == STATE_ENDED {
        Notify(DidJustFinish);
        if isLooping {
          thrown := ApplyNewStatus(Some(0), None, focusGranted);
          if thrown == IllegalStateException {
            return;
          }
        }
      } else {
        Notify(StatusUpdate);
      }
      lastPlaybackState := Some(playbackState);
      thrown := Returned;
    }

    method OnTimelineChanged()
      ensures Model() == old(Model())
    {
    }

    method OnPlayerError()
      ensures Model() == old(Model())
    {
    }

    method OnPositionDiscontinuity()
      ensures Model() == old(Model())
    {
    }

    method OnLoadError(message: string)
      modifies this
      ensures Model() == SimpleExoPlayerModel.OnLoadError(old(Model()), message)
    {
      if loadCompletionListenerPending {
        loadCompletionListenerPending := false;
        Notify(LoadFailure(message));
      }
      Release();
    }

    method OnVideoSizeChanged(width: int, height: int)
      modifies this
      ensures Model() == SimpleExoPlayerModel.OnVideoSizeChanged(old(Model()), width, height)
    {
      videoWidthHeight := Some((width, height));
      if firstFrameRendered && hasVideoSizeUpdateListener {
        Notify(VideoSizeUpdate((width, height)));
      }
    }

    method OnRenderedFirstFrame()
      modifies this
      ensures Model() == SimpleExoPlayerModel.OnRenderedFirstFrame(old(Model()))
    {
      if !firstFrameRendered && videoWidthHeight.Some? && hasVideoSizeUpdateListener {
        Notify(VideoSizeUpdate(videoWidthHeight.value));
      }
      firstFrameRendered := true;
    }

    /** The superclass installing (or removing) its video-size listener. */
    method SetVideoSizeUpdateListener(present: bool)
      modifies this
      ensures Model() == Step(old(Model()), SizeListenerChanged(present))
    {
      hasVideoSizeUpdateListener := present;
    }

    method OnVideoTracksDisabled()
      ensures Model() == old(Model())
    {
    }
  }
}
