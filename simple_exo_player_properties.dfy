/** What the controller's state machine promises, proved about the
    functions of `SimpleExoPlayerModel`. */
module SimpleExoPlayerProperties {
  import opened Java
  import opened ExoPlayer
  import opened PlayerData
  import opened SimpleExoPlayerModel

  // ================= Counting in traces and command logs =================

  predicate IsLoadOutcome(n: Notification) {
    n.LoadSuccess? || n.LoadFailure?
  }

  /** Number of load-completion callbacks in a trace. */
  function LoadOutcomes(t: seq<Notification>): (n: nat) {
    if t == [] then 0
    else LoadOutcomes(t[..|t| - 1]) + (if IsLoadOutcome(t[|t| - 1]) then 1 else 0)
  }

  lemma LoadOutcomesPush(t: seq<Notification>, n: Notification)
    ensures LoadOutcomes(t + [n]) == LoadOutcomes(t) + (if IsLoadOutcome(n) then 1 else 0)
  {
    assert (t + [n])[..|t|] == t;
  }

  lemma {:induction false} LoadOutcomesAppend(a: seq<Notification>, b: seq<Notification>)
    ensures LoadOutcomes(a + b) == LoadOutcomes(a) + LoadOutcomes(b)
    decreases |b|
  {
    if b == [] {
      assert a + b == a;
    } else {
      var b' := b[..|b| - 1];
      assert a + b == (a + b') + [b[|b| - 1]];
      LoadOutcomesPush(a + b', b[|b| - 1]);
      LoadOutcomesPush(b', b[|b| - 1]);
      assert b == b' + [b[|b| - 1]];
      LoadOutcomesAppend(a, b');
    }
  }

  /** The targets of the seeks among some commands, in order. */
  function Seeks(cs: seq<Command>): (targets: seq<int>) {
    if cs == [] then []
    else Seeks(cs[..|cs| - 1]) + (if cs[|cs| - 1].SeekTo? then [cs[|cs| - 1].positionMillis] else [])
  }

  lemma SeeksPush(cs: seq<Command>, c: Command)
    ensures Seeks(cs + [c]) == Seeks(cs) + (if c.SeekTo? then [c.positionMillis] else [])
  {
    assert (cs + [c])[..|cs|] == cs;
  }

  /** 1 while a load-completion listener is stored, else 0. */
  function Pending(s: State): (n: nat) {
    if s.loadListenerPending then 1 else 0
  }

  // ================= The load callback is one-shot =================

  /** `onLoadingChanged` sets `mIsLoading`, always ends with exactly one
      status update, and fires the load success first iff loading finished
      while the listener was still stored. */
  lemma OnLoadingChangedEffects(s: State, isLoading: bool)
    ensures var r := OnLoadingChanged(s, isLoading);
      && r.isLoading == isLoading
      && r.trace == (if !isLoading && s.loadListenerPending then s.trace + [LoadSuccess] else s.trace) + [StatusUpdate]
      && r.loadListenerPending == (s.loadListenerPending && isLoading)
      && r.commands == s.commands && r.player == s.player && r.intent == s.intent
      && r.videoWidthHeight == s.videoWidthHeight
  {
  }

  /** A second "loading finished" report fires no second load callback. */
  lemma SecondLoadingFinishedFiresNothing(s: State)
    ensures var s1 := OnLoadingChanged(s, false);
      OnLoadingChanged(s1, false).trace == s1.trace + [StatusUpdate]
  {
  }

  /** `onLoadError` fires the pending listener with the message, clears it,
      and always ends in `release`. */
  lemma OnLoadErrorEffects(s: State, message: string)
    ensures var r := OnLoadError(s, message);
      && !IsLoaded(r) && !r.loadListenerPending
      && r.trace == (if s.loadListenerPending then s.trace + [LoadFailure(message)] else s.trace)
      && r.commands == (if IsLoaded(s) then s.commands + [ReleasePlayer] else s.commands)
      && r.videoWidthHeight == s.videoWidthHeight
  {
  }

  /** After `load`, whatever the engine and the consumer do next, the load
      callback fires at most once, success or error; once it has fired the
      listener is gone. */
  lemma LoadCompletionFiresAtMostOnce(s: State, intent: Intent, engine: Engine, inputs: seq<Input>)
    ensures var r := Run(Load(s, intent, engine), inputs);
      s.trace <= r.trace && LoadOutcomes(r.trace[|s.trace|..]) + Pending(r) <= 1
  {
    var s0 := Load(s, intent, engine);
    var r := Run(s0, inputs);
    RunPreserves(s0, inputs);
    assert r.trace == s.trace + r.trace[|s.trace|..];
    LoadOutcomesAppend(s.trace, r.trace[|s.trace|..]);
  }

  // ================= Lifecycle =================

  /** `load` stores the listener, has a prepared engine and records the
      requested status. */
  lemma LoadEffects(s: State, intent: Intent, engine: Engine)
    ensures var r := Load(s, intent, engine);
      && IsLoaded(r) && r.player == Some(engine) && r.loadListenerPending && r.intent == intent
      && r.commands == s.commands + [Prepare] && r.trace == s.trace
  {
  }

  /** `release` leaves no engine, issues the engine's release only when
      there was one, and a second release changes nothing. It does not
      clear a stored load listener. */
  lemma ReleaseEffects(s: State)
    ensures !IsLoaded(Release(s))
    ensures Release(s).commands == (if IsLoaded(s) then s.commands + [ReleasePlayer] else s.commands)
    ensures Release(Release(s)) == Release(s)
    ensures Release(s).trace == s.trace
    ensures Release(s).loadListenerPending == s.loadListenerPending
  {
  }

  /** What `release` never touches. */
  lemma ReleaseFrame(s: State)
    ensures var r := Release(s);
      CallbackFieldsUnchanged(s, r) && r.isLooping == s.isLooping && r.progressUpdating == s.progressUpdating
  {
    if IsLoaded(s) {
      assert Release(s) == s.(player := None, commands := s.commands + [ReleasePlayer]);
    } else {
      assert Release(s) == s;
    }
  }

  /** Because `release` leaves the listener in place, a "loading finished"
      report after an early release still fires the load success. */
  lemma ReleasedBeforeLoadedStillFiresSuccess(s: State, intent: Intent, engine: Engine)
    ensures var r := OnLoadingChanged(Release(Load(s, intent, engine)), false);
      !IsLoaded(r) && r.trace == s.trace + [LoadSuccess] + [StatusUpdate]
  {
  }

  // ================= applyNewStatus, play and pause =================

  /** The fields that only `load` and the engine callbacks write. */
  predicate CallbackFieldsUnchanged(s: State, r: State) {
    && r.trace == s.trace && r.loadListenerPending == s.loadListenerPending
    && r.lastPlaybackState == s.lastPlaybackState && r.firstFrameRendered == s.firstFrameRendered
    && r.videoWidthHeight == s.videoWidthHeight && r.isLoading == s.isLoading
    && r.intent == s.intent && r.sdkAtLeastM == s.sdkAtLeastM && r.hasSizeListener == s.hasSizeListener
  }

  /** Issuing a command only appends it to the log and hands it to the
      engine. */
  lemma IssueFrame(s: State, c: Command)
    requires IsLoaded(s)
    ensures var r := Issue(s, c);
      && CallbackFieldsUnchanged(s, r) && r.isLooping == s.isLooping && IsLoaded(r)
      && r.commands == s.commands + [c] && r.progressUpdating == s.progressUpdating
      && r.player.value.playWhenReady == (if c.SetPlayWhenReady? then c.playWhenReady else s.player.value.playWhenReady)
      && Seeks(r.commands) == Seeks(s.commands) + (if c.SeekTo? then [c.positionMillis] else [])
  {
    SeeksPush(s.commands, c);
  }

  /** The playing branch issues volume, maybe rate, and last the play
      command that follows `mShouldPlay`; it never seeks. */
  lemma StartPlaybackEffects(s: State)
    requires IsLoaded(s)
    ensures var r := StartPlayback(s);
      && CallbackFieldsUnchanged(s, r) && r.isLooping == s.isLooping && IsLoaded(r)
      && |r.commands| > |s.commands|
      && r.commands[|r.commands| - 1] == SetPlayWhenReady(s.intent.shouldPlay)
      && Seeks(r.commands) == Seeks(s.commands)
      && r.player.value.playWhenReady == s.intent.shouldPlay && r.progressUpdating
  {
    var s1 := Issue(s, SetVolume);
    IssueFrame(s, SetVolume);
    assert UpdateVolumeMuteAndDuck(s) == s1;
    var s2 := s1;
    if s.sdkAtLeastM {
      s2 := Issue(s1, SetPlaybackParams);
      IssueFrame(s1, SetPlaybackParams);
    }
    assert ApplyRate(s1) == s2;
    var c := SetPlayWhenReady(s.intent.shouldPlay);
    IssueFrame(s2, c);
    assert StartPlayback(s) == Issue(s2, c).(progressUpdating := true);
  }

  /** What `playPlayerWithRateAndMuteIfNecessary` never touches. */
  lemma PlayFrame(s: State, focusGranted: bool)
    ensures var r := PlayPlayerWithRateAndMuteIfNecessary(s, focusGranted).0;
      CallbackFieldsUnchanged(s, r) && r.isLooping == s.isLooping && IsLoaded(r) == IsLoaded(s)
  {
    var r := PlayPlayerWithRateAndMuteIfNecessary(s, focusGranted).0;
    if IsLoaded(s) && s.intent.shouldPlayerPlay && (s.intent.isMuted || focusGranted) {
      assert r == StartPlayback(s);
      StartPlaybackEffects(s);
    } else {
      assert r == s;
    }
  }

  /** `playPlayerWithRateAndMuteIfNecessary`: nothing without an engine or
      when the player should not play; an unmuted play without focus throws
      before any command; otherwise it issues no seek, its last command
      starts (or keeps) playback as `mShouldPlay` says, and progress
      updates begin. */
  lemma PlayEffects(s: State, focusGranted: bool)
    ensures var res := PlayPlayerWithRateAndMuteIfNecessary(s, focusGranted); var r, thrown := res.0, res.1;
      && thrown != IllegalStateException
      && (!IsLoaded(s) || !s.intent.shouldPlayerPlay ==> r == s && thrown == Returned)
      && (IsLoaded(s) && s.intent.shouldPlayerPlay && !s.intent.isMuted && !focusGranted ==>
            r == s && thrown == AudioFocusNotAcquiredException)
      && (IsLoaded(s) && s.intent.shouldPlayerPlay && (s.intent.isMuted || focusGranted) ==>
            && thrown == Returned
            && |r.commands| > |s.commands|
            && r.commands[|r.commands| - 1] == SetPlayWhenReady(s.intent.shouldPlay)
            && Seeks(r.commands) == Seeks(s.commands)
            && (ShouldContinueUpdatingProgress(r) <==> s.intent.shouldPlay)
            && r.progressUpdating)
  {
    var res := PlayPlayerWithRateAndMuteIfNecessary(s, focusGranted);
    if !IsLoaded(s) || !s.intent.shouldPlayerPlay {
      assert res == (s, Returned);
    } else if !s.intent.isMuted && !focusGranted {
      assert res == (s, AudioFocusNotAcquiredException);
    } else {
      assert res == (StartPlayback(s), Returned);
      StartPlaybackEffects(s);
    }
  }

  /** An audio focus refusal only matters when the controller reports that
      it requires audio focus. */
  lemma FocusRefusedOnlyWhenRequired(s: State)
    requires PlayPlayerWithRateAndMuteIfNecessary(s, false).1 == AudioFocusNotAcquiredException
    ensures RequiresAudioFocus(s)
  {
  }

  /** The state `applyNewStatus` hands to its final play step. */
  function BeforePlay(s: State, newPositionMillis: Option<int>, newIsLooping: Option<bool>): (r: State)
    requires IsLoaded(s)
    ensures IsLoaded(r) && r.intent == s.intent
  {
    SeekIfRequested(UpdateVolumeMuteAndDuck(PauseFirstIfNecessary(SetLoopingIfGiven(s, newIsLooping))),
                    newPositionMillis)
  }

  /** Setting the looping flag touches nothing else. */
  lemma SetLoopingEffects(s: State, newIsLooping: Option<bool>)
    ensures var r := SetLoopingIfGiven(s, newIsLooping);
      && CallbackFieldsUnchanged(s, r) && r.commands == s.commands && r.player == s.player
      && r.progressUpdating == s.progressUpdating
  {
    if newIsLooping.Some? {
      assert SetLoopingIfGiven(s, newIsLooping) == s.(isLooping := newIsLooping.value);
    } else {
      assert SetLoopingIfGiven(s, newIsLooping) == s;
    }
  }

  /** The "pause first" step pauses iff the player should not play. */
  lemma PauseFirstEffects(s: State)
    requires IsLoaded(s)
    ensures var r := PauseFirstIfNecessary(s);
      && CallbackFieldsUnchanged(s, r) && r.isLooping == s.isLooping
      && r.commands == s.commands + (if s.intent.shouldPlayerPlay then [] else [SetPlayWhenReady(false)])
      && Seeks(r.commands) == Seeks(s.commands)
      && (!s.intent.shouldPlayerPlay ==> !r.player.value.playWhenReady && !r.progressUpdating)
      && (s.intent.shouldPlayerPlay ==> r == s)
  {
    if s.intent.shouldPlayerPlay {
      assert s.commands + [] == s.commands;
    } else {
      SeeksPush(s.commands, SetPlayWhenReady(false));
    }
  }

  /** The volume and seek steps: one volume command, then one seek iff a
      position is given. */
  lemma VolumeAndSeekEffects(s: State, newPositionMillis: Option<int>)
    requires IsLoaded(s)
    ensures var r := SeekIfRequested(UpdateVolumeMuteAndDuck(s), newPositionMillis);
      && CallbackFieldsUnchanged(s, r) && r.isLooping == s.isLooping
      && r.commands == s.commands + [SetVolume] + (if newPositionMillis.Some? then [SeekTo(newPositionMillis.value)] else [])
      && Seeks(r.commands) == Seeks(s.commands) + (if newPositionMillis.Some? then [newPositionMillis.value] else [])
      && r.player.value.playWhenReady == s.player.value.playWhenReady && r.progressUpdating == s.progressUpdating
  {
    var s1 := UpdateVolumeMuteAndDuck(s);
    SeeksPush(s.commands, SetVolume);
    if newPositionMillis.Some? {
      SeeksPush(s1.commands, SeekTo(newPositionMillis.value));
    } else {
      assert s1.commands + [] == s1.commands;
    }
  }

  /** The commands `applyNewStatus` issues before its play step: a pause iff
      the player should not play, one volume command, and a seek iff a
      position is given. */
  lemma BeforePlayCommands(s: State, newPositionMillis: Option<int>, newIsLooping: Option<bool>)
    requires IsLoaded(s)
    ensures var r := BeforePlay(s, newPositionMillis, newIsLooping);
      && CallbackFieldsUnchanged(s, r)
      && r.isLooping == newIsLooping.GetOr(s.isLooping)
      && r.commands == s.commands + (if s.intent.shouldPlayerPlay then [] else [SetPlayWhenReady(false)])
                       + [SetVolume] + (if newPositionMillis.Some? then [SeekTo(newPositionMillis.value)] else [])
      && Seeks(r.commands) == Seeks(s.commands) + (if newPositionMillis.Some? then [newPositionMillis.value] else [])
      && (!s.intent.shouldPlayerPlay ==> !r.player.value.playWhenReady && !r.progressUpdating)
  {
    var s1 := SetLoopingIfGiven(s, newIsLooping);
    SetLoopingEffects(s, newIsLooping);
    PauseFirstEffects(s1);
    VolumeAndSeekEffects(PauseFirstIfNecessary(s1), newPositionMillis);
  }

  /** Up to its play step, `applyNewStatus` updates looping only when asked,
      pauses first when the player should not play, and then seeks exactly
      once iff a position is given. */
  lemma BeforePlayEffects(s: State, newPositionMillis: Option<int>, newIsLooping: Option<bool>)
    requires IsLoaded(s)
    ensures var r := BeforePlay(s, newPositionMillis, newIsLooping);
      && CallbackFieldsUnchanged(s, r)
      && r.isLooping == newIsLooping.GetOr(s.isLooping)
      && Seeks(r.commands) == Seeks(s.commands) + (if newPositionMillis.Some? then [newPositionMillis.value] else [])
      && |r.commands| > |s.commands|
      && (!s.intent.shouldPlayerPlay ==>
            r.commands[|s.commands|] == SetPlayWhenReady(false) && !r.player.value.playWhenReady && !r.progressUpdating)
      && (s.intent.shouldPlayerPlay ==>
            forall k :: |s.commands| <= k < |r.commands| ==> !r.commands[k].SetPlayWhenReady?)
  {
    BeforePlayCommands(s, newPositionMillis, newIsLooping);
    PauseComesFirst(s.commands, BeforePlay(s, newPositionMillis, newIsLooping).commands,
                    s.intent.shouldPlayerPlay, newPositionMillis);
  }

  /** In the command sequence `applyNewStatus` builds before playing, the
      pause (when there is one) is the first new command, and otherwise no
      new command changes `playWhenReady`. */
  lemma PauseComesFirst(cs: seq<Command>, rs: seq<Command>, shouldPlayerPlay: bool, newPositionMillis: Option<int>)
    requires rs == cs + (if shouldPlayerPlay then [] else [SetPlayWhenReady(false)])
                  + [SetVolume] + (if newPositionMillis.Some? then [SeekTo(newPositionMillis.value)] else [])
    ensures |rs| > |cs|
    ensures !shouldPlayerPlay ==> rs[|cs|] == SetPlayWhenReady(false)
    ensures shouldPlayerPlay ==> forall k :: |cs| <= k < |rs| ==> !rs[k].SetPlayWhenReady?
  {
    var tail := [SetVolume] + (if newPositionMillis.Some? then [SeekTo(newPositionMillis.value)] else []);
    if shouldPlayerPlay {
      assert rs == cs + tail;
      forall k | |cs| <= k < |rs| ensures !rs[k].SetPlayWhenReady? {
        assert rs[k] == tail[k - |cs|];
      }
    }
  }

  /** What `applyNewStatus` never touches. */
  lemma ApplyNewStatusFrame(s: State, newPositionMillis: Option<int>, newIsLooping: Option<bool>, focusGranted: bool)
    ensures var r := ApplyNewStatus(s, newPositionMillis, newIsLooping, focusGranted).0;
      CallbackFieldsUnchanged(s, r) && IsLoaded(r) == IsLoaded(s)
  {
    if IsLoaded(s) {
      var s4 := BeforePlay(s, newPositionMillis, newIsLooping);
      BeforePlayEffects(s, newPositionMillis, newIsLooping);
      PlayFrame(s4, focusGranted);
      assert ApplyNewStatus(s, newPositionMillis, newIsLooping, focusGranted)
          == PlayPlayerWithRateAndMuteIfNecessary(s4, focusGranted);
    }
  }

  /** `applyNewStatus` with no engine throws and changes nothing. */
  lemma ApplyNewStatusWithoutPlayer(s: State, newPositionMillis: Option<int>, newIsLooping: Option<bool>,
                                    focusGranted: bool)
    requires !IsLoaded(s)
    ensures ApplyNewStatus(s, newPositionMillis, newIsLooping, focusGranted) == (s, IllegalStateException)
  {
  }

  /** `applyNewStatus` on a loaded controller: looping changes only when
      asked; a seek is issued exactly once iff a position is given; when the
      player should not play, the first command issued pauses (so it comes
      before any seek) and the call succeeds; it throws only on an audio
      focus refusal for unmuted play, and then no play command is issued;
      otherwise its last command is the play command. */
  lemma ApplyNewStatusEffects(s: State, newPositionMillis: Option<int>, newIsLooping: Option<bool>,
                              focusGranted: bool)
    requires IsLoaded(s)
    ensures var (r, thrown) := ApplyNewStatus(s, newPositionMillis, newIsLooping, focusGranted);
      && IsLoaded(r)
      && r.isLooping == newIsLooping.GetOr(s.isLooping)
      && Seeks(r.commands) == Seeks(s.commands) + (if newPositionMillis.Some? then [newPositionMillis.value] else [])
      && |r.commands| > |s.commands|
      && (!s.intent.shouldPlayerPlay ==>
            && thrown == Returned
            && r.commands[|s.commands|] == SetPlayWhenReady(false)
            && !ShouldContinueUpdatingProgress(r) && !r.progressUpdating)
      && (thrown == AudioFocusNotAcquiredException <==>
            s.intent.shouldPlayerPlay && !s.intent.isMuted && !focusGranted)
      && thrown != IllegalStateException
      && (thrown == AudioFocusNotAcquiredException ==>
            forall k :: |s.commands| <= k < |r.commands| ==> !r.commands[k].SetPlayWhenReady?)
      && (thrown == Returned && s.intent.shouldPlayerPlay ==>
            && r.commands[|r.commands| - 1] == SetPlayWhenReady(s.intent.shouldPlay)
            && (ShouldContinueUpdatingProgress(r) <==> s.intent.shouldPlay))
  {
    if !s.intent.shouldPlayerPlay {
      ApplyNewStatusPausing(s, newPositionMillis, newIsLooping, focusGranted);
    } else if !s.intent.isMuted && !focusGranted {
      ApplyNewStatusFocusRefused(s, newPositionMillis, newIsLooping);
    } else {
      ApplyNewStatusPlaying(s, newPositionMillis, newIsLooping, focusGranted);
    }
  }

  /** `applyNewStatus` when the player should not play: it pauses first and
      returns normally. */
  lemma ApplyNewStatusPausing(s: State, newPositionMillis: Option<int>, newIsLooping: Option<bool>,
                              focusGranted: bool)
    requires IsLoaded(s) && !s.intent.shouldPlayerPlay
    ensures var (r, thrown) := ApplyNewStatus(s, newPositionMillis, newIsLooping, focusGranted);
      && thrown == Returned && IsLoaded(r)
      && r.isLooping == newIsLooping.GetOr(s.isLooping)
      && Seeks(r.commands) == Seeks(s.commands) + (if newPositionMillis.Some? then [newPositionMillis.value] else [])
      && |r.commands| > |s.commands|
      && r.commands[|s.commands|] == SetPlayWhenReady(false)
      && !ShouldContinueUpdatingProgress(r) && !r.progressUpdating
  {
    ApplyNewStatusThenPlay(s, newPositionMillis, newIsLooping, focusGranted);
    BeforePlayEffects(s, newPositionMillis, newIsLooping);
  }

  /** `applyNewStatus` when unmuted play is refused focus: it throws after
      the seek, and issues no play-when-ready command. */
  lemma ApplyNewStatusFocusRefused(s: State, newPositionMillis: Option<int>, newIsLooping: Option<bool>)
    requires IsLoaded(s) && s.intent.shouldPlayerPlay && !s.intent.isMuted
    ensures var (r, thrown) := ApplyNewStatus(s, newPositionMillis, newIsLooping, false);
      && thrown == AudioFocusNotAcquiredException && IsLoaded(r)
      && r.isLooping == newIsLooping.GetOr(s.isLooping)
      && Seeks(r.commands) == Seeks(s.commands) + (if newPositionMillis.Some? then [newPositionMillis.value] else [])
      && |r.commands| > |s.commands|
      && forall k :: |s.commands| <= k < |r.commands| ==> !r.commands[k].SetPlayWhenReady?
  {
    ApplyNewStatusThenPlay(s, newPositionMillis, newIsLooping, false);
    BeforePlayEffects(s, newPositionMillis, newIsLooping);
  }

  /** `applyNewStatus` when the player may play: its last command is the
      play command and progress follows `mShouldPlay`. */
  lemma ApplyNewStatusPlaying(s: State, newPositionMillis: Option<int>, newIsLooping: Option<bool>,
                              focusGranted: bool)
    requires IsLoaded(s) && s.intent.shouldPlayerPlay && (s.intent.isMuted || focusGranted)
    ensures var (r, thrown) := ApplyNewStatus(s, newPositionMillis, newIsLooping, focusGranted);
      && thrown == Returned && IsLoaded(r)
      && r.isLooping == newIsLooping.GetOr(s.isLooping)
      && Seeks(r.commands) == Seeks(s.commands) + (if newPositionMillis.Some? then [newPositionMillis.value] else [])
      && |r.commands| > |s.commands|
      && r.commands[|r.commands| - 1] == SetPlayWhenReady(s.intent.shouldPlay)
      && (ShouldContinueUpdatingProgress(r) <==> s.intent.shouldPlay)
  {
    ApplyNewStatusThenPlay(s, newPositionMillis, newIsLooping, focusGranted);
    BeforePlayEffects(s, newPositionMillis, newIsLooping);
    PlayInPlayingBranch(BeforePlay(s, newPositionMillis, newIsLooping), focusGranted);
  }

  /** On a loaded controller, `applyNewStatus` is its preparation steps
      followed by the play step. With no play, the prepared state is the
      result. */
  lemma ApplyNewStatusThenPlay(s: State, newPositionMillis: Option<int>, newIsLooping: Option<bool>,
                               focusGranted: bool)
    requires IsLoaded(s)
    ensures var s4 := BeforePlay(s, newPositionMillis, newIsLooping);
      && ApplyNewStatus(s, newPositionMillis, newIsLooping, focusGranted)
           == PlayPlayerWithRateAndMuteIfNecessary(s4, focusGranted)
      && (!s.intent.shouldPlayerPlay ==> ApplyNewStatus(s, newPositionMillis, newIsLooping, focusGranted) == (s4, Returned))
      && (s.intent.shouldPlayerPlay && !s.intent.isMuted && !focusGranted ==>
            ApplyNewStatus(s, newPositionMillis, newIsLooping, focusGranted) == (s4, AudioFocusNotAcquiredException))
  {
  }

  /** The play step when it goes ahead. */
  lemma PlayInPlayingBranch(s: State, focusGranted: bool)
    requires IsLoaded(s) && s.intent.shouldPlayerPlay && (s.intent.isMuted || focusGranted)
    ensures PlayPlayerWithRateAndMuteIfNecessary(s, focusGranted) == (StartPlayback(s), Returned)
    ensures var r := StartPlayback(s);
      && IsLoaded(r) && r.isLooping == s.isLooping
      && |r.commands| > |s.commands|
      && r.commands[|r.commands| - 1] == SetPlayWhenReady(s.intent.shouldPlay)
      && Seeks(r.commands) == Seeks(s.commands)
      && (ShouldContinueUpdatingProgress(r) <==> s.intent.shouldPlay)
  {
    StartPlaybackEffects(s);
  }

  /** `pauseImmediately` stops the engine and progress updates without
      touching the consumer's intent. */
  lemma PauseImmediatelyEffects(s: State)
    ensures var r := PauseImmediately(s);
      && !ShouldContinueUpdatingProgress(r) && !r.progressUpdating
      && r.intent == s.intent && IsLoaded(r) == IsLoaded(s)
      && r.commands == (if IsLoaded(s) then s.commands + [SetPlayWhenReady(false)] else s.commands)
      && r.trace == s.trace
  {
  }

  /** What `pauseImmediately` never touches. */
  lemma PauseImmediatelyFrame(s: State)
    ensures var r := PauseImmediately(s);
      CallbackFieldsUnchanged(s, r) && r.isLooping == s.isLooping
  {
    if IsLoaded(s) {
      IssueFrame(s, SetPlayWhenReady(false));
      assert PauseImmediately(s) == Issue(s, SetPlayWhenReady(false)).(progressUpdating := false);
    } else {
      assert PauseImmediately(s) == s.(progressUpdating := false);
    }
  }

  /** Since the intent survives a pause, playing again with the same intent
      resumes playback. */
  lemma PauseThenPlayResumes(s: State, focusGranted: bool)
    requires IsLoaded(s) && s.intent.shouldPlay && s.intent.shouldPlayerPlay
    requires s.intent.isMuted || focusGranted
    ensures var (r, thrown) := PlayPlayerWithRateAndMuteIfNecessary(PauseImmediately(s), focusGranted);
      thrown == Returned && ShouldContinueUpdatingProgress(r) && r.progressUpdating
  {
    PauseImmediatelyEffects(s);
    PlayEffects(PauseImmediately(s), focusGranted);
  }

  // ================= End of media and looping =================

  /** The condition of the end-of-media test: a known previous state, a
      change, and the new state is ENDED. */
  predicate EntersEnded(s: State, playbackState: int) {
    s.lastPlaybackState.Some? && playbackState != s.lastPlaybackState.value && playbackState == STATE_ENDED
  }

  /** The three outcomes of `onPlayerStateChanged`, one per branch. */
  lemma PlayerStateChangedCases(s: State, playWhenReady: bool, playbackState: int, focusGranted: bool)
    ensures var res := OnPlayerStateChanged(s, playWhenReady, playbackState, focusGranted);
      && (!EntersEnded(s, playbackState) ==>
            res == (Notify(s, StatusUpdate).(lastPlaybackState := Some(playbackState)), Returned))
      && (EntersEnded(s, playbackState) && !s.isLooping ==>
            res == (Notify(s, DidJustFinish).(lastPlaybackState := Some(playbackState)), Returned))
      && (EntersEnded(s, playbackState) && s.isLooping ==>
            var replay := ApplyNewStatus(Notify(s, DidJustFinish), Some(0), None, focusGranted);
            res == if replay.1 == IllegalStateException then replay
                   else (replay.0.(lastPlaybackState := Some(playbackState)), Returned))
  {
  }

  /** `onPlayerStateChanged` emits exactly one notification: "did just
      finish" iff it sees a transition into ENDED, a plain status update
      otherwise; it keeps the listener, the intent and the first-frame
      flag. */
  lemma PlayerStateChangedTrace(s: State, playWhenReady: bool, playbackState: int, focusGranted: bool)
    ensures var r := OnPlayerStateChanged(s, playWhenReady, playbackState, focusGranted).0;
      && r.trace == s.trace + [if EntersEnded(s, playbackState) then DidJustFinish else StatusUpdate]
      && r.loadListenerPending == s.loadListenerPending && r.intent == s.intent
      && r.firstFrameRendered == s.firstFrameRendered
      && r.videoWidthHeight == s.videoWidthHeight && IsLoaded(r) == IsLoaded(s)
  {
    PlayerStateChangedCases(s, playWhenReady, playbackState, focusGranted);
    if EntersEnded(s, playbackState) && s.isLooping {
      ApplyNewStatusFrame(Notify(s, DidJustFinish), Some(0), None, focusGranted);
    }
  }

  /** `onPlayerStateChanged` records the new state, except when the
      looping replay found no engine: that is the one way it throws, and
      then only "did just finish" was emitted. */
  lemma PlayerStateChangedOutcome(s: State, playWhenReady: bool, playbackState: int, focusGranted: bool)
    ensures var (r, thrown) := OnPlayerStateChanged(s, playWhenReady, playbackState, focusGranted);
      && (thrown == IllegalStateException <==> EntersEnded(s, playbackState) && s.isLooping && !IsLoaded(s))
      && (thrown == IllegalStateException ==> r == Notify(s, DidJustFinish))
      && (thrown == Returned ==> r.lastPlaybackState == Some(playbackState))
      && thrown != AudioFocusNotAcquiredException
  {
    if EntersEnded(s, playbackState) && s.isLooping && IsLoaded(s) {
      ApplyNewStatusEffects(Notify(s, DidJustFinish), Some(0), None, focusGranted);
    }
  }

  /** The very first state callback never reports the end of the media. */
  lemma FirstStateCallbackNeverFinishes(s: State, playWhenReady: bool, playbackState: int, focusGranted: bool)
    requires s.lastPlaybackState.None?
    ensures var (r, thrown) := OnPlayerStateChanged(s, playWhenReady, playbackState, focusGranted);
      r.trace == s.trace + [StatusUpdate] && thrown == Returned && r.lastPlaybackState == Some(playbackState)
  {
  }

  /** A repeated ENDED report does not report the end a second time. */
  lemma RepeatedEndedDoesNotRefire(s: State, pwr1: bool, f1: bool, pwr2: bool, f2: bool)
    requires OnPlayerStateChanged(s, pwr1, STATE_ENDED, f1).1 == Returned
    ensures var s1 := OnPlayerStateChanged(s, pwr1, STATE_ENDED, f1).0;
      OnPlayerStateChanged(s1, pwr2, STATE_ENDED, f2).0.trace == s1.trace + [StatusUpdate]
  {
    PlayerStateChangedOutcome(s, pwr1, STATE_ENDED, f1);
  }

  /** With looping on, reaching the end seeks to 0 exactly once, through
      `applyNewStatus(0, null)`, and a focus refusal there does not escape;
      when the replay may play, it ends by re-issuing the play command. */
  lemma LoopingRestartsAtEnd(s: State, playWhenReady: bool, focusGranted: bool)
    requires EntersEnded(s, STATE_ENDED) && s.isLooping && IsLoaded(s)
    ensures var (r, thrown) := OnPlayerStateChanged(s, playWhenReady, STATE_ENDED, focusGranted);
      && thrown == Returned
      && r.trace == s.trace + [DidJustFinish]
      && Seeks(r.commands) == Seeks(s.commands) + [0]
      && (s.intent.shouldPlayerPlay && (s.intent.isMuted || focusGranted) ==>
            r.commands[|r.commands| - 1] == SetPlayWhenReady(s.intent.shouldPlay))
  {
    ApplyNewStatusEffects(Notify(s, DidJustFinish), Some(0), None, focusGranted);
    PlayerStateChangedTrace(s, playWhenReady, STATE_ENDED, focusGranted);
  }

  /** With looping off, a state callback issues no command at all. */
  lemma NoLoopingNoCommands(s: State, playWhenReady: bool, playbackState: int, focusGranted: bool)
    requires !s.isLooping
    ensures var (r, thrown) := OnPlayerStateChanged(s, playWhenReady, playbackState, focusGranted);
      r.commands == s.commands && thrown == Returned
  {
    PlayerStateChangedCases(s, playWhenReady, playbackState, focusGranted);
  }

  // ================= Video geometry =================

  /** `onVideoSizeChanged` stores the size and reports it only once the
      first frame has been rendered. */
  lemma VideoSizeChangedEffects(s: State, width: int, height: int)
    ensures var r := OnVideoSizeChanged(s, width, height);
      && GetVideoWidthHeight(r) == (width, height)
      && r.trace == (if s.firstFrameRendered && s.hasSizeListener then s.trace + [VideoSizeUpdate((width, height))] else s.trace)
      && r.firstFrameRendered == s.firstFrameRendered
  {
  }

  /** `onRenderedFirstFrame` reports the stored size on its first call only,
      and only if a size is known. */
  lemma RenderedFirstFrameEffects(s: State)
    ensures var r := OnRenderedFirstFrame(s);
      && r.firstFrameRendered
      && r.trace == (if !s.firstFrameRendered && s.videoWidthHeight.Some? && s.hasSizeListener
                     then s.trace + [VideoSizeUpdate(s.videoWidthHeight.value)] else s.trace)
      && r.videoWidthHeight == s.videoWidthHeight
  {
  }

  /** A size known before the first frame is reported exactly once, when
      that frame is rendered. */
  lemma SizeBeforeFirstFrameReportedOnce(s: State, width: int, height: int)
    requires !s.firstFrameRendered && s.hasSizeListener
    ensures var s1 := OnVideoSizeChanged(s, width, height);
      var s2 := OnRenderedFirstFrame(s1);
      var s3 := OnRenderedFirstFrame(s2);
      s1.trace == s.trace && s2.trace == s.trace + [VideoSizeUpdate((width, height))] && s3.trace == s2.trace
  {
  }

  /** No notification of `t` from index `from` on reports geometry. */
  predicate NoSizeUpdatesFrom(t: seq<Notification>, from: nat) {
    forall k :: from <= k < |t| ==> !t[k].VideoSizeUpdate?
  }

  /** Over any sequence of inputs, geometry is never reported while the
      first frame has not been rendered. */
  lemma NoSizeReportedBeforeFirstFrame(s: State, inputs: seq<Input>)
    requires !Run(s, inputs).firstFrameRendered
    ensures NoSizeUpdatesFrom(Run(s, inputs).trace, |s.trace|)
  {
    RunPreserves(s, inputs);
  }

  // ================= What every input preserves =================

  /** What going from `s` to `r` by inputs keeps: the trace only grows;
      "load callbacks fired + listener still stored" never grows; a
      rendered first frame stays rendered; and while the first frame is
      not rendered, no geometry is reported. */
  predicate Preserved(s: State, r: State) {
    && s.trace <= r.trace
    && LoadOutcomes(r.trace) + Pending(r) <= LoadOutcomes(s.trace) + Pending(s)
    && (s.firstFrameRendered ==> r.firstFrameRendered)
    && (!r.firstFrameRendered ==> NoSizeUpdatesFrom(r.trace, |s.trace|))
  }

  lemma PreservedTransitive(a: State, b: State, c: State)
    requires Preserved(a, b) && Preserved(b, c)
    ensures Preserved(a, c)
  {
    if !c.firstFrameRendered {
      forall k | |a.trace| <= k < |c.trace| ensures !c.trace[k].VideoSizeUpdate? {
        if k < |b.trace| {
          assert c.trace[k] == b.trace[k];
        }
      }
    }
  }

  /** A step that leaves the trace, the listener and the first-frame flag
      alone. */
  lemma QuietPreserves(s: State, r: State)
    requires r.trace == s.trace && r.loadListenerPending == s.loadListenerPending
    requires r.firstFrameRendered == s.firstFrameRendered
    ensures Preserved(s, r)
  {
  }

  lemma LoadingChangedPreserves(s: State, isLoading: bool)
    ensures Preserved(s, OnLoadingChanged(s, isLoading))
  {
    var r := OnLoadingChanged(s, isLoading);
    if !isLoading && s.loadListenerPending {
      assert r.trace == s.trace + [LoadSuccess] + [StatusUpdate] && !r.loadListenerPending;
      LoadOutcomesPush(s.trace, LoadSuccess);
      LoadOutcomesPush(s.trace + [LoadSuccess], StatusUpdate);
    } else {
      assert r.trace == s.trace + [StatusUpdate] && r.loadListenerPending == s.loadListenerPending;
      LoadOutcomesPush(s.trace, StatusUpdate);
    }
    assert r.firstFrameRendered == s.firstFrameRendered;
  }

  lemma PlayerStateChangedPreserves(s: State, playWhenReady: bool, playbackState: int, focusGranted: bool)
    ensures Preserved(s, OnPlayerStateChanged(s, playWhenReady, playbackState, focusGranted).0)
  {
    PlayerStateChangedTrace(s, playWhenReady, playbackState, focusGranted);
    LoadOutcomesPush(s.trace, if EntersEnded(s, playbackState) then DidJustFinish else StatusUpdate);
  }

  lemma LoadErrorPreserves(s: State, message: string)
    ensures Preserved(s, OnLoadError(s, message))
  {
    var r := OnLoadError(s, message);
    if s.loadListenerPending {
      var s1 := Notify(s.(loadListenerPending := false), LoadFailure(message));
      ReleaseFrame(s1);
      assert r == Release(s1);
      LoadOutcomesPush(s.trace, LoadFailure(message));
    } else {
      ReleaseFrame(s);
      assert r == Release(s);
    }
  }

  lemma VideoSizeChangedPreserves(s: State, width: int, height: int)
    ensures Preserved(s, OnVideoSizeChanged(s, width, height))
  {
    if s.firstFrameRendered && s.hasSizeListener {
      LoadOutcomesPush(s.trace, VideoSizeUpdate((width, height)));
    }
  }

  lemma RenderedFirstFramePreserves(s: State)
    ensures Preserved(s, OnRenderedFirstFrame(s))
  {
    if !s.firstFrameRendered && s.videoWidthHeight.Some? && s.hasSizeListener {
      var n := VideoSizeUpdate(s.videoWidthHeight.value);
      LoadOutcomesPush(s.trace, n);
      assert OnRenderedFirstFrame(s) == Notify(s, n).(firstFrameRendered := true);
    } else {
      assert OnRenderedFirstFrame(s) == s.(firstFrameRendered := true);
    }
  }

  /** The consumer's commands and the environment's changes emit nothing. */
  lemma NewStatusPreserves(s: State, newPositionMillis: Option<int>, newIsLooping: Option<bool>, focusGranted: bool)
    ensures Preserved(s, ApplyNewStatus(s, newPositionMillis, newIsLooping, focusGranted).0)
  {
    ApplyNewStatusFrame(s, newPositionMillis, newIsLooping, focusGranted);
    QuietPreserves(s, ApplyNewStatus(s, newPositionMillis, newIsLooping, focusGranted).0);
  }

  lemma PlayPreserves(s: State, focusGranted: bool)
    ensures Preserved(s, PlayPlayerWithRateAndMuteIfNecessary(s, focusGranted).0)
  {
    PlayFrame(s, focusGranted);
    QuietPreserves(s, PlayPlayerWithRateAndMuteIfNecessary(s, focusGranted).0);
  }

  lemma PausePreserves(s: State)
    ensures Preserved(s, PauseImmediately(s))
  {
    PauseImmediatelyFrame(s);
    QuietPreserves(s, PauseImmediately(s));
  }

  lemma ReleasePreserves(s: State)
    ensures Preserved(s, Release(s))
  {
    ReleaseFrame(s);
    QuietPreserves(s, Release(s));
  }

  lemma EngineAdvancedPreserves(s: State, playbackState: int, duration: int, currentPosition: int,
                                bufferedPosition: int)
    ensures Preserved(s, AdvanceEngine(s, playbackState, duration, currentPosition, bufferedPosition))
  {
    var r := AdvanceEngine(s, playbackState, duration, currentPosition, bufferedPosition);
    if IsLoaded(s) {
      assert r == s.(player := r.player);
    } else {
      assert r == s;
    }
    QuietPreserves(s, r);
  }


  /** The engine callbacks that notify. */
  predicate IsNotifyingCallback(i: Input) {
    i.LoadingChanged? || i.PlayerStateChanged? || i.LoadErrorOccurred? || i.VideoSizeChanged? || i.RenderedFirstFrame?
  }

  /** Every input keeps `Preserved`. */
  lemma StepPreserves(s: State, i: Input)
    ensures Preserved(s, Step(s, i))
  {
    match i {
      case LoadingChanged(b) => LoadingChangedPreserves(s, b);
      case PlayerStateChanged(pwr, ps, f) => PlayerStateChangedPreserves(s, pwr, ps, f);
      case LoadErrorOccurred(m) => LoadErrorPreserves(s, m);
      case VideoSizeChanged(w, h) => VideoSizeChangedPreserves(s, w, h);
      case RenderedFirstFrame => RenderedFirstFramePreserves(s);
      case _ => QuietInputPreserves(s, i);
    }
  }

  /** The other inputs keep `Preserved`. */
  lemma QuietInputPreserves(s: State, i: Input)
    requires !IsNotifyingCallback(i)
    ensures Preserved(s, Step(s, i))
  {
    match i {
      case NewStatus(p, l, f) => NewStatusPreserves(s, p, l, f);
      case PlayIfNecessary(f) => PlayPreserves(s, f);
      case PauseNow => PausePreserves(s);
      case ReleaseNow => ReleasePreserves(s);
      case IntentChanged(intent) => QuietPreserves(s, s.(intent := intent));
      case SizeListenerChanged(present) => QuietPreserves(s, s.(hasSizeListener := present));
      case EngineAdvanced(ps, d, cp, bp) => EngineAdvancedPreserves(s, ps, d, cp, bp);
      case _ => QuietPreserves(s, s);
    }
  }

  /** Any sequence of inputs keeps `Preserved`. */
  lemma {:induction false} RunPreserves(s: State, inputs: seq<Input>)
    ensures Preserved(s, Run(s, inputs))
    decreases |inputs|
  {
    if inputs == [] {
      QuietPreserves(s, s);
    } else {
      StepPreserves(s, inputs[0]);
      RunPreserves(Step(s, inputs[0]), inputs[1..]);
      PreservedTransitive(s, Step(s, inputs[0]), Run(s, inputs));
    }
  }

  // ================= Geometry and engine presence over runs =================

  /** The inputs after which no engine is left: `release` and a load error. */
  predicate Unloads(i: Input) {
    i.ReleaseNow? || i.LoadErrorOccurred?
  }

  /** One input: the stored size changes only on `onVideoSizeChanged`, and
      the engine goes away exactly on `release` or a load error. */
  lemma StepKeepsSizeAndEngine(s: State, i: Input)
    ensures !i.VideoSizeChanged? ==> Step(s, i).videoWidthHeight == s.videoWidthHeight
    ensures IsLoaded(Step(s, i)) <==> IsLoaded(s) && !Unloads(i)
  {
    match i {
      case LoadingChanged(b) => OnLoadingChangedEffects(s, b);
      case PlayerStateChanged(pwr, ps, f) => PlayerStateChangedTrace(s, pwr, ps, f);
      case LoadErrorOccurred(m) => OnLoadErrorEffects(s, m);
      case RenderedFirstFrame => RenderedFirstFrameEffects(s);
      case VideoSizeChanged(w, h) =>
      case _ => QuietInputKeepsSizeAndEngine(s, i);
    }
  }

  /** The same for the inputs that notify nothing. */
  lemma QuietInputKeepsSizeAndEngine(s: State, i: Input)
    requires !IsNotifyingCallback(i)
    ensures Step(s, i).videoWidthHeight == s.videoWidthHeight
    ensures IsLoaded(Step(s, i)) <==> IsLoaded(s) && !Unloads(i)
  {
    match i {
      case NewStatus(p, l, f) => ApplyNewStatusFrame(s, p, l, f);
      case PlayIfNecessary(f) => PlayFrame(s, f);
      case PauseNow => PauseImmediatelyFrame(s); PauseImmediatelyEffects(s);
      case ReleaseNow => ReleaseFrame(s); ReleaseEffects(s);
      case _ =>
    }
  }

  /** Over inputs without `onVideoSizeChanged`, the stored size, and so
      what `getVideoWidthHeight` returns, stays what it was. */
  lemma {:induction false} SizeChangesOnlyOnVideoSizeChanged(s: State, inputs: seq<Input>)
    requires forall k :: 0 <= k < |inputs| ==> !inputs[k].VideoSizeChanged?
    ensures Run(s, inputs).videoWidthHeight == s.videoWidthHeight
    decreases |inputs|
  {
    if inputs != [] {
      StepKeepsSizeAndEngine(s, inputs[0]);
      SizeChangesOnlyOnVideoSizeChanged(Step(s, inputs[0]), inputs[1..]);
    }
  }

  /** A freshly constructed and loaded controller reports `(0, 0)` until the
      engine reports a size. */
  lemma NoSizeUntilReported(sdkAtLeastM: bool, hasSizeListener: bool, intent: Intent, engine: Engine,
                            inputs: seq<Input>)
    requires forall k :: 0 <= k < |inputs| ==> !inputs[k].VideoSizeChanged?
    ensures GetVideoWidthHeight(Run(Load(Initial(sdkAtLeastM, hasSizeListener), intent, engine), inputs)) == (0, 0)
  {
    SizeChangesOnlyOnVideoSizeChanged(Load(Initial(sdkAtLeastM, hasSizeListener), intent, engine), inputs);
  }

  /** An engine is present after some inputs iff it was present before and
      none of them released it. */
  lemma {:induction false} LoadedUntilUnloaded(s: State, inputs: seq<Input>)
    ensures IsLoaded(Run(s, inputs)) <==> IsLoaded(s) && forall k :: 0 <= k < |inputs| ==> !Unloads(inputs[k])
    decreases |inputs|
  {
    if inputs != [] {
      StepKeepsSizeAndEngine(s, inputs[0]);
      LoadedUntilUnloaded(Step(s, inputs[0]), inputs[1..]);
      assert forall k :: 1 <= k < |inputs| ==> inputs[k] == inputs[1..][k - 1];
    }
  }

  /** `isLoaded` holds from `load` on, until `release` or a load error. */
  lemma LoadedFromLoadUntilUnloaded(s: State, intent: Intent, engine: Engine, inputs: seq<Input>)
    ensures IsLoaded(Run(Load(s, intent, engine), inputs)) <==> forall k :: 0 <= k < |inputs| ==> !Unloads(inputs[k])
  {
    LoadedUntilUnloaded(Load(s, intent, engine), inputs);
  }

  // ================= Progress updates and audio focus =================

  /** Progress updates continue only with an engine that is set to play:
      never after a pause or a release; right after `load`, as the new
      engine is set. */
  lemma ProgressContinuesOnlyWhilePlaying(s: State, intent: Intent, engine: Engine)
    ensures ShouldContinueUpdatingProgress(s) ==> IsLoaded(s) && s.player.value.playWhenReady
    ensures !ShouldContinueUpdatingProgress(PauseImmediately(s))
    ensures !ShouldContinueUpdatingProgress(Release(s))
    ensures ShouldContinueUpdatingProgress(Load(s, intent, engine)) == engine.playWhenReady
  {
    PauseImmediatelyEffects(s);
  }

  /** Audio focus is needed only with an engine and unmuted. A pause keeps
      it needed iff the player should still play, and an unmuted play that
      got focus keeps needing it. */
  lemma AudioFocusNeededWhileUnmutedPlayWanted(s: State)
    ensures RequiresAudioFocus(s) ==> IsLoaded(s) && !s.intent.isMuted
    ensures !RequiresAudioFocus(Release(s))
    ensures RequiresAudioFocus(PauseImmediately(s)) <==> IsLoaded(s) && s.intent.shouldPlayerPlay && !s.intent.isMuted
    ensures IsLoaded(s) && s.intent.shouldPlayerPlay && !s.intent.isMuted ==>
              RequiresAudioFocus(PlayPlayerWithRateAndMuteIfNecessary(s, true).0)
  {
    PauseImmediatelyEffects(s);
    if IsLoaded(s) && s.intent.shouldPlayerPlay && !s.intent.isMuted {
      PlayFrame(s, true);
    }
  }

  // ================= Status derivation =================

  /** `isBuffering` includes `mIsLoading`, so a playing controller whose
      engine is still loading data reports playing and buffering at once. */
  lemma PlayingWhileLoadingIsAlsoBuffering(s: State)
    requires IsLoaded(s) && s.isLoading
    requires s.player.value.playbackState == STATE_READY && s.player.value.playWhenReady
    ensures var st := GetExtraStatusFields(s).value; st.isPlaying && st.isBuffering
  {
  }

  /** Position and playable duration are clamped independently, so the
      reported position can lie beyond the playable duration. */
  lemma PositionCanExceedPlayableDuration()
    ensures var s := Load(Initial(false, false), DefaultIntent, Engine(false, STATE_READY, 10000, 5000, 2000));
      var st := GetExtraStatusFields(s).value;
      st.positionMillis == 5000 && st.playableDurationMillis == 2000
  {
  }

  /** A `long` duration that does not fit in an `int` is narrowed, not
      clamped: -(2^63)+1, ExoPlayer 2's "time unset" value, becomes 1. */
  lemma UnsetDurationNarrowsToOne(s: State)
    requires IsLoaded(s) && s.player.value.duration == -0x7fff_ffff_ffff_ffff
    ensures GetExtraStatusFields(s).value.durationMillis == 1
  {
  }
}
