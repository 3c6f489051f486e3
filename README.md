# SimpleExoPlayerData, modelled in Dafny

`SimpleExoPlayerData` is the ExoPlayer-backed media controller of Expo's
Android `AV` module. It receives commands from the consumer: load, release,
apply a new status, pause. It also receives callbacks from the ExoPlayer
engine: loading changed, player state changed, load error, video size
changed and first frame rendered. It turns both kinds of input into commands
to the engine and notifications to its listeners:

- the load-completion listener is told once whether the load succeeded or failed;
- the status listener gets status updates and a "did just finish" update;
- the video-size listener gets the video geometry.

The project has five modules.

- `Java`: Java's `null` as `Option`, and the narrowing `(int)` cast of a
  `long`, written out as two's-complement truncation to 32 bits.
- `ExoPlayer`: the engine's playback-state constants, the part of the
  engine's state the controller reads, and the commands the controller issues.
- `PlayerData`: what the superclass `PlayerData` contributes:
  - the playback intent (`mShouldPlay`, `shouldPlayerPlay()`, `mIsMuted`);
  - the notifications its listeners receive;
  - how a call can end (normally, `AudioFocusNotAcquiredException`,
    `IllegalStateException`);
  - the clamp `getClippedIntegerForValue`.
- `SimpleExoPlayerModel`: the controller's state as a value, one function per
  Java operation and callback, and `Step`/`Run`, which feed it any sequence
  of inputs.
- `SimpleExoPlayerProperties`: lemmas about those functions. They cover:
  - the load callback is one-shot;
  - what release does;
  - end-of-media detection and looping;
  - what `applyNewStatus` and the play and pause paths do;
  - when geometry is reported;
  - how the extra status fields are derived.
- `Player`: the class `SimpleExoPlayerData` itself, with the Java fields as
  mutable fields. Each method changes them step by step as the Java method
  does, and is proved to move `Model()` exactly as the corresponding
  `SimpleExoPlayerModel` function says.

The engine is `Option<Engine>`; `None` stands for a null `mSimpleExoPlayer`.
Every command handed to the engine is appended to a command log. Every
notification handed to a listener is appended to a trace. Audio focus is an
input: the boolean `focusGranted` is the focus manager's answer to
`acquireAudioFocus()`.

## Model

| member | source | states |
|---|---|---|
| Player.SimpleExoPlayerData.constructor | android/expoview/src/main/java/versioned/host/exp/exponent/modules/api/av/player/SimpleExoPlayerData.java:41-51 | the fields start as declared: no engine, no listener, no size, no previous state, not looping, loading |
| Player.SimpleExoPlayerData.Load | android/expoview/src/main/java/versioned/host/exp/exponent/modules/api/av/player/SimpleExoPlayerData.java:62-87 | the method's state change is exactly `SimpleExoPlayerModel.Load` |
| SimpleExoPlayerProperties.LoadEffects | android/expoview/src/main/java/versioned/host/exp/exponent/modules/api/av/player/SimpleExoPlayerData.java:62-87 | after load the listener is stored, an engine is present, `Prepare` is appended to the commands, the intent is recorded, and nothing is notified |
| Player.SimpleExoPlayerData.Release | android/expoview/src/main/java/versioned/host/exp/exponent/modules/api/av/player/SimpleExoPlayerData.java:89-95 | the method's state change is exactly `SimpleExoPlayerModel.Release` |
| SimpleExoPlayerProperties.ReleaseEffects | android/expoview/src/main/java/versioned/host/exp/exponent/modules/api/av/player/SimpleExoPlayerData.java:89-95 | after release there is no engine; the engine's release is issued iff an engine was present; release is idempotent; it notifies nothing and keeps the pending load listener |
| SimpleExoPlayerProperties.ReleaseFrame | android/expoview/src/main/java/versioned/host/exp/exponent/modules/api/av/player/SimpleExoPlayerData.java:89-95 | release keeps the notifications, the pending listener, the last playback state, the first-frame flag, the geometry, the loading and looping flags, the intent and the progress flag |
| SimpleExoPlayerProperties.ReleasedBeforeLoadedStillFiresSuccess | android/expoview/src/main/java/versioned/host/exp/exponent/modules/api/av/player/SimpleExoPlayerData.java:89-95 | since release keeps the listener, a later "loading finished" still reports load success |
| Player.SimpleExoPlayerData.PlayPlayerWithRateAndMuteIfNecessary | android/expoview/src/main/java/versioned/host/exp/exponent/modules/api/av/player/SimpleExoPlayerData.java:104-131 | the method's state change and exception are exactly those of `SimpleExoPlayerModel.PlayPlayerWithRateAndMuteIfNecessary` |
| SimpleExoPlayerProperties.PlayEffects | android/expoview/src/main/java/versioned/host/exp/exponent/modules/api/av/player/SimpleExoPlayerData.java:104-131 | with no engine, or when the player should not play, nothing happens. When not muted and focus is refused, `AudioFocusNotAcquiredException` is thrown and nothing changes. Otherwise it returns normally, issues no seek, its last command is `setPlayWhenReady(mShouldPlay)`, progress updates start, and progress keeps updating iff `mShouldPlay`. It never throws `IllegalStateException` |
| SimpleExoPlayerProperties.StartPlaybackEffects | android/expoview/src/main/java/versioned/host/exp/exponent/modules/api/av/player/SimpleExoPlayerData.java:114-130 | the playing branch leaves the callback-written fields and looping unchanged and issues no seek. Its last command is `setPlayWhenReady(mShouldPlay)`, the engine then plays iff `mShouldPlay`, and progress updates are on |
| SimpleExoPlayerProperties.PlayFrame | android/expoview/src/main/java/versioned/host/exp/exponent/modules/api/av/player/SimpleExoPlayerData.java:104-131 | playing never touches the notifications, the listener, the looping or loading flags, the geometry, the last playback state or the intent, and keeps whether an engine is present |
| SimpleExoPlayerProperties.FocusRefusedOnlyWhenRequired | android/expoview/src/main/java/versioned/host/exp/exponent/modules/api/av/player/SimpleExoPlayerData.java:221-224 | a focus refusal can only make play throw when `requiresAudioFocus` holds |
| Player.SimpleExoPlayerData.ApplyNewStatus | android/expoview/src/main/java/versioned/host/exp/exponent/modules/api/av/player/SimpleExoPlayerData.java:133-163 | the method's state change and exception are exactly those of `SimpleExoPlayerModel.ApplyNewStatus` |
| SimpleExoPlayerProperties.ApplyNewStatusWithoutPlayer | android/expoview/src/main/java/versioned/host/exp/exponent/modules/api/av/player/SimpleExoPlayerData.java:136-138 | with no engine, `applyNewStatus` throws `IllegalStateException` and changes nothing |
| SimpleExoPlayerProperties.ApplyNewStatusEffects | android/expoview/src/main/java/versioned/host/exp/exponent/modules/api/av/player/SimpleExoPlayerData.java:133-163 | on a loaded controller, looping takes the new value only when one is given, and exactly one seek is issued iff a position is given. When the player should not play, the first new command is a pause, progress stops and the call returns normally. It throws `AudioFocusNotAcquiredException` iff the player should play unmuted and focus is refused, and then issues no play-when-ready command. Otherwise, when the player should play, its last command is `setPlayWhenReady(mShouldPlay)`. It never throws `IllegalStateException` |
| SimpleExoPlayerProperties.ApplyNewStatusPausing | android/expoview/src/main/java/versioned/host/exp/exponent/modules/api/av/player/SimpleExoPlayerData.java:147-162 | when the player should not play, `applyNewStatus` returns normally, its first new command is the pause, one seek is issued iff a position is given, progress stops and looping takes the new value when one is given |
| SimpleExoPlayerProperties.ApplyNewStatusFocusRefused | android/expoview/src/main/java/versioned/host/exp/exponent/modules/api/av/player/SimpleExoPlayerData.java:105-162 | when unmuted play is refused focus inside `applyNewStatus`, it throws `AudioFocusNotAcquiredException` after the seek, with no new play-when-ready command and the engine kept |
| SimpleExoPlayerProperties.ApplyNewStatusPlaying | android/expoview/src/main/java/versioned/host/exp/exponent/modules/api/av/player/SimpleExoPlayerData.java:153-162 | when the player may play, `applyNewStatus` returns normally, seeks iff a position is given, ends with `setPlayWhenReady(mShouldPlay)`, and progress continues iff `mShouldPlay` |
| SimpleExoPlayerProperties.ApplyNewStatusFrame | android/expoview/src/main/java/versioned/host/exp/exponent/modules/api/av/player/SimpleExoPlayerData.java:133-163 | `applyNewStatus` never touches the notifications, the listener, loading, geometry, last playback state or intent, and keeps whether an engine is present |
| SimpleExoPlayerProperties.SetLoopingEffects | android/expoview/src/main/java/versioned/host/exp/exponent/modules/api/av/player/SimpleExoPlayerData.java:141-144 | setting looping leaves the commands, the engine, progress and the callback-written fields unchanged |
| SimpleExoPlayerProperties.PauseFirstEffects | android/expoview/src/main/java/versioned/host/exp/exponent/modules/api/av/player/SimpleExoPlayerData.java:147-150 | when the player should play, the "pause first" step changes nothing. Otherwise it appends `setPlayWhenReady(false)`, the engine is then paused and progress stops, and the notifications, listener, looping flag and other callback-written fields are kept |
| SimpleExoPlayerProperties.VolumeAndSeekEffects | android/expoview/src/main/java/versioned/host/exp/exponent/modules/api/av/player/SimpleExoPlayerData.java:153-159 | exactly one volume command, then a seek to the given position iff one is given. Play-when-ready and progress are unchanged |
| SimpleExoPlayerProperties.BeforePlayCommands | android/expoview/src/main/java/versioned/host/exp/exponent/modules/api/av/player/SimpleExoPlayerData.java:140-159 | the commands issued before the play step are this sequence: an optional pause, one volume command, an optional seek |
| SimpleExoPlayerProperties.BeforePlayEffects | android/expoview/src/main/java/versioned/host/exp/exponent/modules/api/av/player/SimpleExoPlayerData.java:140-159 | before the play step, looping takes the new value only when one is given, and one seek is issued iff a position is given. When the player should not play, the first new command is the pause. When it should play, no new command touches play-when-ready |
| SimpleExoPlayerProperties.PauseComesFirst | android/expoview/src/main/java/versioned/host/exp/exponent/modules/api/av/player/SimpleExoPlayerData.java:146-159 | in that command sequence the pause sits at the first new position; with no pause, no new command is a play-when-ready command |
| SimpleExoPlayerModel.GetExtraStatusFields | android/expoview/src/main/java/versioned/host/exp/exponent/modules/api/av/player/SimpleExoPlayerData.java:172-188 | the fields exist iff an engine exists. The duration is the engine's duration after the `(int)` cast. The position and playable duration are the cast readings clamped to `[0, duration]` (with `Clip` and `LongToInt` giving their exact meaning), so they lie in that range whenever the duration is not negative and keep in-range readings. `isPlaying` iff READY and play-when-ready. `isBuffering` iff BUFFERING or still loading. `isLooping` is the flag |
| Player.SimpleExoPlayerData.GetExtraStatusFields | android/expoview/src/main/java/versioned/host/exp/exponent/modules/api/av/player/SimpleExoPlayerData.java:172-188 | the class reads its fields as the Java method does, and the result equals `SimpleExoPlayerModel.GetExtraStatusFields` of its state |
| SimpleExoPlayerModel.AdvanceEngine | android/expoview/src/main/java/versioned/host/exp/exponent/modules/api/av/player/SimpleExoPlayerData.java:175-185 | the engine's own readings move on between callbacks: playback state, duration and positions take the new values, play-when-ready and engine presence are kept |
| SimpleExoPlayerProperties.PlayingWhileLoadingIsAlsoBuffering | android/expoview/src/main/java/versioned/host/exp/exponent/modules/api/av/player/SimpleExoPlayerData.java:182-185 | a READY, playing controller that is still loading reports both `isPlaying` and `isBuffering` |
| SimpleExoPlayerProperties.PositionCanExceedPlayableDuration | android/expoview/src/main/java/versioned/host/exp/exponent/modules/api/av/player/SimpleExoPlayerData.java:177-180 | position and playable duration are clamped separately, so the reported position can exceed the reported playable duration |
| SimpleExoPlayerProperties.UnsetDurationNarrowsToOne | android/expoview/src/main/java/versioned/host/exp/exponent/modules/api/av/player/SimpleExoPlayerData.java:175-176 | ExoPlayer's "unset" duration (`-Long.MAX_VALUE`) is reported as 1 after the `int` cast |
| Java.LongToInt | android/expoview/src/main/java/versioned/host/exp/exponent/modules/api/av/player/SimpleExoPlayerData.java:175 | the cast yields an `int` congruent to the `long` modulo 2^32, and is the same value when it fits |
| PlayerData.Clip | android/expoview/src/main/java/versioned/host/exp/exponent/modules/api/av/player/SimpleExoPlayerData.java:177-180 | the clamp lies in `[min, max]`, keeps in-range values, and maps values below or above to the bound |
| SimpleExoPlayerModel.GetVideoWidthHeight | android/expoview/src/main/java/versioned/host/exp/exponent/modules/api/av/player/SimpleExoPlayerData.java:192-195 | the stored size, or `(0, 0)` when none is known |
| Player.SimpleExoPlayerData.GetVideoWidthHeight | android/expoview/src/main/java/versioned/host/exp/exponent/modules/api/av/player/SimpleExoPlayerData.java:192-195 | the class reads its size field as the Java method does, and the result equals `SimpleExoPlayerModel.GetVideoWidthHeight` of its state |
| SimpleExoPlayerProperties.SizeChangesOnlyOnVideoSizeChanged | android/expoview/src/main/java/versioned/host/exp/exponent/modules/api/av/player/SimpleExoPlayerData.java:192-195 | over any inputs without `onVideoSizeChanged`, the stored size, and so the reported geometry, stays what it was |
| SimpleExoPlayerProperties.NoSizeUntilReported | android/expoview/src/main/java/versioned/host/exp/exponent/modules/api/av/player/SimpleExoPlayerData.java:192-195 | a freshly constructed and loaded controller reports `(0, 0)` whatever inputs follow, as long as no size has been reported by the engine |
| Player.SimpleExoPlayerData.PauseImmediately | android/expoview/src/main/java/versioned/host/exp/exponent/modules/api/av/player/SimpleExoPlayerData.java:213-219 | the method's state change is exactly `SimpleExoPlayerModel.PauseImmediately` |
| SimpleExoPlayerProperties.PauseImmediatelyEffects | android/expoview/src/main/java/versioned/host/exp/exponent/modules/api/av/player/SimpleExoPlayerData.java:213-219 | pausing issues `setPlayWhenReady(false)` iff an engine exists, stops progress updates, and keeps the intent |
| SimpleExoPlayerProperties.PauseImmediatelyFrame | android/expoview/src/main/java/versioned/host/exp/exponent/modules/api/av/player/SimpleExoPlayerData.java:213-219 | pausing never touches the notifications, listener, looping, loading, geometry, last playback state or intent |
| SimpleExoPlayerProperties.PauseThenPlayResumes | android/expoview/src/main/java/versioned/host/exp/exponent/modules/api/av/player/SimpleExoPlayerData.java:213-219 | because the intent survives a pause, playing again with the same intent (`mShouldPlay`, with focus or muted) returns normally and resumes progress updates |
| Player.SimpleExoPlayerData.UpdateVolumeMuteAndDuck | android/expoview/src/main/java/versioned/host/exp/exponent/modules/api/av/player/SimpleExoPlayerData.java:226-231 | one volume command iff an engine exists, nothing else changes |
| Player.SimpleExoPlayerData.OnLoadingChanged | android/expoview/src/main/java/versioned/host/exp/exponent/modules/api/av/player/SimpleExoPlayerData.java:235-244 | the method's state change is exactly `SimpleExoPlayerModel.OnLoadingChanged` |
| SimpleExoPlayerProperties.OnLoadingChangedEffects | android/expoview/src/main/java/versioned/host/exp/exponent/modules/api/av/player/SimpleExoPlayerData.java:236-244 | the callback sets `mIsLoading` and issues no command. It reports load success and clears the listener iff loading finished while a listener was pending. It always ends with exactly one status update. Engine, intent and geometry are kept |
| SimpleExoPlayerProperties.SecondLoadingFinishedFiresNothing | android/expoview/src/main/java/versioned/host/exp/exponent/modules/api/av/player/SimpleExoPlayerData.java:237-241 | a second "loading finished" in a row emits only a status update, with no second load callback |
| SimpleExoPlayerProperties.LoadCompletionFiresAtMostOnce | android/expoview/src/main/java/versioned/host/exp/exponent/modules/api/av/player/SimpleExoPlayerData.java:236-241 | after `load`, whatever sequence of inputs follows, the trace only grows, and the new load outcomes (success or error at lines 286-290) plus a still-pending listener number at most one |
| Player.SimpleExoPlayerData.OnPlayerStateChanged | android/expoview/src/main/java/versioned/host/exp/exponent/modules/api/av/player/SimpleExoPlayerData.java:246-265 | the method's state change and exception are exactly those of `SimpleExoPlayerModel.OnPlayerStateChanged` |
| SimpleExoPlayerProperties.PlayerStateChangedTrace | android/expoview/src/main/java/versioned/host/exp/exponent/modules/api/av/player/SimpleExoPlayerData.java:247-263 | exactly one notification is appended: "did just finish" iff the state newly became ENDED after a known previous state, otherwise a status update. The listener, the intent, the first-frame flag, the geometry and whether an engine is present are kept |
| SimpleExoPlayerProperties.PlayerStateChangedOutcome | android/expoview/src/main/java/versioned/host/exp/exponent/modules/api/av/player/SimpleExoPlayerData.java:246-265 | the callback throws `IllegalStateException` iff it newly enters ENDED while looping with no engine. It then only emits "did just finish"; otherwise it records the new state as the last one. A focus refusal never escapes |
| SimpleExoPlayerProperties.FirstStateCallbackNeverFinishes | android/expoview/src/main/java/versioned/host/exp/exponent/modules/api/av/player/SimpleExoPlayerData.java:248-249 | with no previous state, the callback emits a status update, never "did just finish", returns normally and records the state |
| SimpleExoPlayerProperties.RepeatedEndedDoesNotRefire | android/expoview/src/main/java/versioned/host/exp/exponent/modules/api/av/player/SimpleExoPlayerData.java:248-250 | after an ENDED report that returned normally, a second ENDED report emits only a status update |
| SimpleExoPlayerProperties.LoopingRestartsAtEnd | android/expoview/src/main/java/versioned/host/exp/exponent/modules/api/av/player/SimpleExoPlayerData.java:254-260 | when looping and the media newly ends with an engine present, the callback returns normally, emits "did just finish", and issues exactly one seek, to 0. When the replay may play, its last command is `setPlayWhenReady(mShouldPlay)` |
| SimpleExoPlayerProperties.NoLoopingNoCommands | android/expoview/src/main/java/versioned/host/exp/exponent/modules/api/av/player/SimpleExoPlayerData.java:254 | with looping off, a state callback issues no command and returns normally |
| Player.SimpleExoPlayerData.OnTimelineChanged | android/expoview/src/main/java/versioned/host/exp/exponent/modules/api/av/player/SimpleExoPlayerData.java:267-270 | the handler changes nothing |
| Player.SimpleExoPlayerData.OnPlayerError | android/expoview/src/main/java/versioned/host/exp/exponent/modules/api/av/player/SimpleExoPlayerData.java:272-275 | the handler changes nothing |
| Player.SimpleExoPlayerData.OnPositionDiscontinuity | android/expoview/src/main/java/versioned/host/exp/exponent/modules/api/av/player/SimpleExoPlayerData.java:277-280 | the handler changes nothing |
| Player.SimpleExoPlayerData.OnLoadError | android/expoview/src/main/java/versioned/host/exp/exponent/modules/api/av/player/SimpleExoPlayerData.java:284-292 | the method's state change is exactly `SimpleExoPlayerModel.OnLoadError` |
| SimpleExoPlayerProperties.OnLoadErrorEffects | android/expoview/src/main/java/versioned/host/exp/exponent/modules/api/av/player/SimpleExoPlayerData.java:285-291 | a pending listener gets the error message and is cleared; with none pending nothing is notified. Afterwards there is no engine, and the engine's release is issued iff one existed |
| Player.SimpleExoPlayerData.OnVideoSizeChanged | android/expoview/src/main/java/versioned/host/exp/exponent/modules/api/av/player/SimpleExoPlayerData.java:296-303 | the method's state change is exactly `SimpleExoPlayerModel.OnVideoSizeChanged` |
| SimpleExoPlayerProperties.VideoSizeChangedEffects | android/expoview/src/main/java/versioned/host/exp/exponent/modules/api/av/player/SimpleExoPlayerData.java:297-302 | the size is stored and reported by `getVideoWidthHeight`. It is notified iff the first frame was rendered and a size listener exists |
| Player.SimpleExoPlayerData.OnRenderedFirstFrame | android/expoview/src/main/java/versioned/host/exp/exponent/modules/api/av/player/SimpleExoPlayerData.java:305-311 | the method's state change is exactly `SimpleExoPlayerModel.OnRenderedFirstFrame` |
| SimpleExoPlayerProperties.RenderedFirstFrameEffects | android/expoview/src/main/java/versioned/host/exp/exponent/modules/api/av/player/SimpleExoPlayerData.java:306-310 | the flag is set. The stored size is notified iff this is the first call, a size is known and a listener exists. The stored size is kept |
| SimpleExoPlayerProperties.SizeBeforeFirstFrameReportedOnce | android/expoview/src/main/java/versioned/host/exp/exponent/modules/api/av/player/SimpleExoPlayerData.java:296-311 | a size that arrives before the first frame is reported exactly once, when the first frame is rendered |
| SimpleExoPlayerProperties.NoSizeReportedBeforeFirstFrame | android/expoview/src/main/java/versioned/host/exp/exponent/modules/api/av/player/SimpleExoPlayerData.java:300-310 | over any input sequence, geometry is never reported while no first frame has been rendered |
| SimpleExoPlayerProperties.StepPreserves | android/expoview/src/main/java/versioned/host/exp/exponent/modules/api/av/player/SimpleExoPlayerData.java:235-311 | every input keeps these facts: the trace only grows; no new load outcome beyond the pending listener; the first-frame flag is never cleared; no geometry is reported before the first frame |
| SimpleExoPlayerProperties.RunPreserves | android/expoview/src/main/java/versioned/host/exp/exponent/modules/api/av/player/SimpleExoPlayerData.java:235-311 | any sequence of inputs keeps the same facts |
| SimpleExoPlayerProperties.StepKeepsSizeAndEngine | android/expoview/src/main/java/versioned/host/exp/exponent/modules/api/av/player/SimpleExoPlayerData.java:89-311 | one input changes the stored size only if it is `onVideoSizeChanged`, and leaves an engine iff one was there and the input is neither `release` nor a load error |
| SimpleExoPlayerProperties.LoadedUntilUnloaded | android/expoview/src/main/java/versioned/host/exp/exponent/modules/api/av/player/SimpleExoPlayerData.java:167-170 | an engine is present after some inputs iff it was present before and none of them was `release` or a load error |
| SimpleExoPlayerProperties.LoadedFromLoadUntilUnloaded | android/expoview/src/main/java/versioned/host/exp/exponent/modules/api/av/player/SimpleExoPlayerData.java:167-170 | after `load`, `isLoaded` holds iff no later input was `release` or a load error |
| Player.SimpleExoPlayerData.IsLoaded | android/expoview/src/main/java/versioned/host/exp/exponent/modules/api/av/player/SimpleExoPlayerData.java:167-170 | the class tests its engine field as the Java method does, and the result equals `SimpleExoPlayerModel.IsLoaded` of its state |
| SimpleExoPlayerProperties.ProgressContinuesOnlyWhilePlaying | android/expoview/src/main/java/versioned/host/exp/exponent/modules/api/av/player/SimpleExoPlayerData.java:97-100 | progress updates continue only with an engine set to play. They never continue after a pause or a release, and right after `load` they follow the new engine's play-when-ready |
| Player.SimpleExoPlayerData.ShouldContinueUpdatingProgress | android/expoview/src/main/java/versioned/host/exp/exponent/modules/api/av/player/SimpleExoPlayerData.java:97-100 | the class reads its engine field as the Java method does, and the result equals `SimpleExoPlayerModel.ShouldContinueUpdatingProgress` of its state |
| SimpleExoPlayerProperties.AudioFocusNeededWhileUnmutedPlayWanted | android/expoview/src/main/java/versioned/host/exp/exponent/modules/api/av/player/SimpleExoPlayerData.java:221-224 | audio focus is needed only with an engine and unmuted, and never after a release. After a pause it is still needed iff the player should play unmuted, and an unmuted play that got focus keeps needing it |
| Player.SimpleExoPlayerData.RequiresAudioFocus | android/expoview/src/main/java/versioned/host/exp/exponent/modules/api/av/player/SimpleExoPlayerData.java:221-224 | the class reads its fields as the Java method does, and the result equals `SimpleExoPlayerModel.RequiresAudioFocus` of its state |
| Player.SimpleExoPlayerData.SetVideoSizeUpdateListener | android/expoview/src/main/java/versioned/host/exp/exponent/modules/api/av/player/SimpleExoPlayerData.java:300-307 | the superclass's size listener may be installed or removed at any time, and lines 300 and 307 read it afresh: the method changes only that flag, as the `SizeListenerChanged` input does |
| Player.SimpleExoPlayerData.OnVideoTracksDisabled | android/expoview/src/main/java/versioned/host/exp/exponent/modules/api/av/player/SimpleExoPlayerData.java:313-316 | the handler changes nothing |

## Left out

- The construction plumbing in `load` is not modelled: track selector, bandwidth meter, data source, extractor and media source factories, and listener registration. `load` is modelled as storing the listener, taking a fresh engine value (a parameter) and issuing `prepare`.
- `setStatus` belongs to the superclass and is not part of this model. The `status` map that `load` passes to it is modelled only as the new intent it yields. `applyNewStatus` receives the position and looping values directly.
- Rate, pitch and volume are floats, and `getVolumeForDuckAndFocus` lives in `AVModule`. `setVolume` and `setPlaybackParams` are recorded only as opaque commands, without their arguments.
- `tryUpdateVideoSurface` and `getAudioSessionId` are not modelled. They only forward to the engine and carry no state of the controller.
- `shouldPlayerPlay()` is part of `PlayerData`, which is not part of this model. It is taken as a stored boolean of the intent.
- The progress-update scheduling of `beginUpdatingProgressIfNecessary` and `stopUpdatingProgressIfNecessary` is a single "updating" flag.
- The payload of status updates (`getStatus()`) is not modelled. Notifications record only their kind, plus the error message and the size.
- The audio-focus and ducking logic of `AVModule` is not modelled. `acquireAudioFocus` is the `focusGranted` input: `false` means it throws `AudioFocusNotAcquiredException`.
- `getClippedIntegerForValue` is defined in `PlayerData`, which is not part of this model. It is modelled as a clamp to `[min, max]`.
- The ExoPlayer constants `STATE_IDLE` through `STATE_ENDED` (1 to 4) are ExoPlayer 2's values. The engine itself is not modelled. It is a value: its play-when-ready follows the commands, and its playback state, duration and positions move on only through the `EngineAdvanced` input. That input is independent of the `playbackState` that `onPlayerStateChanged` receives, so a run may report a state the engine's readings do not show.
- Threading and callback reentrancy are not modelled. Inputs arrive one at a time, as on the main looper.
- The unused parameters of the callbacks are dropped: the `IOException` (only its message is kept), the timeline and manifest, the rotation and pixel ratio, and the `ExoPlaybackException`.
- In `getExtraStatusFields`, a null engine would be dereferenced and the call would fail; the model returns `None` instead.
- `setVideoSizeUpdateListener` belongs to the superclass and is not part of this model. Installing or removing the listener is the `SizeListenerChanged` input, and in the class the method `SetVideoSizeUpdateListener`; only whether a listener is present is kept.

## Behaviour worth knowing

These follow from the Java code and are stated as lemmas above:

- `release` does not clear `mLoadCompletionListener`. A "loading finished" after a release still reports success: `ReleasedBeforeLoadedStillFiresSuccess`.
- `isPlaying` and `isBuffering` can both be true: `PlayingWhileLoadingIsAlsoBuffering`.
- The reported position can exceed the reported playable duration: `PositionCanExceedPlayableDuration`.
- When looping is on and the engine is already gone, the `IllegalStateException` from `applyNewStatus` escapes `onPlayerStateChanged`, and `mLastPlaybackState` is then not updated: `PlayerStateChangedOutcome`.
- The `(int)` casts keep the low 32 bits, so an unset duration is reported as 1: `UnsetDurationNarrowsToOne`.
