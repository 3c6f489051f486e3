/** The part of the ExoPlayer engine that the controller observes and drives.
    The engine is an opaque collaborator: its reported values are whatever
    it says they are, and the controller changes them only through the
    commands below. */
module ExoPlayer {

  /** Playback states as ExoPlayer 2 numbers them (`ExoPlayer.STATE_*`). */
  const STATE_IDLE: int := 1
  const STATE_BUFFERING: int := 2
  const STATE_READY: int := 3
  const STATE_ENDED: int := 4

  /** What the controller can read from a live `SimpleExoPlayer`.
      Times are Java `long` milliseconds. */
  datatype Engine = Engine(
    playWhenReady: bool,
    playbackState: int,
    duration: int,
    currentPosition: int,
    bufferedPosition: int)

  /** Commands the controller issues to the engine, in the order issued.
      `SetVolume` and `SetPlaybackParams` carry floating-point values that
      are not modelled. */
  datatype Command =
    | Prepare
    | SetPlayWhenReady(playWhenReady: bool)
    | SeekTo(positionMillis: int)
    | SetVolume
    | SetPlaybackParams
    | ReleasePlayer

  /** The effect of a command on what the engine reports back:
      `getPlayWhenReady()` returns the last value set; the other commands
      leave the reported values to the engine. */
  function Perform(e: Engine, c: Command): (r: Engine)
    ensures c.SetPlayWhenReady? ==> r.playWhenReady == c.playWhenReady
    ensures !c.SetPlayWhenReady? ==> r == e
    ensures r.playbackState == e.playbackState && r.duration == e.duration
    ensures r.currentPosition == e.currentPosition && r.bufferedPosition == e.bufferedPosition
  {
    match c
    case SetPlayWhenReady(b) => e.(playWhenReady := b)
    case _ => e
  }
}
