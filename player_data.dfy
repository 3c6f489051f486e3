/** The members of the `PlayerData` superclass that `SimpleExoPlayerData`
    uses. Their definitions are not part of this model: the playback intent
    is represented by its values, and the notifications by their kind. */
module PlayerData {

  /** The consumer's playback intent held by the superclass: `mShouldPlay`,
      the value of `shouldPlayerPlay()` and `mIsMuted`. */
  datatype Intent = Intent(shouldPlay: bool, shouldPlayerPlay: bool, isMuted: bool)

  const DefaultIntent: Intent := Intent(false, false, false)

  /** What the controller tells its listeners, in order. Status payloads
      (`getStatus()`) are not modelled; only which call was made. */
  datatype Notification =
    | LoadSuccess                /** LoadCompletionListener.onLoadSuccess */
    | LoadFailure(message: string) /** LoadCompletionListener.onLoadError */
    | StatusUpdate               /** callStatusUpdateListener() */
    | DidJustFinish              /** callStatusUpdateListenerWithDidJustFinish() */
    | VideoSizeUpdate(size: (int, int)) /** VideoSizeUpdateListener.onVideoSizeUpdate */

  /** How a Java call ended: normally, or with one of the two exceptions
      `applyNewStatus` declares. */
  datatype Thrown = Returned | AudioFocusNotAcquiredException | IllegalStateException

  /** `getClippedIntegerForValue(value, min, max)`: clamps `value` into
      `[min, max]`. */
  function Clip(value: int, min: int, max: int): (r: int)
    ensures min <= max ==> min <= r <= max
    ensures min <= value <= max ==> r == value
    ensures value < min ==> r == min
    ensures min <= max < value ==> r == max
  {
    if value < min then min else if value > max then max else value
  }
}
