/** Values shared by the playback controller: optional values, callback tokens
    and the effects the players have on the outside world. */
module PlaybackTypes {

  datatype Option<T> = None | Some(value: T)

  /** A completion callback. The players store bound methods and arbitrary
      callables; the model keeps one token per callback: the playlist's own
      `next`, or a callback registered by some other component. */
  datatype Callback = Next | User(id: nat)

  /** The list a possibly-absent callback contributes to a chain: nothing for
      an absent (falsy) callback, the callback itself otherwise. */
  function Listed(cb: Option<Callback>): (s: seq<Callback>)
    ensures |s| == (if cb.Some? then 1 else 0)
    ensures forall c :: c in s <==> cb == Some(c)
  {
    match cb
    case None => []
    case Some(c) => [c]
  }

  datatype Signal = SigStop | SigCont

  /** An effect on the outside world, recorded in the order it is issued:
      process control, file deletion, spoken notices and volume commands. */
  datatype Event =
    | Spawned(pid: nat, argv: seq<string>)
    | Terminated(pid: nat)
    | Killed(pid: nat)
    | Signalled(pid: nat, sig: Signal)
    | Deleted(path: string)
    | Said(text: string)
    | VolumeSet(level: int)
    | VolumeNudged(arg: string)
}
