/** The playlist player: a single-track player (held in `sox`) plus a
    playlist, a current index and a pause flag. Its own `next` is the
    completion callback, so a track that finishes normally advances the
    playlist. */
module Music {
  import opened PlaybackTypes
  import opened Sox
  import opened Volume

  /** The index after `next`: one on, wrapping from the last track to the first. */
  function NextIndex(i: int, n: int): (j: int)
    requires 0 <= i < n
    ensures 0 <= j < n
    ensures i < n - 1 ==> j == i + 1
    ensures i == n - 1 ==> j == 0
  {
    (i + 1) % n
  }

  /** The index after `prev`: one back, wrapping from the first track to the last. */
  function PrevIndex(i: int, n: int): (j: int)
    requires 0 <= i < n
    ensures 0 <= j < n
    ensures i > 0 ==> j == i - 1
    ensures i == 0 ==> j == n - 1
  {
    (i - 1) % n
  }

  /** `prev` undoes `next` and `next` undoes `prev`. */
  lemma NextPrevInverse(i: int, n: int)
    requires 0 <= i < n
    ensures PrevIndex(NextIndex(i, n), n) == i
    ensures NextIndex(PrevIndex(i, n), n) == i
  {
  }

  /** The index reached from `i` after `k` tracks finish in a row. */
  function Advance(i: int, n: int, k: nat): (j: int)
    requires 0 <= i < n
    ensures 0 <= j < n
  {
    if k == 0 then i else NextIndex(Advance(i, n, k - 1), n)
  }

  /** Advancing `a` tracks then `b` tracks is advancing `a + b` tracks. */
  lemma {:induction false} AdvanceAdd(i: int, n: int, a: nat, b: nat)
    requires 0 <= i < n
    ensures Advance(Advance(i, n, a), n, b) == Advance(i, n, a + b)
  {
    if b > 0 {
      AdvanceAdd(i, n, a, b - 1);
    }
  }

  /** Before the end of the list, each finished track moves to the next one. */
  lemma {:induction false} AdvanceWithin(i: int, n: int, k: nat)
    requires 0 <= i && i + k < n
    ensures Advance(i, n, k) == i + k
  {
    if k > 0 {
      AdvanceWithin(i, n, k - 1);
    }
  }

  /** After as many finished tracks as the playlist holds, playback is back
      on the track it started from: auto-advance cycles the whole list. */
  lemma {:induction false} AdvanceFullCycle(i: int, n: int)
    requires 0 <= i < n
    ensures Advance(i, n, n) == i
  {
    AdvanceWithin(i, n, n - 1 - i);
    AdvanceAdd(i, n, n - 1 - i, 1);
    assert Advance(i, n, n - i) == 0;
    AdvanceAdd(i, n, n - i, i);
    AdvanceWithin(0, n, i);
  }

  /** The chain after stopping and replaying a track: `stop` empties it only
      when a process was recorded, and a started track adds `next` at the end. */
  function ReplayChain(proc: Option<nat>, chain: seq<Callback>, started: bool): (r: seq<Callback>)
    ensures started ==> |r| > 0 && r[|r| - 1] == Next
    ensures started && proc.Some? ==> r == [Next]
    ensures !started && proc.Some? ==> r == []
    ensures proc.None? ==> |r| >= |chain| && r[..|chain|] == chain
    ensures |r| == (if proc.Some? then 0 else |chain|) + (if started then 1 else 0)
  {
    (if proc.Some? then [] else chain) + (if started then [Next] else [])
  }

  /** A signal sent to the recorded process, if there is one. */
  function SignalEffects(proc: Option<nat>, sig: Signal): (evs: seq<Event>)
    ensures proc.None? <==> evs == []
    ensures proc.Some? ==> evs == [Signalled(proc.value, sig)]
  {
    match proc
    case None => []
    case Some(pid) => [Signalled(pid, sig)]
  }

  /** What the playlist player's own `stop` sends: suspend, then terminate
      and kill. It deletes nothing. */
  function MusicStopEffects(proc: Option<nat>): (evs: seq<Event>)
    ensures proc.None? <==> evs == []
    ensures proc.Some? ==> evs == [Signalled(proc.value, SigStop)] + StopEffects(proc, false, "")
    ensures forall e :: e in evs ==> !e.Deleted?
  {
    match proc
    case None => []
    case Some(pid) => [Signalled(pid, SigStop), Terminated(pid), Killed(pid)]
  }

  class MusicPlayer {
    const sox: SoxPlayer
    var playlist: seq<string>
    var idx: int
    var pausing: bool

    /** The current index always names a track. */
    ghost predicate Valid()
      reads this
    {
      |playlist| > 0 && 0 <= idx < |playlist|
    }

    constructor (playlist: seq<string>)
      requires |playlist| > 0
      ensures Valid() && fresh(sox)
      ensures this.playlist == playlist && idx == 0 && !pausing
      ensures !sox.playing && sox.proc == None && !sox.delete
      ensures sox.onCompleteds == [] && sox.log == []
    {
      sox := new SoxPlayer();
      this.playlist := playlist;
      idx := 0;
      pausing := false;
    }

    /** `update_playlist`: stop, install the new list, start again from its
        first track. */
    method UpdatePlaylist(playlist: seq<string>, pathExists: bool) returns (started: bool)
      requires |playlist| > 0
      modifies this, sox
      ensures Valid()
      ensures this.playlist == playlist && idx == 0 && pausing == old(pausing)
      ensures started == ValidSource(playlist[0], pathExists)
      ensures sox.proc == None
      ensures sox.onCompleteds == ReplayChain(old(sox.proc), old(sox.onCompleteds), started)
      ensures sox.log == old(sox.log) + StopEffects(old(sox.proc), old(sox.delete), old(sox.src))
      ensures started ==> sox.src == playlist[0] && !sox.delete
      ensures !started ==> sox.src == old(sox.src) && sox.delete == old(sox.delete)
      ensures sox.playing == old(sox.playing)
    {
      sox.Stop();
      this.playlist := playlist;
      idx := 0;
      started := Play(pathExists);
    }

    /** `play`: stop whatever is recorded and play the current track with
        `next` as its completion callback. */
    method Play(pathExists: bool) returns (started: bool)
      requires Valid()
      modifies sox
      ensures started == ValidSource(playlist[idx], pathExists)
      ensures sox.proc == None
      ensures sox.onCompleteds == ReplayChain(old(sox.proc), old(sox.onCompleteds), started)
      ensures sox.log == old(sox.log) + StopEffects(old(sox.proc), old(sox.delete), old(sox.src))
      ensures started ==> sox.src == playlist[idx] && !sox.delete
      ensures !started ==> sox.src == old(sox.src) && sox.delete == old(sox.delete)
      ensures sox.playing == old(sox.playing)
    {
      var path := playlist[idx];
      sox.Stop();
      started := sox.Play(path, false, Some(Callback.Next), pathExists);
    }

    /** `next`: stop, move one track on (wrapping), play. */
    method Next(pathExists: bool) returns (started: bool)
      requires Valid()
      modifies this, sox
      ensures Valid()
      ensures playlist == old(playlist) && pausing == old(pausing)
      ensures idx == NextIndex(old(idx), |playlist|)
      ensures started == ValidSource(playlist[idx], pathExists)
      ensures sox.proc == None
      ensures sox.onCompleteds == ReplayChain(old(sox.proc), old(sox.onCompleteds), started)
      ensures sox.log == old(sox.log) + StopEffects(old(sox.proc), old(sox.delete), old(sox.src))
      ensures started ==> sox.src == playlist[idx] && !sox.delete
      ensures !started ==> sox.src == old(sox.src) && sox.delete == old(sox.delete)
      ensures sox.playing == old(sox.playing)
    {
      sox.Stop();
      idx := (idx + 1) % |playlist|;
      started := Play(pathExists);
    }

    /** `prev`: stop, move one track back (wrapping), play. */
    method Prev(pathExists: bool) returns (started: bool)
      requires Valid()
      modifies this, sox
      ensures Valid()
      ensures playlist == old(playlist) && pausing == old(pausing)
      ensures idx == PrevIndex(old(idx), |playlist|)
      ensures started == ValidSource(playlist[idx], pathExists)
      ensures sox.proc == None
      ensures sox.onCompleteds == ReplayChain(old(sox.proc), old(sox.onCompleteds), started)
      ensures sox.log == old(sox.log) + StopEffects(old(sox.proc), old(sox.delete), old(sox.src))
      ensures started ==> sox.src == playlist[idx] && !sox.delete
      ensures !started ==> sox.src == old(sox.src) && sox.delete == old(sox.delete)
      ensures sox.playing == old(sox.playing)
    {
      sox.Stop();
      idx := (idx - 1) % |playlist|;
      started := Play(pathExists);
    }

    /** `pause`: mark paused and suspend the recorded process; the chain is
        kept. */
    method Pause()
      modifies this, sox
      ensures pausing
      ensures sox.log == old(sox.log) + SignalEffects(sox.proc, SigStop)
      ensures playlist == old(playlist) && idx == old(idx)
      ensures sox.onCompleteds == old(sox.onCompleteds) && sox.proc == old(sox.proc)
      ensures sox.playing == old(sox.playing) && sox.src == old(sox.src) && sox.delete == old(sox.delete)
    {
      pausing := true;
      if sox.proc.Some? {
        sox.log := sox.log + [Signalled(sox.proc.value, SigStop)];
      }
    }

    /** The playlist player's `stop`: nothing happens unless a process is
        recorded; otherwise the chain is emptied and the process suspended,
        terminated, killed and forgotten. The pause flag is left alone. */
    method Stop()
      modifies sox
      ensures old(sox.proc).None? ==> unchanged(sox)
      ensures sox.proc == None
      ensures old(sox.proc).Some? ==> sox.onCompleteds == []
      ensures old(sox.proc).None? ==> sox.onCompleteds == old(sox.onCompleteds)
      ensures sox.log == old(sox.log) + MusicStopEffects(old(sox.proc))
      ensures sox.playing == old(sox.playing) && sox.src == old(sox.src) && sox.delete == old(sox.delete)
    {
      if sox.proc.Some? {
        var pid := sox.proc.value;
        sox.onCompleteds := [];
        sox.log := sox.log + [Signalled(pid, SigStop), Terminated(pid), Killed(pid)];
        sox.proc := None;
      }
    }

    /** `resume`: clear the pause flag, make `next` the only completion
        callback, and continue the recorded process. */
    method Resume()
      modifies this, sox
      ensures !pausing
      ensures sox.onCompleteds == [Callback.Next]
      ensures sox.log == old(sox.log) + SignalEffects(sox.proc, SigCont)
      ensures playlist == old(playlist) && idx == old(idx)
      ensures sox.proc == old(sox.proc) && sox.playing == old(sox.playing)
      ensures sox.src == old(sox.src) && sox.delete == old(sox.delete)
    {
      pausing := false;
      sox.onCompleteds := [Callback.Next];
      if sox.proc.Some? {
        sox.log := sox.log + [Signalled(sox.proc.value, SigCont)];
      }
    }

    method IsPlaying() returns (r: bool)
      ensures r == sox.playing
    {
      r := sox.playing;
    }

    method IsPausing() returns (r: bool)
      ensures r == pausing
    {
      r := pausing;
    }

    /** `turnUp` on `system`, given the volume reading `out` and what
        `int()` makes of it: apply the decided action, then resume. When
        `int()` raises nothing else happens. */
    method TurnUp(system: string, out: string, parsed: Option<int>) returns (raised: bool)
      modifies this, sox
      ensures raised <==> UpAction(system, out, parsed).ParseError?
      ensures raised ==> unchanged(this) && unchanged(sox)
      ensures !raised ==> !pausing && sox.onCompleteds == [Callback.Next]
      ensures !raised ==> sox.log == old(sox.log) + ActionEvents(UpAction(system, out, parsed))
                                     + SignalEffects(sox.proc, SigCont)
      ensures playlist == old(playlist) && idx == old(idx)
      ensures sox.proc == old(sox.proc) && sox.playing == old(sox.playing)
      ensures sox.src == old(sox.src) && sox.delete == old(sox.delete)
    {
      var action := UpAction(system, out, parsed);
      raised := action.ParseError?;
      if !raised {
        sox.log := sox.log + ActionEvents(action);
        Resume();
      }
    }

    /** `turnDown`, the same way, with the Linux reading stripped before its
        `%` test (see `DownActionAsWritten` for the test as the source has it). */
    method TurnDown(system: string, out: string, parsed: Option<int>) returns (raised: bool)
      modifies this, sox
      ensures raised <==> DownAction(system, out, parsed).ParseError?
      ensures raised ==> unchanged(this) && unchanged(sox)
      ensures !raised ==> !pausing && sox.onCompleteds == [Callback.Next]
      ensures !raised ==> sox.log == old(sox.log) + ActionEvents(DownAction(system, out, parsed))
                                     + SignalEffects(sox.proc, SigCont)
      ensures playlist == old(playlist) && idx == old(idx)
      ensures sox.proc == old(sox.proc) && sox.playing == old(sox.playing)
      ensures sox.src == old(sox.src) && sox.delete == old(sox.delete)
    {
      var action := DownAction(system, out, parsed);
      raised := action.ParseError?;
      if !raised {
        sox.log := sox.log + ActionEvents(action);
        Resume();
      }
    }
  }
}
