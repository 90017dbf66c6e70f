/** Properties that take several calls: what a caller of the two players
    can rely on from their contracts alone. */
module Scenarios {
  import opened PlaybackTypes
  import opened Sox
  import opened Volume
  import opened Music

  /** A second `stop` changes nothing: two stops in a row have exactly the
      effect of one. */
  method StopTwice(p: SoxPlayer)
    modifies p
    ensures p.proc == None && p.playing == old(p.playing)
    ensures p.src == old(p.src) && p.delete == old(p.delete)
    ensures p.onCompleteds == (if old(p.proc).Some? then [] else old(p.onCompleteds))
    ensures p.log == old(p.log) + StopEffects(old(p.proc), old(p.delete), old(p.src))
  {
    p.Stop();
    p.Stop();
  }

  /** A `stop` between launch and completion suppresses the chain, whatever
      the exit code, and the player still ends up not playing. */
  method StopBeforeCompletion(p: SoxPlayer, pid: nat, system: string, exitCode: int)
    returns (fired: seq<Callback>)
    modifies p
    ensures fired == [] && !p.playing && p.proc == None && p.onCompleteds == []
  {
    p.Launch(pid, system);
    p.Stop();
    fired := p.Complete(exitCode);
  }

  /** Without a `stop`, a launched track fires its whole chain, in stored
      order, exactly when it exits with 0. */
  method LaunchThenComplete(p: SoxPlayer, pid: nat, system: string, exitCode: int)
    returns (fired: seq<Callback>)
    modifies p
    ensures !p.playing && p.proc == Some(pid)
    ensures exitCode == 0 ==> fired == old(p.onCompleteds)
    ensures exitCode != 0 ==> fired == []
  {
    p.Launch(pid, system);
    fired := p.Complete(exitCode);
  }

  /** The playlist player's `stop` twice has the effect of one, and neither
      touches the pause flag, the index or the playlist. */
  method MusicStopTwice(m: MusicPlayer)
    requires m.Valid()
    modifies m.sox
    ensures m.sox.proc == None
    ensures m.sox.onCompleteds == (if old(m.sox.proc).Some? then [] else old(m.sox.onCompleteds))
    ensures m.sox.log == old(m.sox.log) + MusicStopEffects(old(m.sox.proc))
    ensures m.Valid() && m.pausing == old(m.pausing)
    ensures m.sox.playing == old(m.sox.playing) && m.sox.src == old(m.sox.src) && m.sox.delete == old(m.sox.delete)
  {
    m.Stop();
    m.Stop();
  }

  /** Playlist ["a.mp3", "b.mp3"]: `play` starts "a.mp3"; when it exits with
      0 the chain is exactly `next`, which starts "b.mp3"; when that exits
      with 0, `next` wraps around to "a.mp3". */
  method PlaylistAutoAdvance() returns (first: string, second: string, third: string)
    ensures first == "a.mp3" && second == "b.mp3" && third == "a.mp3"
  {
    var m := new MusicPlayer(["a.mp3", "b.mp3"]);
    var started := m.Play(true);
    first := m.sox.src;
    m.sox.Launch(1, "Linux");
    var fired := m.sox.Complete(0);
    assert fired == [Callback.Next];
    started := m.Next(true);
    second := m.sox.src;
    m.sox.Launch(2, "Linux");
    fired := m.sox.Complete(0);
    assert fired == [Callback.Next];
    started := m.Next(true);
    third := m.sox.src;
  }

  /** Two callbacks appended to a playing track, then `pause` and `resume`:
      on completion only the playlist's `next` fires. */
  method PauseResumeKeepsOnlyNext() returns (fired: seq<Callback>)
    ensures fired == [Callback.Next]
  {
    var m := new MusicPlayer(["a.mp3"]);
    var started := m.Play(true);
    m.sox.Launch(7, "Darwin");
    m.sox.AppendOnCompleted(Some(User(1)));
    m.sox.AppendOnCompleted(Some(User(2)));
    m.Pause();
    m.Resume();
    fired := m.sox.Complete(0);
  }

  /** A one-track playlist player whose track runs as process 7 and has
      been paused. */
  method PausedPlayer() returns (m: MusicPlayer)
    ensures fresh(m) && fresh(m.sox)
    ensures m.pausing && m.sox.proc == Some(7)
  {
    m := new MusicPlayer(["a.mp3"]);
    var started := m.Play(true);
    m.sox.Launch(7, "Darwin");
    m.Pause();
  }

  /** Volume 95 on macOS, paused: `turnUp` speaks the maximum notice once,
      sets 100 and resumes the process. */
  method TurnUpAt95() returns (effects: seq<Event>, paused: bool)
    ensures effects == [Said(MaxNotice), VolumeSet(100), Signalled(7, SigCont)]
    ensures !paused
  {
    var m := PausedPlayer();
    var before := m.sox.log;
    var action := SetLevel(100, Some(MaxNotice));
    assert UpAction("Darwin", "95\n", Some(95)) == action by {
      assert Raise(95) == Clamped(100, true);
    }
    assert ActionEvents(action) == [Said(MaxNotice), VolumeSet(100)];
    assert SignalEffects(Some(7), SigCont) == [Signalled(7, SigCont)];
    var raised := m.TurnUp("Darwin", "95\n", Some(95));
    assert m.sox.log == before + [Said(MaxNotice), VolumeSet(100)] + [Signalled(7, SigCont)];
    effects := m.sox.log[|before|..];
    paused := m.pausing;
  }
}
