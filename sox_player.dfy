/** The single-track player: one decoder process at a time, a playing flag
    and an ordered chain of completion callbacks that fires only when the
    recorded process exits with status 0. */
module Sox {
  import opened PlaybackTypes
  import opened Text

  /** A source `play` accepts: non-empty, and either an existing path or a
      URL starting with "http". */
  predicate ValidSource(src: string, pathExists: bool) {
    src != "" && (pathExists || StartsWith(src, "http"))
  }

  /** The decoder command line: `afplay` on macOS, sox's `play` elsewhere. */
  function DecoderCommand(system: string, src: string): (argv: seq<string>)
    ensures |argv| == 2 && argv[1] == src
    ensures system == "Darwin" ==> argv[0] == "afplay"
    ensures system != "Darwin" ==> argv[0] == "play"
  {
    [if system == "Darwin" then "afplay" else "play", src]
  }

  /** What `stop` sends to a recorded process, then the deletion it asks for. */
  function StopEffects(proc: Option<nat>, delete: bool, src: string): (evs: seq<Event>)
    ensures proc.None? ==> evs == []
    ensures proc.Some? ==> |evs| >= 2 && evs[..2] == [Terminated(proc.value), Killed(proc.value)]
    ensures proc.Some? ==> (Deleted(src) in evs <==> delete)
    ensures |evs| == (if proc.Some? then 2 + (if delete then 1 else 0) else 0)
  {
    match proc
    case None => []
    case Some(pid) => [Terminated(pid), Killed(pid)] + (if delete then [Deleted(src)] else [])
  }

  class SoxPlayer {
    var playing: bool
    /** The process id of the recorded decoder process, if any. */
    var proc: Option<nat>
    var src: string
    var delete: bool
    var onCompleteds: seq<Callback>
    /** Effects issued so far, oldest first. */
    var log: seq<Event>

    constructor ()
      ensures !playing && proc == None && !delete && onCompleteds == [] && log == []
    {
      playing := false;
      proc := None;
      src := "";
      delete := false;
      onCompleteds := [];
      log := [];
    }

    /** `play`: an invalid source changes nothing; a valid one is recorded
        with its delete flag and the callback, when given, joins the end of
        the chain. `started` says whether the decoder run (`Launch`, then
        `Complete`) is then begun, inline or on its own thread. */
    method Play(src: string, delete: bool, onCompleted: Option<Callback>, pathExists: bool)
      returns (started: bool)
      modifies this
      ensures started == ValidSource(src, pathExists)
      ensures !started ==> unchanged(this)
      ensures started ==> this.src == src && this.delete == delete
                          && onCompleteds == old(onCompleteds) + Listed(onCompleted)
      ensures playing == old(playing) && proc == old(proc) && log == old(log)
    {
      started := ValidSource(src, pathExists);
      if started {
        this.src := src;
        this.delete := delete;
        onCompleteds := onCompleteds + Listed(onCompleted);
      }
    }

    /** The start of `doPlay`: the decoder process `pid` is spawned for the
        recorded source and the player is marked playing. */
    method Launch(pid: nat, system: string)
      modifies this
      ensures proc == Some(pid) && playing
      ensures log == old(log) + [Spawned(pid, DecoderCommand(system, src))]
      ensures src == old(src) && delete == old(delete) && onCompleteds == old(onCompleteds)
    {
      log := log + [Spawned(pid, DecoderCommand(system, src))];
      proc := Some(pid);
      playing := true;
    }

    /** The end of `doPlay`, once the process has exited with `exitCode`:
        the player stops playing, the source is deleted when asked, and the
        chain fires, in order, only if a process is still recorded and it
        exited with 0. The recorded process is not cleared. */
    method Complete(exitCode: int) returns (fired: seq<Callback>)
      modifies this
      ensures !playing
      ensures fired == (if proc.Some? && exitCode == 0 then onCompleteds else [])
      ensures log == old(log) + (if delete then [Deleted(src)] else [])
      ensures proc == old(proc) && src == old(src) && delete == old(delete)
      ensures onCompleteds == old(onCompleteds)
    {
      playing := false;
      if delete {
        log := log + [Deleted(src)];
      }
      fired := [];
      if proc.Some? && exitCode == 0 {
        var i := 0;
        while i < |onCompleteds|
          invariant 0 <= i <= |onCompleteds|
          invariant fired == onCompleteds[..i]
        {
          fired := fired + [onCompleteds[i]];
          i := i + 1;
        }
      }
    }

    /** `preappendCompleted`: a given callback goes to the front of the chain. */
    method PreappendCompleted(onCompleted: Option<Callback>)
      modifies this
      ensures onCompleteds == Listed(onCompleted) + old(onCompleteds)
      ensures playing == old(playing) && proc == old(proc) && src == old(src)
      ensures delete == old(delete) && log == old(log)
    {
      onCompleteds := Listed(onCompleted) + onCompleteds;
    }

    /** `appendOnCompleted`: a given callback goes to the end of the chain. */
    method AppendOnCompleted(onCompleted: Option<Callback>)
      modifies this
      ensures onCompleteds == old(onCompleteds) + Listed(onCompleted)
      ensures playing == old(playing) && proc == old(proc) && src == old(src)
      ensures delete == old(delete) && log == old(log)
    {
      onCompleteds := onCompleteds + Listed(onCompleted);
    }

    /** `stop`: nothing happens unless a process is recorded; otherwise the
        chain is emptied, the process terminated and killed and forgotten,
        and the source deleted when asked. The playing flag is left to the
        run that waits on the process. */
    method Stop()
      modifies this
      ensures old(proc).None? ==> unchanged(this)
      ensures proc == None
      ensures old(proc).Some? ==> onCompleteds == []
      ensures old(proc).None? ==> onCompleteds == old(onCompleteds)
      ensures log == old(log) + StopEffects(old(proc), delete, src)
      ensures playing == old(playing) && src == old(src) && delete == old(delete)
    {
      if proc.Some? {
        var pid := proc.value;
        onCompleteds := [];
        log := log + [Terminated(pid), Killed(pid)];
        proc := None;
        if delete {
          log := log + [Deleted(src)];
        }
      }
    }

    method IsPlaying() returns (r: bool)
      ensures r == playing
    {
      r := playing;
    }
  }
}
