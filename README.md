# Playback controller of wukong-robot (`robot/Player.py`)

This project models the playback core of wukong-robot's `robot/Player.py` in Dafny.

- `SoxPlayer` plays one track through an external decoder process. It keeps a playing flag, the recorded process, the source, a delete-after-play flag and an ordered chain of completion callbacks. The chain fires only when the recorded process exits with status 0.
- `MusicPlayer` adds a playlist, a current index and a pause flag. It registers its own `next` as the completion callback, so a track that finishes normally advances the playlist, wrapping at the end.
- `turnUp`/`turnDown` step the system volume by 20 points, clamp it to [20, 100] with a spoken notice at the boundary, fall back to a relative mixer step when the Linux reading does not end in `%`, and then resume playback. When `int()` cannot parse the reading, its `ValueError` propagates: nothing is set and playback is not resumed.
- `getPlayerByFileName` chooses the sox-backed player for `.mp3` and `.wav` names.

Files:

- `playback_types.dfy`: callback tokens (`Next`, `User(id)`) and the `Event` log of outside effects.
- `text.dfy`: the Python string operations the player relies on. These are `str.strip`, `str.endswith`, `str.startswith`, `str.rfind` and POSIX `os.path.splitext`. `Strip` scans for the first and last non-whitespace index and takes the slice between them, as CPython does.
- `dispatch.dfy`: `getPlayerByFileName`.
- `volume.dfy`: the volume step, clamp and fallback rules as pure functions.
- `sox_player.dfy`: class `SoxPlayer`.
- `music_player.dfy`: class `MusicPlayer` and the index arithmetic.
- `scenarios.dfy`: client methods for properties that take several calls.

Modelling choices:

- Dafny has no class inheritance here. `MusicPlayer` therefore holds its single-track player in a `const sox: SoxPlayer` field. Where the source calls `super().stop()` or `super().play(...)`, the model calls `sox.Stop()` or `sox.Play(...)`. The override `MusicPlayer.Stop` edits `sox`'s fields directly.
- `doPlay` is split at its blocking `wait()`. `SoxPlayer.Launch(pid, system)` is the part before it: spawn, record, mark playing. `SoxPlayer.Complete(exitCode)` is the part after it. `Complete` returns the callbacks to fire, in order, instead of invoking them. The caller then invokes them, which for `Next` means calling `MusicPlayer.Next`.
- The decoder process is its id (`proc: Option<nat>`).
- Effects go into `log: seq<Event>`, appended in the order the source issues them. These effects are spawning, `terminate`/`kill`, SIGSTOP/SIGCONT, `utils.check_and_delete`, `plugin.say` and the volume-setting commands.
- These inputs become method parameters: `os.path.exists(src)` (`pathExists`), `platform.system()` (`system`), the new process's pid, its exit code, the volume command's printed reading (`out`) and what `int()` makes of it (`parsed`, `None` when it raises `ValueError`).
- The model follows the code, including where it may surprise a reader:
  - A process that ends on its own stays recorded: `doPlay` never clears `proc`. A later `stop` still sends `terminate`/`kill` to it.
  - `MusicPlayer.play` appends `next` to the existing chain when no process is recorded. The chain is guaranteed to be exactly `[next]` only when a process was recorded, because `stop` then cleared it; otherwise it is the old chain followed by `next`.
  - `update_playlist` uses the base `stop`, not the override.
  - Neither `stop` clears the playing flag. Only `Complete` does.

## Model

| member | source | states |
|---|---|---|
| Text.Strip | robot/Player.py:220 | `str.strip()`: the result neither starts nor ends with whitespace, and it is empty exactly when the input is all whitespace |
| Text.StripIsSlice | robot/Player.py:220 | what `str.strip()` keeps is one contiguous slice of the input, with only whitespace before it and only whitespace after it |
| Text.StripKeepsLastMark | robot/Player.py:220 | text ending in a visible character, followed only by whitespace, still ends with that character after stripping |
| Text.LastIndexOf | robot/Player.py:42 | `rfind`: -1 or an index holding the character, with no occurrence after it |
| Text.SplitExt | robot/Player.py:42 | `os.path.splitext`: root + extension is the name; the extension is empty or one dot followed by no dot or `/`; an extension needs a non-dot character before it in the last path component |
| Text.SplitExtFindsDot | robot/Player.py:42 | conversely, a dot in the last path component with a non-dot character before it in that component always yields a non-empty extension |
| Dispatch.PlayerFor | robot/Player.py:41-44 | a player is chosen only for names whose last four characters are `.mp3` or `.wav` and whose last path component holds a non-dot character before that extension |
| Dispatch.LastDotOfSuffixed | robot/Player.py:42 | in a name ending in `.mp3` or `.wav` the last dot is the one that starts that extension |
| Dispatch.SplitExtSuffixed | robot/Player.py:42 | a stem whose last component is not all dots, plus `.mp3`/`.wav`, splits into exactly that stem and extension |
| Dispatch.PlayerForSuffixed | robot/Player.py:41-44 | conversely, every such name selects the sox player |
| Dispatch.PlayerForRejectsHiddenAndUpperCase | robot/Player.py:41-44 | `.mp3`, `music/.wav` and `song.MP3` select no player |
| Volume.Raise | robot/Player.py:205-209 | one step up is exactly min(v+20, 100): never above v+20 or 100 and equal to one of them, the boundary flag exactly when v+20 >= 100, at least 20 for v >= 0 |
| Volume.Lower | robot/Player.py:242-246 | one step down is exactly max(v-20, 20): never below v-20 or 20 and equal to one of them, the boundary flag exactly when v-20 <= 20, at most 100 for v <= 100 |
| Volume.UpAction | robot/Player.py:196-230 | `turnUp`'s decision: unsupported notice exactly off macOS/Linux; "20%+" exactly for an unparseable Linux reading; `int()` failure exactly on the parsing paths; otherwise an absolute level with the maximum notice iff v+20 >= 100, inside [20,100] for v in [0,100] |
| Volume.DownFrom | robot/Player.py:242-263 | the step down from a reading: a parse error exactly when `int()` failed, otherwise a set to max(v-20, 20); the minimum notice (macOS or Linux wording by system) is spoken exactly when v-20 <= 20, and then the level is 20, else it is v-20 |
| Volume.DownActionAsWritten | robot/Player.py:233-267 | `turnDown`'s decision as written: the unsupported notice exactly off macOS/Linux; "20%-" exactly on Linux when the raw reading is empty or does not end with `%`; every other case is `DownFrom` of the reading |
| Volume.DownAction | robot/Player.py:233-267 | `turnDown`'s decision with the Linux reading stripped before the `%` test: same case split as `UpAction`; on the parsing paths a set to max(v-20, 20) with the per-system minimum notice exactly when v-20 <= 20; level inside [20,100] for v in [0,100] |
| Volume.DownSkipsFloorAsWritten | robot/Player.py:257-265 | for the Linux reading "35%\n", `turnDown` as written nudges by "20%-" while `turnUp` sets an absolute level |
| Volume.ActionEvents | robot/Player.py:207-230 | the effects of a decision in the source's order: a notice is spoken before the level is set, and nothing is spoken without one; a relative step is the one `amixer` nudge; an unsupported system only hears the unsupported notice; a parse error does nothing |
| Volume.DownClampsPaddedReading | robot/Player.py:257-263 | with the corrected test, a reading ending in `%` plus whitespace always takes the clamped path: level >= 20, minimum notice iff v-20 <= 20 |
| Volume.DownAsWrittenAgreesWhenUnpadded | robot/Player.py:257 | wherever the as-written test takes a parsing path, the corrected test decides the same |
| Sox.DecoderCommand | robot/Player.py:75-79 | the decoder is `afplay` on macOS and `play` on every other system, with the source as its only argument |
| Sox.StopEffects | robot/Player.py:115-122 | `stop` sends nothing without a process; with one it sends exactly terminate then kill, plus one delete of the source exactly when the delete flag is set |
| Sox.SoxPlayer.constructor | robot/Player.py:67-72 | a new player is not playing, has no process, no delete flag and an empty chain |
| Sox.SoxPlayer.Play | robot/Player.py:94-104 | an invalid source (empty, or neither existing nor starting with "http") changes nothing; a valid one records source and delete flag and appends the callback at the end only when one is given |
| Sox.SoxPlayer.Launch | robot/Player.py:74-84 | spawns the decoder for the recorded source, records the process and sets playing |
| Sox.SoxPlayer.Complete | robot/Player.py:85-92 | playing becomes false; the source is deleted iff asked; the chain is returned in stored order iff a process is still recorded and the exit code is 0, else nothing fires; the process stays recorded |
| Sox.SoxPlayer.PreappendCompleted | robot/Player.py:106-107 | a given callback is inserted at the front, the rest keep their order; an absent one changes nothing |
| Sox.SoxPlayer.AppendOnCompleted | robot/Player.py:109-110 | a given callback is added at the end, the rest keep their order; an absent one changes nothing |
| Sox.SoxPlayer.Stop | robot/Player.py:115-122 | no process: nothing changes; otherwise the chain is empty, no process is recorded, terminate/kill (and the delete when asked) are issued, playing, source and delete flag unchanged |
| Sox.SoxPlayer.IsPlaying | robot/Player.py:124-125 | reports the playing flag |
| Music.NextIndex | robot/Player.py:159 | the index after `next` stays in [0, n), is i+1 before the last track and 0 after it |
| Music.PrevIndex | robot/Player.py:165 | the index after `prev` stays in [0, n), is i-1 after the first track and n-1 at index 0 |
| Music.NextPrevInverse | robot/Player.py:156-166 | `prev` undoes `next` and `next` undoes `prev` |
| Music.Advance | robot/Player.py:154-160 | the index after k finished tracks is a valid index |
| Music.AdvanceAdd | robot/Player.py:154-160 | advancing a then b tracks is advancing a+b tracks |
| Music.AdvanceWithin | robot/Player.py:154-160 | before the end of the list each finished track moves to the following one |
| Music.AdvanceFullCycle | robot/Player.py:154-160 | after n finished tracks on an n-track playlist playback is back on the starting track |
| Music.ReplayChain | robot/Player.py:150-154 | after a replay a started track's chain ends in `next`, and is exactly `[next]` when a process was recorded; an unstarted one with a recorded process leaves the chain empty; without a process the old chain is kept as a prefix, followed by exactly one `next` when started and by nothing otherwise |
| Music.SignalEffects | robot/Player.py:171-172 | a signal is sent exactly when a process is recorded, and to that process |
| Music.MusicStopEffects | robot/Player.py:174-181 | the override sends nothing without a process; with one it sends SIGSTOP and then exactly the base `stop`'s terminate and kill, without any delete |
| Music.MusicPlayer.constructor | robot/Player.py:137-142 | a new playlist player starts at index 0, not paused, with an idle single-track player |
| Music.MusicPlayer.UpdatePlaylist | robot/Player.py:144-148 | stops, installs the new non-empty list with index 0, and plays its first track |
| Music.MusicPlayer.Play | robot/Player.py:150-154 | stops via the base `stop`, then plays `playlist[idx]` without delete and with `next` as callback: chain per `ReplayChain`, no process recorded afterwards |
| Music.MusicPlayer.Next | robot/Player.py:156-160 | stops, moves the index by `NextIndex`, plays the new track; index stays valid, playlist and pause flag unchanged |
| Music.MusicPlayer.Prev | robot/Player.py:162-166 | stops, moves the index by `PrevIndex`, plays the new track; index stays valid, playlist and pause flag unchanged |
| Music.MusicPlayer.Pause | robot/Player.py:168-172 | sets the pause flag, suspends the recorded process, leaves the chain and everything else unchanged |
| Music.MusicPlayer.Stop | robot/Player.py:174-181 | no process: nothing changes; otherwise the chain is empty and no process recorded after SIGSTOP/terminate/kill; pause flag, index, playlist and playing untouched |
| Music.MusicPlayer.Resume | robot/Player.py:183-188 | clears the pause flag, makes the chain exactly `[next]` whatever it was, continues the recorded process |
| Music.MusicPlayer.IsPlaying | robot/Player.py:190-191 | reports the playing flag |
| Music.MusicPlayer.IsPausing | robot/Player.py:193-194 | reports the pause flag |
| Music.MusicPlayer.TurnUp | robot/Player.py:196-231 | applies `UpAction` then resumes; if `int()` raises, nothing changes and playback is not resumed |
| Music.MusicPlayer.TurnDown | robot/Player.py:233-268 | applies the corrected `DownAction` then resumes; if `int()` raises, nothing changes and playback is not resumed |
| Scenarios.StopTwice | robot/Player.py:115-122 | two `stop`s in a row have exactly the effect of one: the same log, chain and process, with playing, source and delete flag unchanged |
| Scenarios.StopBeforeCompletion | robot/Player.py:84-122 | a `stop` between launch and completion suppresses the chain for every exit code |
| Scenarios.LaunchThenComplete | robot/Player.py:81-92 | without a `stop` a launched track fires its whole chain iff it exits with 0 |
| Scenarios.MusicStopTwice | robot/Player.py:174-181 | two overriding `stop`s have exactly the effect of one: the same log, chain and process, with playing, source, delete flag, pause flag and index unchanged |
| Scenarios.PlaylistAutoAdvance | robot/Player.py:150-160 | playlist ["a.mp3","b.mp3"] plays a, then b on a 0 exit, then wraps back to a |
| Scenarios.PauseResumeKeepsOnlyNext | robot/Player.py:168-188 | with two extra callbacks appended, pause then resume leaves only `next` to fire on completion |
| Scenarios.TurnUpAt95 | robot/Player.py:196-231 | at 95 on macOS `turnUp` speaks the maximum notice once, sets 100 and resumes the process |

## Left out

- Process plumbing: `subprocess.Popen`, `wait()`, `terminate()`/`kill()` and `os.kill` are abstract events in the log. The process is only its id. A failure to spawn is not modelled.
- The log records that `terminate`, `kill` or a signal was issued to the recorded process, not whether it reached it. After a track ends on its own the process stays recorded, and the source then reacts differently. `Popen.terminate`/`kill` do nothing for a process already waited on. `os.kill` in `pause`, `resume` and the overriding `stop` raises `ProcessLookupError`. The model does not capture either outcome.
- `thread.start_new_thread` and the `wait` argument of `play`. They only choose whether `doPlay` runs inline or on its own thread. The model exposes `Launch` and `Complete` for the caller to run. Races between `stop` and a finishing `doPlay` are not modelled.
- Re-entry from the fired `next` into `play`: `Complete` returns the callbacks and the caller invokes them.
- `no_alsa_error` and the ctypes error handler: these are a foreign C library call.
- The volume query/set commands (`osascript`, `amixer`) and `int()` parsing are inputs. A volume set is recorded as its level, and the relative fallback as its argument, not as the full command line.
- Logging through `logger` has no effect in the model.
- `play_block` calls a method `run` that does not exist.
- The module-level `play` is a thin wrapper that fails when no player is chosen.
- `AbstractPlayer` is a no-op interface with no logic.
- Empty playlists: `MusicPlayer.constructor` and `MusicPlayer.UpdatePlaylist` require a non-empty list. The source fails on one with `ZeroDivisionError`/`IndexError` at the first `play`, `next` or `prev`.
- `src` is unset in the source until the first valid `play`. The model starts it as "".
- Windows path rules of `os.path.splitext` (a `\` separator) are not modelled; POSIX rules are.
- Music.MusicPlayer.TurnDown: follows the corrected Linux test (see Findings), not the un-stripped test the source has; the source's test is `Volume.DownActionAsWritten`.

## Findings

| source | as written | input that shows it | evidently intended | confidence | as-written member | corrected member |
|---|---|---|---|---|---|---|
| robot/Player.py:257 | `turnDown` on Linux tests `res.stdout.endswith("%")` without `strip()`, unlike `turnUp` at line 220 | the mixer pipeline ends its output with awk's newline, e.g. "35%\n": `turnDown` skips the clamp, runs `amixer set Master 20%-` (35% to 15%, below the 20% floor) and speaks no minimum notice | strip the reading before the `%` test, as `turnUp` does, so the clamp to 20 and its notice apply | medium, not executed | Volume.DownSkipsFloorAsWritten | Volume.DownClampsPaddedReading |
