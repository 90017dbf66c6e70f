/** Choosing a player implementation from a file name. */
module Dispatch {
  import opened PlaybackTypes
  import opened Text

  /** The one player implementation a file name can select. */
  datatype Backend = SoxBackend

  /** `getPlayerByFileName`: the sox-backed player for a `.mp3` or `.wav`
      extension (as `os.path.splitext` finds it, case-sensitively), no player
      otherwise. */
  function PlayerFor(fname: string): (r: Option<Backend>)
    ensures r.Some? ==> |fname| >= 4 && fname[|fname| - 4..] in {".mp3", ".wav"}
    ensures r.Some? ==> HasNonDot(fname, LastIndexOf(fname, '/') + 1, |fname| - 4)
  {
    var ext := SplitExt(fname).1;
    if ext in [".mp3", ".wav"] then Some(SoxBackend) else None
  }

  /** The last occurrence of a character is unaffected by appending text
      that does not contain it. */
  lemma {:induction false} LastIndexOfAppend(s: string, t: string, c: char)
    requires c !in t
    ensures LastIndexOf(s + t, c) == LastIndexOf(s, c)
  {
    var p := s + t;
    var r := LastIndexOf(s, c);
    assert forall k :: r < k < |p| ==> p[k] != c by {
      forall k | r < k < |p| ensures p[k] != c {
        if k >= |s| {
          assert p[k] == t[k - |s|];
        }
      }
    }
    if r >= 0 {
      assert p[r] == c;
    }
  }

  /** The last dot of a name ending in `.mp3` or `.wav` is the one that
      starts that extension. */
  lemma LastDotOfSuffixed(stem: string, ext: string)
    requires ext == ".mp3" || ext == ".wav"
    ensures LastIndexOf(stem + ext, '.') == |stem|
  {
    var p := stem + ext;
    assert p[|stem|] == '.';
    forall k | |stem| < k < |p| ensures p[k] != '.' {
      assert p[k] == ext[k - |stem|];
    }
  }

  /** A name made of a stem whose last path component holds something
      besides dots, followed by `.mp3` or `.wav`, splits into that stem and
      that extension. */
  lemma SplitExtSuffixed(stem: string, ext: string)
    requires ext == ".mp3" || ext == ".wav"
    requires exists k :: LastIndexOf(stem, '/') < k < |stem| && stem[k] != '.'
    ensures SplitExt(stem + ext) == (stem, ext)
  {
    var p := stem + ext;
    var sep := LastIndexOf(p, '/');
    assert sep == LastIndexOf(stem, '/') by {
      LastIndexOfAppend(stem, ext, '/');
    }
    var dot := LastIndexOf(p, '.');
    LastDotOfSuffixed(stem, ext);
    assert HasNonDot(p, sep + 1, dot) by {
      var k :| sep < k < |stem| && stem[k] != '.';
      assert p[k] == stem[k];
    }
    assert SplitExt(p) == (p[..dot], p[dot..]);
    assert p[..|stem|] == stem && p[|stem|..] == ext;
  }

  /** Conversely to `PlayerFor`'s contract: such a name selects the sox
      player. */
  lemma PlayerForSuffixed(stem: string, ext: string)
    requires ext == ".mp3" || ext == ".wav"
    requires exists k :: LastIndexOf(stem, '/') < k < |stem| && stem[k] != '.'
    ensures PlayerFor(stem + ext) == Some(SoxBackend)
  {
    SplitExtSuffixed(stem, ext);
  }

  /** A hidden file named only by its extension, and an upper-case
      extension, select no player. */
  lemma {:induction false} PlayerForRejectsHiddenAndUpperCase()
    ensures PlayerFor(".mp3") == None
    ensures PlayerFor("music/.wav") == None
    ensures PlayerFor("song.MP3") == None
  {
    var a := ".mp3";
    assert a[0] == '.' && forall k :: 0 < k < |a| ==> a[k] != '.';
    assert LastIndexOf(a, '.') == 0;
    var b := "music/.wav";
    assert b[5] == '/' && forall k :: 5 < k < |b| ==> b[k] != '/';
    assert LastIndexOf(b, '/') == 5;
    assert b[6] == '.' && forall k :: 6 < k < |b| ==> b[k] != '.';
    assert LastIndexOf(b, '.') == 6;
    assert !HasNonDot(b, 6, 6);
    assert "song.MP3"[4..] == ".MP3";
  }
}
