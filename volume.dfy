/** Volume rules of the playlist player's `turnUp` and `turnDown`: a step of
    20 points, clamping to [20, 100] with a spoken notice at the boundary, a
    relative-step fallback when the Linux mixer reading cannot be parsed, and
    a notice on any other system. The external commands that read and set
    the volume are abstracted: the caller passes what they printed and what
    Python's `int()` makes of it. */
module Volume {
  import opened PlaybackTypes
  import opened Text

  const Step := 20
  const Floor := 20
  const Ceiling := 100

  const MaxNotice := "音量已经最大啦"
  const DarwinMinNotice := "音量已经很小啦"
  const LinuxMinNotice := "音量已经最小啦"
  const UnsupportedNotice := "当前系统不支持调节音量"

  /** A stepped volume and whether the boundary clamp fired. */
  datatype Clamped = Clamped(level: int, atLimit: bool)

  /** One step up, capped at the ceiling. */
  function Raise(v: int): (c: Clamped)
    ensures c.atLimit <==> v + Step >= Ceiling
    ensures c.level <= Ceiling
    ensures c.level == v + Step || c.level == Ceiling
    ensures c.level <= v + Step
    ensures 0 <= v ==> Floor <= c.level
  {
    var up := v + Step;
    if up >= Ceiling then Clamped(Ceiling, true) else Clamped(up, false)
  }

  /** One step down, held at the floor. */
  function Lower(v: int): (c: Clamped)
    ensures c.atLimit <==> v - Step <= Floor
    ensures Floor <= c.level
    ensures c.level == v - Step || c.level == Floor
    ensures c.level >= v - Step
    ensures v <= Ceiling ==> c.level <= Ceiling
  {
    var down := v - Step;
    if down <= Floor then Clamped(Floor, true) else Clamped(down, false)
  }

  /** What one volume command does. */
  datatype Action =
    | SetLevel(level: int, notice: Option<string>)  // absolute set, after an optional notice
    | Nudge(arg: string)                            // relative `amixer` step
    | NotSupported                                  // only the notice
    | ParseError                                    // `int()` raised; nothing else happens

  /** The Linux up-branch test: a non-empty reading that ends with `%` once
      stripped. */
  predicate LinuxReadingParses(out: string) {
    out != "" && EndsWith(Strip(out), '%')
  }

  /** `turnUp`'s decision. `parsed` is what `int()` gives on the text the
      branch hands it (None when it raises). */
  function UpAction(system: string, out: string, parsed: Option<int>): (a: Action)
    ensures a.NotSupported? <==> system != "Darwin" && system != "Linux"
    ensures a.Nudge? <==> system == "Linux" && !LinuxReadingParses(out)
    ensures a.Nudge? ==> a.arg == "20%+"
    ensures a.ParseError? <==> parsed.None? && (system == "Darwin" || (system == "Linux" && LinuxReadingParses(out)))
    ensures a.SetLevel? ==> parsed.Some?
                            && (a.notice.Some? <==> parsed.value + Step >= Ceiling)
                            && (a.notice.Some? ==> a.notice.value == MaxNotice && a.level == Ceiling)
                            && (a.notice.None? ==> a.level == parsed.value + Step)
    ensures a.SetLevel? && 0 <= parsed.value <= Ceiling ==> Floor <= a.level <= Ceiling
  {
    if system == "Darwin" || (system == "Linux" && LinuxReadingParses(out)) then
      match parsed
      case None => ParseError
      case Some(v) =>
        var c := Raise(v);
        SetLevel(c.level, if c.atLimit then Some(MaxNotice) else None)
    else if system == "Linux" then Nudge("20%+")
    else NotSupported
  }

  /** The minimum notice: macOS and Linux word it differently. */
  function MinNotice(system: string): string {
    if system == "Darwin" then DarwinMinNotice else LinuxMinNotice
  }

  /** The step down once a reading has been obtained. */
  function DownFrom(system: string, parsed: Option<int>): (a: Action)
    ensures a.ParseError? <==> parsed.None?
    ensures parsed.Some? <==> a.SetLevel?
    ensures a.SetLevel? ==> Floor <= a.level
                            && (a.notice.Some? ==> a.notice.value == MinNotice(system))
                            && (a.notice.Some? <==> parsed.value - Step <= Floor)
                            && (a.notice.Some? ==> a.level == Floor)
                            && (a.notice.None? ==> a.level == parsed.value - Step)
  {
    match parsed
    case None => ParseError
    case Some(v) =>
      var c := Lower(v);
      SetLevel(c.level, if c.atLimit then Some(MinNotice(system)) else None)
  }

  /** `turnDown`'s decision exactly as the source writes it: the Linux branch
      tests `endswith("%")` on the raw reading, without stripping it first. */
  function DownActionAsWritten(system: string, out: string, parsed: Option<int>): (a: Action)
    ensures a.Nudge? <==> system == "Linux" && !(out != "" && EndsWith(out, '%'))
    ensures a.Nudge? ==> a.arg == "20%-"
    ensures a.NotSupported? <==> system != "Darwin" && system != "Linux"
    ensures !a.Nudge? && !a.NotSupported? ==> a == DownFrom(system, parsed)
  {
    if system == "Darwin" || (system == "Linux" && out != "" && EndsWith(out, '%')) then
      DownFrom(system, parsed)
    else if system == "Linux" then Nudge("20%-")
    else NotSupported
  }

  /** `turnDown`'s decision with the Linux reading stripped before the `%`
      test, as `turnUp` does it. */
  function DownAction(system: string, out: string, parsed: Option<int>): (a: Action)
    ensures a.NotSupported? <==> system != "Darwin" && system != "Linux"
    ensures a.Nudge? <==> system == "Linux" && !LinuxReadingParses(out)
    ensures a.Nudge? ==> a.arg == "20%-"
    ensures a.ParseError? <==> parsed.None? && (system == "Darwin" || (system == "Linux" && LinuxReadingParses(out)))
    ensures a.SetLevel? ==> parsed.Some?
                            && (a.notice.Some? <==> parsed.value - Step <= Floor)
                            && (a.notice.Some? ==> a.notice.value == MinNotice(system) && a.level == Floor)
                            && (a.notice.None? ==> a.level == parsed.value - Step)
    ensures a.SetLevel? && 0 <= parsed.value <= Ceiling ==> Floor <= a.level <= Ceiling
  {
    if system == "Darwin" || (system == "Linux" && LinuxReadingParses(out)) then
      DownFrom(system, parsed)
    else if system == "Linux" then Nudge("20%-")
    else NotSupported
  }

  /** The effects of an action, in the order the source issues them. */
  function ActionEvents(a: Action): (evs: seq<Event>)
    ensures a.SetLevel? ==> |evs| > 0 && evs[|evs| - 1] == VolumeSet(a.level)
    ensures a.SetLevel? && a.notice.Some? ==> evs[0] == Said(a.notice.value)
    ensures a.SetLevel? && a.notice.None? ==> forall e :: e in evs ==> !e.Said?
    ensures a.Nudge? ==> evs == [VolumeNudged(a.arg)]
    ensures a.NotSupported? ==> evs == [Said(UnsupportedNotice)]
    ensures |evs| == (match a
                      case SetLevel(_, notice) => if notice.Some? then 2 else 1
                      case Nudge(_) => 1
                      case NotSupported => 1
                      case ParseError => 0)
  {
    match a
    case SetLevel(level, notice) =>
      (if notice.Some? then [Said(notice.value)] else []) + [VolumeSet(level)]
    case Nudge(arg) => [VolumeNudged(arg)]
    case NotSupported => [Said(UnsupportedNotice)]
    case ParseError => []
  }

  /** The Linux reading a mixer query prints ends in a newline, so the
      source's `turnDown` never takes the clamped path for it: a reading of
      35% is nudged down by 20 to 15%, below the floor, and no notice is
      spoken, while `turnUp` on the same reading sets an absolute level. */
  lemma DownSkipsFloorAsWritten()
    ensures UpAction("Linux", "35%\n", Some(35)) == SetLevel(55, None)
    ensures DownActionAsWritten("Linux", "35%\n", Some(35)) == Nudge("20%-")
  {
    var out := "35%\n";
    assert Strip(out) == "35%" by {
      assert SpanStart(out, 0) == 0;
      assert SpanEnd(out, 0, 4) == 3 by {
        assert IsSpace(out[3]) && !IsSpace(out[2]);
      }
    }
    assert LinuxReadingParses(out);
    assert UpAction("Linux", out, Some(35)) == SetLevel(55, None) by {
      assert Raise(35) == Clamped(55, false);
    }
    assert DownActionAsWritten("Linux", out, Some(35)) == Nudge("20%-") by {
      assert !EndsWith(out, '%');
    }
  }

  /** With the reading stripped first, any Linux reading that ends in `%`
      followed only by whitespace takes the clamped path whenever it parses:
      the level never drops below the floor. */
  lemma DownClampsPaddedReading(t: string, w: string, v: int)
    requires EndsWith(t, '%') && AllSpace(w)
    ensures DownAction("Linux", t + w, Some(v)).SetLevel?
    ensures DownAction("Linux", t + w, Some(v)).level >= Floor
    ensures v - Step <= Floor <==> DownAction("Linux", t + w, Some(v)) == SetLevel(Floor, Some(LinuxMinNotice))
  {
    StripKeepsLastMark(t, w, '%');
  }

  /** Whenever the source's Linux `turnDown` test passes, the stripped test
      `turnUp` uses passes too, so stripping only adds readings. */
  lemma DownAsWrittenAgreesWhenUnpadded(system: string, out: string, parsed: Option<int>)
    requires !DownActionAsWritten(system, out, parsed).Nudge?
    ensures DownAction(system, out, parsed) == DownActionAsWritten(system, out, parsed)
  {
  }
}
