/** The string operations the player relies on, as Python defines them:
    `str.isspace`, `str.strip`, `str.endswith`, `str.startswith`, `str.rfind`
    and `os.path.splitext` on a POSIX host. */
module Text {

  /** Python's `str.isspace` for one character. */
  predicate IsSpace(c: char) {
    var n := c as int;
    (9 <= n <= 13) || (28 <= n <= 32) || n == 0x85 || n == 0xA0 || n == 0x1680
    || (0x2000 <= n <= 0x200A) || n == 0x2028 || n == 0x2029 || n == 0x202F
    || n == 0x205F || n == 0x3000
  }

  predicate AllSpace(s: string) {
    forall k :: 0 <= k < |s| ==> IsSpace(s[k])
  }

  /** The first index at or after `i` that does not hold whitespace, or
      `|s|`: where `s.strip()` starts. */
  function SpanStart(s: string, i: nat): (a: nat)
    requires i <= |s|
    ensures i <= a <= |s|
    ensures forall k :: i <= k < a ==> IsSpace(s[k])
    ensures a == |s| || !IsSpace(s[a])
    decreases |s| - i
  {
    if i < |s| && IsSpace(s[i]) then SpanStart(s, i + 1) else i
  }

  /** The index just past the last character of `s[lo..j]` that is not
      whitespace, or `lo`: where `s.strip()` ends. */
  function SpanEnd(s: string, lo: nat, j: nat): (b: nat)
    requires lo <= j <= |s|
    ensures lo <= b <= j
    ensures forall k :: b <= k < j ==> IsSpace(s[k])
    ensures b == lo || !IsSpace(s[b - 1])
    decreases j - lo
  {
    if lo < j && IsSpace(s[j - 1]) then SpanEnd(s, lo, j - 1) else j
  }

  /** `s.strip()`: `s` without its leading and trailing whitespace. */
  function Strip(s: string): (r: string)
    ensures r == [] || (!IsSpace(r[0]) && !IsSpace(r[|r| - 1]))
    ensures r == [] <==> AllSpace(s)
  {
    var a := SpanStart(s, 0);
    var b := SpanEnd(s, a, |s|);
    // an empty strip means the left scan already ran off the end
    assert b == a ==> a == |s|;
    assert a < b ==> !IsSpace(s[a]);
    s[a..b]
  }

  /** What `s.strip()` keeps is one slice of `s`, with only whitespace
      before and after it. */
  lemma StripIsSlice(s: string)
    ensures exists a :: 0 <= a <= a + |Strip(s)| <= |s| && Strip(s) == s[a..a + |Strip(s)|]
                        && AllSpace(s[..a]) && AllSpace(s[a + |Strip(s)|..])
  {
    var a := SpanStart(s, 0);
    var b := SpanEnd(s, a, |s|);
    var front, back := s[..a], s[b..];
    forall k | 0 <= k < |front| ensures IsSpace(front[k]) {
      assert front[k] == s[k];
    }
    forall k | 0 <= k < |back| ensures IsSpace(back[k]) {
      assert back[k] == s[b + k];
    }
    assert Strip(s) == s[a..b];
  }

  predicate EndsWith(s: string, c: char) {
    |s| > 0 && s[|s| - 1] == c
  }

  predicate StartsWith(s: string, prefix: string) {
    |prefix| <= |s| && s[..|prefix|] == prefix
  }

  /** Text followed only by whitespace still ends with its last visible
      character once stripped. */
  lemma StripKeepsLastMark(t: string, w: string, c: char)
    requires EndsWith(t, c) && !IsSpace(c)
    requires AllSpace(w)
    ensures EndsWith(Strip(t + w), c)
  {
    var s := t + w;
    var m := |t| - 1;
    assert s[m] == c;
    // the strip starts at or before the mark, since it is not whitespace
    var a := SpanStart(s, 0);
    assert a <= m;
    // and ends exactly after it, since only whitespace follows
    var b := SpanEnd(s, a, |s|);
    assert m < b;
    assert forall k :: m < k < |s| ==> IsSpace(s[k]) by {
      forall k | m < k < |s| ensures IsSpace(s[k]) {
        assert s[k] == w[k - |t|];
      }
    }
    assert !IsSpace(s[b - 1]);
    assert Strip(s) == s[a..b];
  }

  /** `s.rfind(c)`: the last index holding `c`, or -1. */
  function LastIndexOf(s: string, c: char): (r: int)
    ensures -1 <= r < |s|
    ensures r >= 0 ==> s[r] == c
    ensures forall k :: r < k < |s| ==> s[k] != c
  {
    if s == [] then -1
    else if s[|s| - 1] == c then |s| - 1
    else LastIndexOf(s[..|s| - 1], c)
  }

  /** True when some character of `p[lo..hi]` is not a dot. */
  predicate HasNonDot(p: string, lo: int, hi: int)
    requires 0 <= lo <= hi <= |p|
  {
    exists k :: lo <= k < hi && p[k] != '.'
  }

  /** `os.path.splitext(p)` with `/` as separator: the extension starts at the
      last dot of the last path component, unless everything before that dot
      in the component is dots (a hidden file such as `.wav` has none). */
  function SplitExt(p: string): (parts: (string, string))
    ensures parts.0 + parts.1 == p
    ensures parts.1 == [] || (parts.1[0] == '.' && '.' !in parts.1[1..] && '/' !in parts.1)
    ensures parts.1 != [] ==> HasNonDot(p, LastIndexOf(p, '/') + 1, |parts.0|)
  {
    var sep := LastIndexOf(p, '/');
    var dot := LastIndexOf(p, '.');
    if dot > sep && HasNonDot(p, sep + 1, dot) then (p[..dot], p[dot..]) else (p, [])
  }

  /** Conversely, a dot in the last path component with something besides
      dots before it in that component always yields an extension. */
  lemma SplitExtFindsDot(p: string, d: int)
    requires LastIndexOf(p, '/') < d < |p| && p[d] == '.'
    requires HasNonDot(p, LastIndexOf(p, '/') + 1, d)
    ensures SplitExt(p).1 != []
  {
    var sep := LastIndexOf(p, '/');
    var dot := LastIndexOf(p, '.');
    var k :| sep + 1 <= k < d && p[k] != '.';
    assert d <= dot;
    assert HasNonDot(p, sep + 1, dot) by {
      assert sep + 1 <= k < dot && p[k] != '.';
    }
  }
}
