/**
 * The few `str` methods the pipeline uses: `strip`, `startswith`, `endswith`,
 * `replace(old, new, 1)`, `rsplit(sep, 1)[0]`, slicing, and decimal rendering
 * of a non-negative `int`. Whitespace is the ASCII subset of what Python's
 * `str.isspace` accepts.
 */
module Text {

  /** Tab, line feed, vertical tab, form feed, carriage return, the four separators 0x1C-0x1F, and space. */
  predicate IsSpace(c: char) {
    var n := c as int;
    n == 32 || 9 <= n <= 13 || 28 <= n <= 31
  }

  predicate IsBlank(s: string) {
    forall i :: 0 <= i < |s| ==> IsSpace(s[i])
  }

  /** No whitespace at either end. */
  predicate IsTrimmed(s: string) {
    s == [] || (!IsSpace(s[0]) && !IsSpace(s[|s| - 1]))
  }

  /** How many whitespace characters `s` starts with. */
  function LeadingSpaces(s: string): (n: nat)
    ensures n <= |s|
  {
    if s != [] && IsSpace(s[0]) then 1 + LeadingSpaces(s[1..]) else 0
  }

  /** How many whitespace characters `s` ends with. */
  function TrailingSpaces(s: string): (n: nat)
    ensures n <= |s|
  {
    if s != [] && IsSpace(s[|s| - 1]) then 1 + TrailingSpaces(s[..|s| - 1]) else 0
  }

  /** `s.lstrip()` */
  function TrimLeft(s: string): string {
    s[LeadingSpaces(s)..]
  }

  /** `s.rstrip()` */
  function TrimRight(s: string): string {
    s[..|s| - TrailingSpaces(s)]
  }

  /** `s.strip()` */
  function Strip(s: string): string {
    TrimRight(TrimLeft(s))
  }

  /** The leading run is whitespace, and the character after it is not. */
  lemma {:induction false} LeadingSpacesSpec(s: string)
    ensures IsBlank(s[..LeadingSpaces(s)])
    ensures LeadingSpaces(s) < |s| ==> !IsSpace(s[LeadingSpaces(s)])
  {
    if s != [] && IsSpace(s[0]) {
      var t := s[1..];
      LeadingSpacesSpec(t);
      var n := LeadingSpaces(t);
      var run := s[..1 + n];
      forall i | 0 <= i < |run| ensures IsSpace(run[i]) {
        if i > 0 {
          assert run[i] == t[..n][i - 1];
        }
      }
      if 1 + n < |s| {
        assert s[1 + n] == t[n];
      }
    }
  }

  /** The trailing run is whitespace, and the character before it is not. */
  lemma {:induction false} TrailingSpacesSpec(s: string)
    ensures IsBlank(s[|s| - TrailingSpaces(s)..])
    ensures TrailingSpaces(s) < |s| ==> !IsSpace(s[|s| - TrailingSpaces(s) - 1])
  {
    if s != [] && IsSpace(s[|s| - 1]) {
      var t := s[..|s| - 1];
      TrailingSpacesSpec(t);
      var m := TrailingSpaces(t);
      var run := s[|s| - 1 - m..];
      forall i | 0 <= i < |run| ensures IsSpace(run[i]) {
        if i < m {
          assert run[i] == t[|t| - m..][i];
        }
      }
      if 1 + m < |s| {
        assert s[|s| - m - 2] == t[|t| - m - 1];
      }
    }
  }

  /** All of a blank string is leading whitespace. */
  lemma {:induction false} LeadingSpacesBlank(s: string)
    requires IsBlank(s)
    ensures LeadingSpaces(s) == |s|
  {
    if s != [] {
      assert IsBlank(s[1..]) by {
        forall i | 0 <= i < |s| - 1 ensures IsSpace(s[1..][i]) {
          assert s[1..][i] == s[i + 1];
        }
      }
      LeadingSpacesBlank(s[1..]);
    }
  }

  /** A whitespace prefix adds its length to the leading run. */
  lemma {:induction false} LeadingSpacesPrefix(w: string, s: string)
    requires IsBlank(w)
    ensures LeadingSpaces(w + s) == |w| + LeadingSpaces(s)
  {
    if w != [] {
      var w' := w[1..];
      assert (w + s)[0] == w[0];
      assert (w + s)[1..] == w' + s;
      assert IsBlank(w') by {
        forall i | 0 <= i < |w'| ensures IsSpace(w'[i]) {
          assert w'[i] == w[i + 1];
        }
      }
      LeadingSpacesPrefix(w', s);
    } else {
      assert w + s == s;
    }
  }

  /** A whitespace suffix adds its length to the trailing run. */
  lemma {:induction false} TrailingSpacesSuffix(s: string, w: string)
    requires IsBlank(w)
    ensures TrailingSpaces(s + w) == TrailingSpaces(s) + |w|
  {
    if w != [] {
      var w' := w[..|w| - 1];
      assert (s + w)[|s + w| - 1] == w[|w| - 1];
      assert (s + w)[..|s + w| - 1] == s + w';
      assert IsBlank(w') by {
        forall i | 0 <= i < |w'| ensures IsSpace(w'[i]) {
          assert w'[i] == w[i];
        }
      }
      TrailingSpacesSuffix(s, w');
    } else {
      assert s + w == s;
    }
  }

  /** Stripping leaves a trimmed infix of `s` with only whitespace cut at either end. */
  lemma StripIsTrimmedInfix(s: string)
    ensures IsTrimmed(Strip(s))
    ensures exists i :: 0 <= i <= |s| - |Strip(s)| && Strip(s) == s[i..i + |Strip(s)|]
                     && IsBlank(s[..i]) && IsBlank(s[i + |Strip(s)|..])
  {
    var n := LeadingSpaces(s);
    var l := s[n..];
    var m := TrailingSpaces(l);
    var r := l[..|l| - m];
    assert r == Strip(s);
    LeadingSpacesSpec(s);
    TrailingSpacesSpec(l);
    assert r == s[n..n + |r|];
    assert s[n + |r|..] == l[|l| - m..];
    if r != [] {
      assert r[0] == s[n];
      assert r[|r| - 1] == l[|l| - m - 1];
    }
  }

  /** Stripping text that is already trimmed changes nothing. */
  lemma StripTrimmed(s: string)
    requires IsTrimmed(s)
    ensures Strip(s) == s
  {
    assert LeadingSpaces(s) == 0;
    assert s[0..] == s;
    assert TrailingSpaces(s) == 0;
  }

  /** `not s.strip()` holds exactly of the all-whitespace strings. */
  lemma StripEmptyIffBlank(s: string)
    ensures Strip(s) == [] <==> IsBlank(s)
  {
    if IsBlank(s) {
      LeadingSpacesBlank(s);
    } else {
      NonBlankStrip(s);
    }
  }

  lemma NonBlankStrip(s: string)
    requires !IsBlank(s)
    ensures Strip(s) != []
  {
    var n := LeadingSpaces(s);
    LeadingSpacesSpec(s);
    assert s[..n] != s;
    var l := s[n..];
    assert l[0] == s[n];
    NonSpaceStart(l);
  }

  /** Text that starts with a non-space character keeps it through `rstrip`. */
  lemma NonSpaceStart(l: string)
    requires l != [] && !IsSpace(l[0])
    ensures TrimRight(l) != []
  {
    var m := TrailingSpaces(l);
    TrailingSpacesSpec(l);
    assert l[|l| - m..] != l;
  }

  lemma ConcatAssoc<T>(a: seq<T>, b: seq<T>, c: seq<T>)
    ensures a + b + c == a + (b + c)
  {
  }

  /** Stripping whitespace padding off trimmed text gives the text back. */
  lemma StripPadded(w1: string, s: string, w2: string)
    requires IsBlank(w1) && IsTrimmed(s) && IsBlank(w2)
    ensures Strip(w1 + s + w2) == s
  {
    var t := s + w2;
    ConcatAssoc(w1, s, w2);
    LeadingSpacesPrefix(w1, t);
    if s == [] {
      assert t == w2;
      LeadingSpacesBlank(w2);
    } else {
      assert t[0] == s[0];
      assert LeadingSpaces(t) == 0;
      assert (w1 + t)[|w1|..] == t;
      TrailingSpacesSuffix(s, w2);
      assert TrailingSpaces(s) == 0;
      assert t[..|s|] == s;
    }
  }

  predicate StartsWith(s: string, p: string) {
    |p| <= |s| && s[..|p|] == p
  }

  predicate EndsWith(s: string, p: string) {
    |p| <= |s| && s[|s| - |p|..] == p
  }

  predicate OccursAt(s: string, p: string, j: nat) {
    j + |p| <= |s| && s[j..j + |p|] == p
  }

  /** `s.find(p, from)`: the first position at or after `from` where `p` occurs, or -1. */
  function FindFrom(s: string, p: string, from: nat): (r: int)
    requires from <= |s|
    decreases |s| - from
    ensures r == -1 || (from <= r && OccursAt(s, p, r))
    ensures r == -1 ==> forall j :: from <= j ==> !OccursAt(s, p, j)
    ensures r != -1 ==> forall j :: from <= j < r ==> !OccursAt(s, p, j)
  {
    if from + |p| > |s| then -1
    else if s[from..from + |p|] == p then from
    else FindFrom(s, p, from + 1)
  }

  /** `s.rfind(p)` restricted to start positions up to `upto`: the last one where `p` occurs, or -1. */
  function RFindUpTo(s: string, p: string, upto: nat): (r: int)
    requires upto + |p| <= |s|
    ensures r == -1 || (0 <= r <= upto && OccursAt(s, p, r))
    ensures r == -1 ==> forall j: nat :: j <= upto ==> !OccursAt(s, p, j)
    ensures r != -1 ==> forall j: nat :: r < j <= upto ==> !OccursAt(s, p, j)
  {
    if s[upto..upto + |p|] == p then upto
    else if upto == 0 then -1
    else RFindUpTo(s, p, upto - 1)
  }

  /** `s.replace(p, "", 1)`: deletes the first occurrence of `p`, if any. */
  function RemoveFirst(s: string, p: string): string
  {
    var i := FindFrom(s, p, 0);
    if i == -1 then s else s[..i] + s[i + |p|..]
  }

  /** `s.rsplit(p, 1)[0]`: what precedes the last occurrence of `p`, or `s` when there is none. */
  function BeforeLast(s: string, p: string): string
  {
    if |p| > |s| then s
    else
      var i := RFindUpTo(s, p, |s| - |p|);
      if i == -1 then s else s[..i]
  }

  /** When `s` starts with `p`, the first occurrence is the prefix. */
  lemma RemoveFirstPrefix(s: string, p: string)
    requires StartsWith(s, p)
    ensures RemoveFirst(s, p) == s[|p|..]
  {
  }

  /** When `s` ends with `p`, the last occurrence is the suffix. */
  lemma BeforeLastSuffix(s: string, p: string)
    requires EndsWith(s, p)
    ensures BeforeLast(s, p) == s[..|s| - |p|]
  {
  }

  /** `s[:n]` */
  function Take(s: string, n: nat): (r: string)
    ensures |r| == if |s| < n then |s| else n
    ensures r == s[..|r|]
  {
    if |s| <= n then s else s[..n]
  }

  function DigitChar(d: nat): char
    requires d < 10
  {
    "0123456789"[d]
  }

  /** `str(n)` for a non-negative integer. */
  function NatToString(n: nat): (r: string)
    ensures r != []
    ensures forall i :: 0 <= i < |r| ==> '0' <= r[i] <= '9'
  {
    if n < 10 then [DigitChar(n)] else NatToString(n / 10) + [DigitChar(n % 10)]
  }
}
