/** String primitives the chat server relies on, with JavaScript's semantics:
    `String.prototype.trim`, `String.prototype.includes` and the decimal
    rendering of a non-negative integer inside a template literal. */
module Text {

  /** The characters JavaScript's `trim` removes and the regular-expression
      class `\s` matches: WhiteSpace plus LineTerminator. */
  predicate IsSpace(c: char) {
    || c == '\t' || c == '\n' || c == '\U{000B}' || c == '\U{000C}' || c == '\r'
    || c == ' ' || c == '\U{00A0}' || c == '\U{1680}'
    || ('\U{2000}' <= c <= '\U{200A}')
    || c == '\U{2028}' || c == '\U{2029}' || c == '\U{202F}' || c == '\U{205F}'
    || c == '\U{3000}' || c == '\U{FEFF}'
  }

  predicate AllSpace(s: string) {
    forall i :: 0 <= i < |s| ==> IsSpace(s[i])
  }

  /** Neither end of `s` is whitespace. */
  predicate IsTrimmed(s: string) {
    s == [] || (!IsSpace(s[0]) && !IsSpace(s[|s| - 1]))
  }

  /** First index at or after `i` that does not hold whitespace (or `|s|`). */
  function SkipSpaces(s: string, i: nat): (k: nat)
    requires i <= |s|
    ensures i <= k <= |s|
    ensures forall j :: i <= j < k ==> IsSpace(s[j])
    ensures k < |s| ==> !IsSpace(s[k])
    decreases |s| - i
  {
    if i == |s| || !IsSpace(s[i]) then i else SkipSpaces(s, i + 1)
  }

  /** Largest index at or before `j` whose predecessor is not whitespace (or 0). */
  function SkipSpacesBack(s: string, j: nat): (k: nat)
    requires j <= |s|
    ensures k <= j
    ensures forall m :: k <= m < j ==> IsSpace(s[m])
    ensures 0 < k ==> !IsSpace(s[k - 1])
  {
    if j == 0 || !IsSpace(s[j - 1]) then j else SkipSpacesBack(s, j - 1)
  }

  /** `s` is `r` with whitespace-only text before it (from index `a`) and after it. */
  ghost predicate Frames(s: string, r: string, a: nat) {
    && a + |r| <= |s|
    && r == s[a..a + |r|]
    && AllSpace(s[..a])
    && AllSpace(s[a + |r|..])
  }

  /** JavaScript's `s.trim()`: the result is the input with its leading and
      trailing whitespace cut off, and has no whitespace at either end. */
  function Trim(s: string): (r: string)
    ensures IsTrimmed(r)
    ensures exists a: nat :: Frames(s, r, a)
  {
    var a := SkipSpaces(s, 0);
    var b := SkipSpacesBack(s, |s|);
    if b <= a then
      assert Frames(s, [], |s|) by { assert s[..|s|] == s; }
      []
    else
      assert Frames(s, s[a..b], a);
      s[a..b]
  }

  /** Any decomposition of `s` into whitespace, a trimmed core and whitespace
      names the result of `Trim`. */
  lemma {:induction false} TrimUnique(s: string, r: string, a: nat)
    requires Frames(s, r, a) && IsTrimmed(r)
    ensures Trim(s) == r
  {
    var t := Trim(s);
    var b: nat :| Frames(s, t, b);
    assert forall i :: 0 <= i < a ==> s[..a][i] == s[i];
    assert forall i :: 0 <= i < b ==> s[..b][i] == s[i];
    assert forall i :: a + |r| <= i < |s| ==> s[a + |r|..][i - (a + |r|)] == s[i];
    assert forall i :: b + |t| <= i < |s| ==> s[b + |t|..][i - (b + |t|)] == s[i];
    assert forall i :: 0 <= i < |r| ==> r[i] == s[a + i];
    assert forall i :: 0 <= i < |t| ==> t[i] == s[b + i];
    assert |r| == |t| && (r != [] ==> a == b);
  }

  /** Trimming a trimmed string changes nothing; in particular `Trim` is idempotent. */
  lemma TrimOfTrimmed(s: string)
    requires IsTrimmed(s)
    ensures Trim(s) == s
  {
    assert s[..0] == [] && s[0..|s|] == s && s[|s|..] == [];
    TrimUnique(s, s, 0);
  }

  /** Whitespace in front of a string does not change its trimmed form. */
  lemma TrimSkipsLeadingSpace(c: char, s: string)
    requires IsSpace(c)
    ensures Trim([c] + s) == Trim(s)
  {
    var r := Trim(s);
    var a: nat :| Frames(s, r, a);
    var cs := [c] + s;
    assert cs[..a + 1] == [c] + s[..a];
    AllSpaceCons(c, s[..a]);
    assert cs[a + 1..a + 1 + |r|] == s[a..a + |r|];
    assert cs[a + 1 + |r|..] == s[a + |r|..];
    assert Frames(cs, r, a + 1);
    TrimUnique(cs, r, a + 1);
  }

  lemma AllSpaceCons(c: char, t: string)
    requires IsSpace(c) && AllSpace(t)
    ensures AllSpace([c] + t)
  {
    assert forall i :: 1 <= i < |t| + 1 ==> ([c] + t)[i] == t[i - 1];
  }

  /** `pat` occurs in `s` starting at index `i`. */
  ghost predicate OccursAt(s: string, pat: string, i: nat) {
    i + |pat| <= |s| && s[i..i + |pat|] == pat
  }

  /** JavaScript's `s.includes(pat)`. */
  function Contains(s: string, pat: string): bool
    decreases |s|
  {
    if |pat| > |s| then false
    else if s[..|pat|] == pat then true
    else Contains(s[1..], pat)
  }

  /** `Contains` holds exactly when `pat` occurs somewhere in `s`. */
  lemma {:induction false} ContainsIff(s: string, pat: string)
    ensures Contains(s, pat) <==> exists i: nat :: OccursAt(s, pat, i)
  {
    if |pat| > |s| {
    } else if s[..|pat|] == pat {
      assert OccursAt(s, pat, 0);
    } else {
      ContainsIff(s[1..], pat);
      if i: nat :| OccursAt(s, pat, i) {
        assert i != 0;
        assert s[1..][i - 1..i - 1 + |pat|] == s[i..i + |pat|];
        assert OccursAt(s[1..], pat, i - 1);
      }
      if Contains(s[1..], pat) {
        var i: nat :| OccursAt(s[1..], pat, i);
        assert s[i + 1..i + 1 + |pat|] == s[1..][i..i + |pat|];
        assert OccursAt(s, pat, i + 1);
      }
    }
  }

  /** Putting `p` in front of `c` creates no new occurrence of `pat` when no
      occurrence could start inside `p`. */
  lemma ContainsAfterPrefix(p: string, c: string, pat: string)
    requires forall i: nat :: i < |p| ==> !OccursAt(p + c, pat, i)
    ensures Contains(p + c, pat) <==> Contains(c, pat)
  {
    ContainsIff(p + c, pat);
    ContainsIff(c, pat);
    if Contains(c, pat) {
      var j: nat :| OccursAt(c, pat, j);
      assert (p + c)[|p| + j..|p| + j + |pat|] == c[j..j + |pat|];
      assert OccursAt(p + c, pat, |p| + j);
    }
    if Contains(p + c, pat) {
      var i: nat :| OccursAt(p + c, pat, i);
      assert i >= |p|;
      assert c[i - |p|..i - |p| + |pat|] == (p + c)[i..i + |pat|];
      assert OccursAt(c, pat, i - |p|);
    }
  }

  predicate IsDigit(c: char) {
    '0' <= c <= '9'
  }

  function DigitChar(d: nat): (c: char)
    requires d < 10
    ensures IsDigit(c) && DigitValue(c) == d
  {
    (d + '0' as int) as char
  }

  function DigitValue(c: char): nat
    requires IsDigit(c)
  {
    c as int - '0' as int
  }

  /** The number a string of decimal digits denotes. */
  function DecimalValue(s: string): nat
    requires forall i :: 0 <= i < |s| ==> IsDigit(s[i])
  {
    if s == [] then 0
    else DecimalValue(s[..|s| - 1]) * 10 + DigitValue(s[|s| - 1])
  }

  /** The decimal text JavaScript writes for a non-negative integer below
      10^21 in a template literal: digits only, no leading zero, denoting
      `n`. */
  function NatToString(n: nat): (s: string)
    ensures |s| >= 1
    ensures forall i :: 0 <= i < |s| ==> IsDigit(s[i])
    ensures s[0] == '0' ==> n == 0
    ensures DecimalValue(s) == n
  {
    if n < 10 then [DigitChar(n)]
    else
      var t := NatToString(n / 10);
      assert (t + [DigitChar(n % 10)])[..|t|] == t;
      t + [DigitChar(n % 10)]
  }
}
