/**
 * The string operations the router relies on: `str.lower()`, `str.capitalize()`,
 * `str.strip()` and the substring test `sub in s`.
 * Case mapping is modelled over ASCII letters only; `strip()` removes exactly the
 * code points Python's `str.isspace()` accepts.
 */
module Text {

  predicate IsUpper(c: char) { 'A' <= c <= 'Z' }

  predicate IsLower(c: char) { 'a' <= c <= 'z' }

  function LowerChar(c: char): (r: char)
    ensures !IsUpper(r)
  {
    if IsUpper(c) then (c as int + 32) as char else c
  }

  function UpperChar(c: char): (r: char)
    ensures !IsLower(r)
  {
    if IsLower(c) then (c as int - 32) as char else c
  }

  /** `s.lower()`, character by character. */
  function Lower(s: string): (r: string)
    ensures |r| == |s|
    ensures forall i | 0 <= i < |s| :: r[i] == LowerChar(s[i])
  {
    if s == [] then [] else [LowerChar(s[0])] + Lower(s[1..])
  }

  /** A string `lower()` leaves as it is: it has no upper-case letter. */
  predicate NoUpper(s: string) {
    forall i | 0 <= i < |s| :: !IsUpper(s[i])
  }

  /** `s.capitalize()`: the first character upper-cased, the rest lower-cased. */
  function Capitalize(s: string): (r: string)
    ensures |r| == |s|
    ensures s != [] ==> !IsLower(r[0])
    ensures s != [] ==> NoUpper(r[1..])
  {
    if s == [] then [] else [UpperChar(s[0])] + Lower(s[1..])
  }

  lemma {:induction false} LowerIdempotent(s: string)
    ensures Lower(Lower(s)) == Lower(s)
  {
    if s != [] {
      LowerIdempotent(s[1..]);
      assert Lower(s)[1..] == Lower(s[1..]);
    }
  }

  /** A string without upper-case letters is its own lower-case form. */
  lemma {:induction false} LowerFixesNoUpper(s: string)
    requires NoUpper(s)
    ensures Lower(s) == s
  {
    if s != [] {
      LowerFixesNoUpper(s[1..]);
      assert s == [s[0]] + s[1..];
    }
  }

  /** Lower-casing commutes with concatenation. */
  lemma LowerAppend(a: string, b: string)
    ensures Lower(a + b) == Lower(a) + Lower(b)
  {
    var x, y := Lower(a + b), Lower(a) + Lower(b);
    forall i | 0 <= i < |x|
      ensures x[i] == y[i]
    {
      if i < |a| {
        assert x[i] == LowerChar(a[i]) == y[i];
      } else {
        assert x[i] == LowerChar(b[i - |a|]) == y[i];
      }
    }
  }

  /**
   * `key.capitalize().lower()` is `key.lower()`: the round trip through the
   * displayed client name loses nothing but case.
   */
  lemma CapitalizeLowerRoundTrip(s: string)
    ensures Lower(Capitalize(s)) == Lower(s)
  {
    if s != [] {
      assert Lower(Capitalize(s))[0] == LowerChar(UpperChar(s[0])) == LowerChar(s[0]);
    }
  }

  /** An all-lower-case dictionary key survives `capitalize()` then `lower()`. */
  lemma CapitalizeRoundTripOnKey(key: string)
    requires NoUpper(key)
    ensures Lower(Capitalize(key)) == key
  {
    CapitalizeLowerRoundTrip(key);
    LowerFixesNoUpper(key);
  }

  /** The code points for which Python's `str.isspace()` holds. */
  predicate IsSpace(c: char) {
    var n := c as int;
    (9 <= n <= 13) || (28 <= n <= 32) || n == 0x85 || n == 0xA0 || n == 0x1680
    || (0x2000 <= n <= 0x200A) || n == 0x2028 || n == 0x2029 || n == 0x202F
    || n == 0x205F || n == 0x3000
  }

  /** True when every character is whitespace (the empty string included). */
  predicate AllSpace(s: string) {
    forall i | 0 <= i < |s| :: IsSpace(s[i])
  }

  /** `sub` occurs in `s` at position `i`. */
  predicate OccursAt(sub: string, s: string, i: nat) {
    i + |sub| <= |s| && s[i..i + |sub|] == sub
  }

  /** `sub` occurs somewhere in `s`. */
  ghost predicate Occurs(sub: string, s: string) {
    exists i: nat :: OccursAt(sub, s, i)
  }

  /** Removing the first character of `s` loses no occurrence except one at 0. */
  lemma OccursTail(sub: string, s: string)
    requires s != [] && !OccursAt(sub, s, 0)
    ensures Occurs(sub, s) <==> Occurs(sub, s[1..])
  {
    if Occurs(sub, s) {
      var i: nat :| OccursAt(sub, s, i);
      assert i > 0;
      assert s[1..][i - 1..i - 1 + |sub|] == s[i..i + |sub|];
      assert OccursAt(sub, s[1..], i - 1);
    }
    if Occurs(sub, s[1..]) {
      var j: nat :| OccursAt(sub, s[1..], j);
      assert s[j + 1..j + 1 + |sub|] == s[1..][j..j + |sub|];
      assert OccursAt(sub, s, j + 1);
    }
  }

  /** Python's `sub in s`. */
  function Contains(s: string, sub: string): (r: bool)
    ensures r <==> Occurs(sub, s)
    decreases |s|
  {
    if |s| < |sub| then false
    else if s[..|sub|] == sub then assert OccursAt(sub, s, 0); true
    else OccursTail(sub, s); Contains(s[1..], sub)
  }

  /** An occurrence inside an occurrence is an occurrence. */
  lemma OccursTransitive(a: string, b: string, c: string)
    requires Occurs(a, b) && Occurs(b, c)
    ensures Occurs(a, c)
  {
    var i: nat :| OccursAt(a, b, i);
    var j: nat :| OccursAt(b, c, j);
    forall k | 0 <= k < |a|
      ensures c[j + i..j + i + |a|][k] == a[k]
    {
      assert c[j + i + k] == c[j..j + |b|][i + k] == b[i + k] == b[i..i + |a|][k];
    }
    assert OccursAt(a, c, j + i);
  }

  /** Text added on either side of a string keeps what occurs in it. */
  lemma OccursInAppend(sub: string, s: string, before: string, after: string)
    requires Occurs(sub, s)
    ensures Occurs(sub, before + s + after)
  {
    var i: nat :| OccursAt(sub, s, i);
    var t := before + s + after;
    assert t[|before| + i..|before| + i + |sub|] == s[i..i + |sub|];
    assert OccursAt(sub, t, |before| + i);
  }

  /** A pair of adjacent characters of `sub` that never appears in `s` rules `sub` out. */
  lemma NotOccursByPair(sub: string, s: string, k: nat)
    requires k + 1 < |sub|
    requires forall i | 0 <= i && i + 1 < |s| :: s[i] != sub[k] || s[i + 1] != sub[k + 1]
    ensures !Occurs(sub, s)
  {
    forall i: nat | i + |sub| <= |s|
      ensures !OccursAt(sub, s, i)
    {
      assert s[i..i + |sub|][k] == s[i + k] && s[i..i + |sub|][k + 1] == s[i + k + 1];
    }
  }

  /** The first index at or after `i` that is not whitespace (or `|s|`): the left scan of `strip()`. */
  function SkipSpace(s: string, i: nat): (j: nat)
    requires i <= |s|
    ensures i <= j <= |s|
    ensures forall k | i <= k < j :: IsSpace(s[k])
    ensures j < |s| ==> !IsSpace(s[j])
    decreases |s| - i
  {
    if i < |s| && IsSpace(s[i]) then SkipSpace(s, i + 1) else i
  }

  /** Moves the end `j` left past whitespace, never below `lo`: the right scan of `strip()`. */
  function TrimSpace(s: string, lo: nat, j: nat): (k: nat)
    requires lo <= j <= |s|
    ensures lo <= k <= j
    ensures forall m | k <= m < j :: IsSpace(s[m])
    ensures k > lo ==> !IsSpace(s[k - 1])
  {
    if j > lo && IsSpace(s[j - 1]) then TrimSpace(s, lo, j - 1) else j
  }

  /** `s.strip()`: the part of `s` between leading and trailing whitespace. */
  function Strip(s: string): (r: string)
    ensures r == [] <==> AllSpace(s)
    ensures r != [] ==> !IsSpace(r[0]) && !IsSpace(r[|r| - 1])
    ensures Occurs(r, s)
  {
    var lo := SkipSpace(s, 0);
    var hi := TrimSpace(s, lo, |s|);
    assert OccursAt(s[lo..hi], s, lo);
    s[lo..hi]
  }
}
