/** Shared vocabulary: optional values, identifiers and Python truthiness of strings. */
module Basics {

  datatype Option<+T> = None | Some(value: T)

  /** Database primary keys. */
  type UserId = nat
  type ProductId = nat
  type ArtisanId = nat
  type InfluencerId = nat
  type TeamId = nat
  type RequestId = nat
  type CollabId = nat

  /** A Python string is truthy exactly when it is non-empty. */
  predicate Filled(s: string) {
    |s| > 0
  }

  /** Whitespace as Python's `str.strip()` removes it (the ASCII and common Unicode spaces). */
  predicate IsPySpace(c: char) {
    var n := c as int;
    n == 0x20 || 0x09 <= n <= 0x0D || 0x1C <= n <= 0x1F || n == 0x85 || n == 0xA0
    || n == 0x1680 || 0x2000 <= n <= 0x200A || n == 0x2028 || n == 0x2029
    || n == 0x202F || n == 0x205F || n == 0x3000
  }

  /** `s.lstrip()`: leading whitespace removed. */
  function StripLeft(s: string): string {
    if s != [] && IsPySpace(s[0]) then StripLeft(s[1..]) else s
  }

  /** `s.rstrip()`: trailing whitespace removed. */
  function StripRight(s: string): string {
    if s != [] && IsPySpace(s[|s| - 1]) then StripRight(s[..|s| - 1]) else s
  }

  /** Python's `str.strip()`: never longer than the input, and no whitespace left at either end. */
  function Strip(s: string): (r: string)
    ensures |r| <= |s|
    ensures r == [] || (!IsPySpace(r[0]) && !IsPySpace(r[|r| - 1]))
  {
    var l := StripLeft(s);
    StripLeftSpec(s);
    StripRightSpec(l);
    StripRight(l)
  }

  /** `lstrip` keeps a suffix, which starts with a non-space, and drops only spaces. */
  lemma {:induction false} StripLeftSpec(s: string)
    ensures var r := StripLeft(s);
      && |r| <= |s| && r == s[|s| - |r|..]
      && (r == [] || !IsPySpace(r[0]))
      && forall i :: 0 <= i < |s| - |r| ==> IsPySpace(s[i])
  {
    if s != [] && IsPySpace(s[0]) {
      StripLeftSpec(s[1..]);
      var r := StripLeft(s);
      forall i | 0 <= i < |s| - |r|
        ensures IsPySpace(s[i])
      {
        if i > 0 {
          assert s[i] == s[1..][i - 1];
        }
      }
    }
  }

  /** `rstrip` keeps a prefix, which ends with a non-space, and drops only spaces. */
  lemma {:induction false} StripRightSpec(s: string)
    ensures var r := StripRight(s);
      && |r| <= |s| && r == s[..|r|]
      && (r == [] || !IsPySpace(r[|r| - 1]))
      && forall i :: |r| <= i < |s| ==> IsPySpace(s[i])
  {
    if s != [] && IsPySpace(s[|s| - 1]) {
      StripRightSpec(s[..|s| - 1]);
      var r := StripRight(s);
      forall i | |r| <= i < |s|
        ensures IsPySpace(s[i])
      {
        if i < |s| - 1 {
          assert s[i] == s[..|s| - 1][i];
        }
      }
    }
  }

  /**
   * A stripped string neither starts nor ends with whitespace, and is the slice of the original
   * that begins after the leading whitespace.
   */
  lemma StripTrimmed(s: string)
    ensures var r, k := Strip(s), |s| - |StripLeft(s)|;
      && (r == [] || (!IsPySpace(r[0]) && !IsPySpace(r[|r| - 1])))
      && 0 <= k <= |s| - |r| && r == s[k..k + |r|]
  {
    var l := StripLeft(s);
    StripLeftSpec(s);
    StripRightSpec(l);
    var r := Strip(s);
    var i := |s| - |l|;
    assert r == l[..|r|];
    if r != [] {
      assert r[0] == l[0];
    }
    assert r == s[i..i + |r|];
  }

  /** `s.strip()` is empty exactly when `s` is made of whitespace only. */
  lemma StripEmptyIffBlank(s: string)
    ensures Strip(s) == [] <==> forall i :: 0 <= i < |s| ==> IsPySpace(s[i])
  {
    var l := StripLeft(s);
    StripLeftSpec(s);
    StripRightSpec(l);
    if Strip(s) != [] {
      assert l[0] == s[|s| - |l|];
    }
  }
}
