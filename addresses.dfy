/**
 * Addresses are hex strings. The source compares them in two ways: exactly
 * (`===`) and after `toLowerCase()`. Hex addresses only contain ASCII, so
 * lower-casing is modelled on the ASCII letters.
 */
module Addresses {

  type Address = string

  /** `toLowerCase` on one ASCII character. */
  function LowerChar(c: char): (r: char)
    ensures 'A' <= c <= 'Z' ==> r as int == c as int + 32
    ensures !('A' <= c <= 'Z') ==> r == c
    ensures !('A' <= r <= 'Z')
  {
    if 'A' <= c <= 'Z' then (c as int + 32) as char else c
  }

  /** `toLowerCase` on a string: the same length, every character lowered. */
  function Lower(s: string): (r: string)
    ensures |r| == |s|
    ensures forall i :: 0 <= i < |s| ==> r[i] == LowerChar(s[i])
  {
    if s == [] then [] else [LowerChar(s[0])] + Lower(s[1..])
  }

  /** True when no character of `s` is an upper-case ASCII letter. */
  predicate IsLowerCase(s: string)
  {
    forall i :: 0 <= i < |s| ==> !('A' <= s[i] <= 'Z')
  }

  /** `a.toLowerCase() === b.toLowerCase()`. */
  predicate SameAddress(a: Address, b: Address)
  {
    Lower(a) == Lower(b)
  }

  /** Lower-casing yields a lower-case string, and only changes strings that are not lower case. */
  lemma LowerIsLowerCase(s: string)
    ensures IsLowerCase(Lower(s))
    ensures IsLowerCase(s) <==> Lower(s) == s
  {
    if !IsLowerCase(s) {
      var i :| 0 <= i < |s| && 'A' <= s[i] <= 'Z';
      assert Lower(s)[i] != s[i];
    }
  }

  /** The case-insensitive comparison is character-wise comparison after lowering. */
  lemma SameAddressIff(a: Address, b: Address)
    ensures SameAddress(a, b) <==>
      |a| == |b| && forall i :: 0 <= i < |a| ==> LowerChar(a[i]) == LowerChar(b[i])
  {
    if |a| == |b| && forall i :: 0 <= i < |a| ==> LowerChar(a[i]) == LowerChar(b[i]) {
      assert forall i :: 0 <= i < |a| ==> Lower(a)[i] == Lower(b)[i];
    }
  }

  /**
   * A comparison that lowers only one side, `x.toLowerCase() === k`, can hold
   * only when `k` is itself lower case, and then it is the case-insensitive
   * comparison.
   */
  lemma OneSidedComparison(x: Address, k: Address)
    ensures Lower(x) == k ==> IsLowerCase(k)
    ensures IsLowerCase(k) ==> (Lower(x) == k <==> SameAddress(x, k))
  {
    LowerIsLowerCase(x);
    LowerIsLowerCase(k);
  }
}
