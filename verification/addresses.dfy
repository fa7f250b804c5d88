/**
 Token and pool identifiers are hexadecimal address strings that the chain
 reports in mixed (checksummed) case. The price code compares them after
 lower-casing both sides, so two spellings of one address are the same token.
 */
module Addresses {

  type Address = string

  /** Lower-cases one ASCII upper-case letter; every other character is kept. */
  function LowerChar(c: char): (l: char)
    ensures 'A' <= c <= 'Z' ==> 'a' <= l <= 'z' && l as int - c as int == 32
    ensures !('A' <= c <= 'Z') ==> l == c
  {
    if 'A' <= c <= 'Z' then (c as int + 32) as char else c
  }

  /** Lower-cases a string character by character. */
  function ToLower(s: string): (r: string)
    ensures |r| == |s|
    ensures forall i :: 0 <= i < |s| ==> r[i] == LowerChar(s[i])
  {
    if s == [] then [] else [LowerChar(s[0])] + ToLower(s[1..])
  }

  /** Two addresses name the same account when they agree ignoring letter
      case: same length, and every position agrees once lower-cased. */
  predicate SameAddress(a: Address, b: Address) {
    |a| == |b| && forall i :: 0 <= i < |a| ==> LowerChar(a[i]) == LowerChar(b[i])
  }

  /** Lower-casing twice is the same as lower-casing once. */
  lemma ToLowerIdempotent(s: string)
    ensures ToLower(ToLower(s)) == ToLower(s)
  {
    var once := ToLower(s);
    var twice := ToLower(once);
    assert forall i :: 0 <= i < |once| ==> twice[i] == once[i];
  }

  /** Comparing the lower-cased strings for equality, as the price code does,
      is exactly the character-wise case-insensitive comparison. */
  lemma SameAddressIffLowerEqual(a: Address, b: Address)
    ensures SameAddress(a, b) <==> ToLower(a) == ToLower(b)
  {
    if SameAddress(a, b) {
      assert forall i :: 0 <= i < |a| ==> ToLower(a)[i] == ToLower(b)[i];
    }
  }

  /** Any change of letter case leaves the address the same account. */
  lemma SameAddressUpToCase(a: Address)
    ensures SameAddress(a, ToLower(a))
  {
    ToLowerIdempotent(a);
  }

  /** SameAddress is an equivalence relation. */
  lemma SameAddressIsEquivalence(a: Address, b: Address, c: Address)
    ensures SameAddress(a, a)
    ensures SameAddress(a, b) ==> SameAddress(b, a)
    ensures SameAddress(a, b) && SameAddress(b, c) ==> SameAddress(a, c)
  {
  }
}
