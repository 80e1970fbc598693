/**
  The part of PHP's runtime semantics the gateway relies on: the loose
  (`==`) comparison that `in_array` performs when its third argument is
  omitted.

  When two strings are compared with `==`, PHP compares them as numbers if
  BOTH are numeric strings ("10" == "1e1"), and byte for byte otherwise.
  The model does not decide which strings are numeric. It only uses the fact
  that every numeric string contains a decimal digit: two strings that both
  contain a digit may be compared either way, so their comparison is left to
  a parameter (`numericEq`); any other pair is compared byte for byte, which
  is what PHP does for it.
 */
module Php {

  /** PHP's `==` on two strings that both contain a digit, whether or not
      they are numeric strings (not modelled). */
  type NumericEquality = (string, string) -> bool

  predicate IsDigit(c: char) {
    '0' <= c <= '9'
  }

  /** `s` contains a decimal digit, as every PHP numeric string does. */
  predicate MayBeNumeric(s: string) {
    exists j :: 0 <= j < |s| && IsDigit(s[j])
  }

  /** Loose equality `a == b` of two PHP strings. Unless both contain a
      digit, at least one is not numeric and PHP compares them byte for byte. */
  function LooseEquals(a: string, b: string, numericEq: NumericEquality): (r: bool)
    ensures !MayBeNumeric(a) ==> (r <==> a == b)
    ensures !MayBeNumeric(b) ==> (r <==> a == b)
  {
    if MayBeNumeric(a) && MayBeNumeric(b) then numericEq(a, b) else a == b
  }

  /** `in_array($needle, $haystack)`: is some element loosely equal to the needle? */
  function InArray(needle: string, haystack: seq<string>, numericEq: NumericEquality): (r: bool)
    ensures r <==> exists i :: 0 <= i < |haystack| && LooseEquals(needle, haystack[i], numericEq)
    decreases |haystack|
  {
    if |haystack| == 0 then false
    else if LooseEquals(needle, haystack[0], numericEq) then true
    else
      var rest := InArray(needle, haystack[1..], numericEq);
      assert forall i :: 1 <= i < |haystack| ==> haystack[i] == haystack[1..][i - 1];
      rest
  }

  /** No element of the list can take part in a numeric comparison. */
  predicate NonNumericList(xs: seq<string>) {
    forall i :: 0 <= i < |xs| ==> !MayBeNumeric(xs[i])
  }

  /** On a list of non-numeric strings the loose `in_array` is exact,
      case-sensitive membership, whatever the needle and whatever PHP's
      numeric comparison does. */
  lemma InArrayIsExactMembership(needle: string, haystack: seq<string>, numericEq: NumericEquality)
    requires NonNumericList(haystack)
    ensures InArray(needle, haystack, numericEq) <==> needle in haystack
  {
    if needle in haystack {
      var i :| 0 <= i < |haystack| && haystack[i] == needle;
      assert LooseEquals(needle, haystack[i], numericEq);
    }
  }
}
