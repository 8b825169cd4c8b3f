/**
 * Participant ids as the component handles them: the gateway sends numbers,
 * the component keys its tables by `id.toString()` and turns a key back into
 * a number with `parseInt` when it asks to subscribe to that feed.
 */
module Ids {
  import opened Wrappers

  predicate IsDigit(c: char) {
    '0' <= c <= '9'
  }

  function DigitChar(d: nat): (c: char)
    requires d < 10
    ensures IsDigit(c) && c as int - '0' as int == d
  {
    ('0' as int + d) as char
  }

  function DigitValue(c: char): (d: nat)
    requires IsDigit(c)
    ensures d < 10 && DigitChar(d) == c
  {
    c as int - '0' as int
  }

  /** The decimal text of a non-negative integer, as `Number.prototype.toString` writes it. */
  function IdString(n: nat): (s: string)
    ensures |s| > 0
    ensures forall i :: 0 <= i < |s| ==> IsDigit(s[i])
    ensures s[0] == '0' <==> n == 0
    ensures |s| == 1 <==> n < 10
  {
    if n < 10 then [DigitChar(n)] else IdString(n / 10) + [DigitChar(n % 10)]
  }

  /** The value of a string of decimal digits, most significant digit first. */
  function DigitsValue(s: string): nat
    requires forall i :: 0 <= i < |s| ==> IsDigit(s[i])
  {
    if s == [] then 0 else DigitsValue(s[..|s| - 1]) * 10 + DigitValue(s[|s| - 1])
  }

  /** The length of the longest run of decimal digits at the start of `s`. */
  function DigitPrefixLength(s: string): (k: nat)
    ensures k <= |s|
    ensures forall i :: 0 <= i < k ==> IsDigit(s[i])
    ensures k < |s| ==> !IsDigit(s[k])
  {
    if s == [] || !IsDigit(s[0]) then 0 else 1 + DigitPrefixLength(s[1..])
  }

  /**
   * `parseInt` on a string that does not start with white space, a sign or a
   * radix prefix: the value of its leading digits, or None (NaN) when it has none.
   */
  function ParseInt(s: string): (r: Option<nat>)
    ensures r.None? <==> s == [] || !IsDigit(s[0])
  {
    var k := DigitPrefixLength(s);
    if k == 0 then None else Some(DigitsValue(s[..k]))
  }

  lemma {:induction false} DigitsValueOfIdString(n: nat)
    ensures DigitsValue(IdString(n)) == n
  {
    if n >= 10 {
      var s := IdString(n / 10);
      var t := IdString(n);
      assert t == s + [DigitChar(n % 10)];
      assert t[..|t| - 1] == s;
      DigitsValueOfIdString(n / 10);
    }
  }

  /** A key made by `toString` reads back, through `parseInt`, as the number it was made from. */
  lemma ParseIntOfIdString(n: nat)
    ensures ParseInt(IdString(n)) == Some(n)
  {
    var s := IdString(n);
    assert DigitPrefixLength(s) == |s|;
    assert s[..|s|] == s;
    DigitsValueOfIdString(n);
  }

  /** Distinct numeric ids give distinct keys. */
  lemma IdStringInjective(a: nat, b: nat)
    ensures IdString(a) == IdString(b) <==> a == b
  {
    if IdString(a) == IdString(b) {
      DigitsValueOfIdString(a);
      DigitsValueOfIdString(b);
    }
  }
}
