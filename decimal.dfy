/**
 * Decimal text of integers, as Rust's `Display` for `i32` writes them
 * (a leading '-' for negatives, no leading zeros), and a reader that
 * recovers the integer from the front of a string.
 */
module Decimal {
  import opened Wrappers

  predicate IsDigit(c: char)
  {
    '0' <= c <= '9'
  }

  predicate AllDigits(s: string)
  {
    forall i :: 0 <= i < |s| ==> IsDigit(s[i])
  }

  function DigitChar(d: nat): (c: char)
    requires d < 10
    ensures IsDigit(c)
  {
    ('0' as int + d) as char
  }

  function DigitValue(c: char): (d: nat)
    requires IsDigit(c)
    ensures d < 10 && DigitChar(d) == c
  {
    c as int - '0' as int
  }

  /** The decimal digits of `n`, most significant first. */
  function NatDigits(n: nat): (s: string)
    ensures 1 <= |s| && AllDigits(s)
    ensures n >= 10 ==> s[0] != '0'
    decreases n
  {
    if n < 10 then [DigitChar(n)] else NatDigits(n / 10) + [DigitChar(n % 10)]
  }

  /** The number a digit string denotes. */
  function DigitsValue(s: string): nat
    requires AllDigits(s)
  {
    if s == [] then 0 else DigitsValue(s[..|s| - 1]) * 10 + DigitValue(s[|s| - 1])
  }

  /** `format!("{}", i)` for an integer `i`. */
  function IntToDecimal(i: int): string
  {
    if i < 0 then "-" + NatDigits(-i) else NatDigits(i)
  }

  /** The length of the longest run of digits at the front of `s`. */
  function DigitRun(s: string): (k: nat)
    ensures k <= |s| && AllDigits(s[..k])
    ensures k < |s| ==> !IsDigit(s[k])
  {
    if s != [] && IsDigit(s[0]) then 1 + DigitRun(s[1..]) else 0
  }

  /**
   * Reads an optionally negative decimal integer from the front of `s`,
   * returning it with the text that follows it.
   */
  function ReadInt(s: string): (r: Option<(int, string)>)
    ensures r.Some? ==> |r.value.1| < |s| && r.value.1 == s[|s| - |r.value.1|..]
  {
    var negative := |s| > 0 && s[0] == '-';
    var body := if negative then s[1..] else s;
    var k := DigitRun(body);
    if k == 0 then None
    else
      var n: int := DigitsValue(body[..k]);
      Some((if negative then -n else n, body[k..]))
  }

  lemma {:induction false} DigitsValueOfNatDigits(n: nat)
    ensures DigitsValue(NatDigits(n)) == n
    decreases n
  {
    var s := NatDigits(n);
    if n >= 10 {
      DigitsValueOfNatDigits(n / 10);
      assert s[..|s| - 1] == NatDigits(n / 10);
    }
  }

  lemma {:induction false} DigitRunOfDigits(digits: string, rest: string)
    requires AllDigits(digits)
    requires rest == [] || !IsDigit(rest[0])
    ensures DigitRun(digits + rest) == |digits|
    decreases |digits|
  {
    if digits != [] {
      assert (digits + rest)[1..] == digits[1..] + rest;
      DigitRunOfDigits(digits[1..], rest);
    } else {
      assert digits + rest == rest;
    }
  }

  /** Reading back the decimal text of `i` yields `i` and leaves what follows untouched. */
  lemma ReadIntOfDecimal(i: int, rest: string)
    requires rest == [] || !IsDigit(rest[0])
    ensures ReadInt(IntToDecimal(i) + rest) == Some((i, rest))
  {
    var digits := NatDigits(if i < 0 then -i else i);
    var body := digits + rest;
    if i < 0 {
      assert (IntToDecimal(i) + rest)[1..] == body;
    } else {
      assert IntToDecimal(i) + rest == body;
    }
    DigitRunOfDigits(digits, rest);
    assert body[..|digits|] == digits;
    assert body[|digits|..] == rest;
    DigitsValueOfNatDigits(if i < 0 then -i else i);
  }

  /** Distinct integers have distinct decimal text. */
  lemma IntToDecimalInjective(i: int, j: int)
    ensures IntToDecimal(i) == IntToDecimal(j) ==> i == j
  {
    if IntToDecimal(i) == IntToDecimal(j) {
      ReadIntOfDecimal(i, []);
      ReadIntOfDecimal(j, []);
      assert IntToDecimal(i) + [] == IntToDecimal(i);
      assert IntToDecimal(j) + [] == IntToDecimal(j);
    }
  }
}
