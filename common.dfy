/** Values shared by every module of the model: a nullable wrapper, the
    JavaScript notion of "truthy" for the nullable strings and numbers the
    source tests with `if (x)` / `!x`, and a few string predicates. */
module Common {

  /** `null` / `undefined` versus a present value. */
  datatype Option<+T> = None | Some(value: T)

  /** A value, or the message of the error thrown instead. */
  datatype Result<+T> = Ok(value: T) | Err(error: string)

  /** `if (s)` on a nullable string: false for null, undefined and "". */
  predicate TruthyStr(s: Option<string>) {
    s.Some? && s.value != ""
  }

  /** `if (n)` on a nullable number: false for null, undefined and 0. */
  predicate TruthyInt(n: Option<int>) {
    n.Some? && n.value != 0
  }

  /** `s.startsWith(p)`. */
  predicate StartsWith(s: string, p: string) {
    |p| <= |s| && s[..|p|] == p
  }

  /** `s.endsWith(p)`. */
  predicate EndsWith(s: string, p: string) {
    |p| <= |s| && s[|s| - |p|..] == p
  }

  /** A character matched by the regular-expression class `\d` (ASCII digits only). */
  predicate IsDigit(c: char) {
    '0' <= c <= '9'
  }

  predicate AllDigits(s: string) {
    forall i :: 0 <= i < |s| ==> IsDigit(s[i])
  }

  /** `p` occurs in `s` as a contiguous piece. */
  ghost predicate IsInfix(p: string, s: string) {
    exists i :: InfixAt(p, s, i)
  }

  /** `p` occurs in `s` starting at index `i`. */
  predicate InfixAt(p: string, s: string, i: int) {
    0 <= i <= |s| - |p| && s[i..i + |p|] == p
  }

  /** The decimal text JavaScript produces for an integer (`${n}`). */
  function NatToDecimal(n: nat): (r: string)
    ensures |r| > 0 && AllDigits(r)
    ensures (r[0] == '0') == (n == 0)
    ensures (|r| == 1) == (n < 10)
  {
    if n < 10 then [DigitChar(n)] else NatToDecimal(n / 10) + [DigitChar(n % 10)]
  }

  function DigitChar(d: nat): (c: char)
    requires d < 10
    ensures IsDigit(c) && (c == '0') == (d == 0)
    ensures c as int == '0' as int + d
  {
    ['0', '1', '2', '3', '4', '5', '6', '7', '8', '9'][d]
  }

  /** Different numbers have different decimal texts. */
  lemma {:induction false} NatToDecimalInjective(a: nat, b: nat)
    requires NatToDecimal(a) == NatToDecimal(b)
    ensures a == b
    decreases a
  {
    if a >= 10 && b >= 10 {
      var ra := NatToDecimal(a);
      var rb := NatToDecimal(b);
      assert ra[..|ra| - 1] == NatToDecimal(a / 10);
      assert rb[..|rb| - 1] == NatToDecimal(b / 10);
      NatToDecimalInjective(a / 10, b / 10);
      assert ra[|ra| - 1] == DigitChar(a % 10);
      assert rb[|rb| - 1] == DigitChar(b % 10);
    }
  }

  function IntToDecimal(i: int): (r: string)
    ensures |r| > 0
    ensures (i >= 0) == AllDigits(r)
  {
    if i >= 0 then NatToDecimal(i)
    else
      var r := "-" + NatToDecimal(-i);
      assert !IsDigit(r[0]);
      r
  }
}
