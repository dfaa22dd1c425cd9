/** How a reading is written on the display: `Number.prototype.toFixed(1)` on the
    value, after which a rendering of "-0.0" is replaced by "0.0". Values are exact
    reals here, so the rounding acts on the real value and not on a double. */
module Rendering {
  import opened Optional

  function Abs(x: real): real {
    if x < 0.0 then -x else x
  }

  /** |x| counted in tenths, rounded to the nearest integer; on a tie the larger
      candidate is taken, as toFixed does after it has stripped the sign. */
  function Tenths(x: real): (n: nat)
    ensures n as real - 0.5 <= Abs(x) * 10.0 < n as real + 0.5
  {
    (Abs(x) * 10.0 + 0.5).Floor
  }

  /** The rounded value in signed tenths, the number a rendering denotes. */
  function SignedTenths(x: real): (n: int)
    ensures Abs(n as real - x * 10.0) <= 0.5
    ensures n < 0 ==> x < 0.0
    ensures n > 0 ==> x > 0.0
  {
    if x < 0.0 then -(Tenths(x) as int) else Tenths(x)
  }

  predicate IsDigit(c: char) {
    '0' <= c <= '9'
  }

  predicate IsDigits(s: string) {
    forall i :: 0 <= i < |s| ==> IsDigit(s[i])
  }

  function DigitChar(d: nat): (c: char)
    requires d < 10
    ensures IsDigit(c)
  {
    (d + '0' as int) as char
  }

  function DigitValue(c: char): (d: nat)
    requires IsDigit(c)
    ensures d < 10
  {
    c as int - '0' as int
  }

  /** Reading a digit back gives the digit written. */
  lemma DigitRoundTrip(d: nat)
    requires d < 10
    ensures DigitValue(DigitChar(d)) == d
  {
  }

  /** Decimal numeral of `n` without leading zeros. */
  function DecimalDigits(n: nat): (s: string)
    ensures |s| >= 1 && IsDigits(s)
    ensures s[0] == '0' ==> n == 0
    decreases n
  {
    if n < 10 then [DigitChar(n)] else DecimalDigits(n / 10) + [DigitChar(n % 10)]
  }

  /** Value of a decimal numeral, read from the left. */
  function DigitsValue(s: string): nat
    requires IsDigits(s)
  {
    if |s| == 0 then 0 else DigitsValue(s[..|s| - 1]) * 10 + DigitValue(s[|s| - 1])
  }

  /** Reading a numeral back gives the number written. */
  lemma {:induction false} DigitsRoundTrip(n: nat)
    ensures DigitsValue(DecimalDigits(n)) == n
    decreases n
  {
    var s := DecimalDigits(n);
    if n < 10 {
      assert s[..0] == [];
      DigitRoundTrip(n);
    } else {
      assert s[..|s| - 1] == DecimalDigits(n / 10);
      DigitsRoundTrip(n / 10);
      DigitRoundTrip(n % 10);
    }
  }

  /** `x.toFixed(1)`: a minus sign for a negative value, the whole part, a point, one decimal. */
  function ToFixed1(x: real): (t: string)
    ensures |t| >= 3 && t[|t| - 2] == '.' && IsDigit(t[|t| - 1])
    ensures t[0] == '-' <==> x < 0.0
  {
    var n := Tenths(x);
    assert IsDigit(DecimalDigits(n / 10)[0]);
    (if x < 0.0 then "-" else "") + DecimalDigits(n / 10) + "." + [DigitChar(n % 10)]
  }

  /** Reads a rendering back as signed tenths: an optional minus sign, a non-empty
      numeral, a point and exactly one decimal. */
  function ParseTenths(t: string): Option<int> {
    if |t| < 3 || t[|t| - 2] != '.' || !IsDigit(t[|t| - 1]) then None
    else
      var body := t[..|t| - 2];
      var negative := |body| > 0 && body[0] == '-';
      var numeral := if negative then body[1..] else body;
      if |numeral| == 0 || !IsDigits(numeral) then None
      else
        var v := DigitsValue(numeral) * 10 + DigitValue(t[|t| - 1]);
        Some(if negative then -v else v)
  }

  /** Parsing inverts the layout toFixed(1) uses: sign, numeral, point, one digit. */
  lemma {:induction false} ParseLayout(negative: bool, numeral: string, d: nat)
    requires |numeral| >= 1 && IsDigits(numeral)
    requires d < 10
    ensures var v := DigitsValue(numeral) * 10 + d;
      ParseTenths((if negative then "-" else "") + numeral + "." + [DigitChar(d)])
        == Some(if negative then -v else v)
  {
    var sign := if negative then "-" else "";
    var t := sign + numeral + "." + [DigitChar(d)];
    var body := t[..|t| - 2];
    assert body == sign + numeral;
    assert t[|t| - 2] == '.';
    assert t[|t| - 1] == DigitChar(d);
    DigitRoundTrip(d);
    if negative {
      assert body[0] == '-';
      assert body[1..] == numeral;
    } else {
      assert body == numeral;
      assert IsDigit(numeral[0]);
      assert !(|body| > 0 && body[0] == '-');
    }
  }

  /** toFixed(1) writes exactly the rounded value: reading it back gives `SignedTenths(x)`. */
  lemma ToFixed1RoundTrip(x: real)
    ensures ParseTenths(ToFixed1(x)) == Some(SignedTenths(x))
  {
    var n := Tenths(x);
    ParseLayout(x < 0.0, DecimalDigits(n / 10), n % 10);
    DigitsRoundTrip(n / 10);
  }

  /** The text shown for a reading of `x`: toFixed(1), with "-0.0" shown as "0.0".
      It never shows a negative zero, it denotes the rounded value, and it carries a
      minus sign exactly when the rounded value is below zero. */
  function Render(x: real): (t: string)
    ensures t != "-0.0"
    ensures ParseTenths(t) == Some(SignedTenths(x))
    ensures |t| >= 3 && (t[0] == '-' <==> SignedTenths(x) < 0)
  {
    var t := ToFixed1(x);
    ToFixed1RoundTrip(x);
    assert ParseTenths("0.0") == Some(0) by {
      assert "0.0"[..1] == "0";
      assert DigitsValue("0") == 0 by { assert "0"[..0] == ""; }
    }
    assert ParseTenths("-0.0") == Some(0) by {
      assert "-0.0"[..2] == "-0";
      assert "-0"[1..] == "0";
      assert DigitsValue("0") == 0 by { assert "0"[..0] == ""; }
    }
    assert t[0] == '-' <==> x < 0.0 by {
      assert IsDigit(DecimalDigits(Tenths(x) / 10)[0]);
    }
    if t == "-0.0" then "0.0" else t
  }

  /** A value just below zero is written "-0.0" by toFixed, and is shown as "0.0". */
  lemma NegativeZeroShownAsZero(x: real)
    requires -0.05 < x < 0.0
    ensures ToFixed1(x) == "-0.0"
    ensures Render(x) == "0.0"
  {
    assert Tenths(x) == 0;
    assert DecimalDigits(0) == "0";
  }
}
