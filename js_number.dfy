/**
 * The two JavaScript number operations the dashboard applies to amounts:
 * `Math.round` and `Number.prototype.toFixed(1)`. Amounts are exact reals,
 * so binary floating-point drift is not part of this model.
 */
module JsNumber {
  import opened Text

  /** `Math.round(x)`: the nearest integer, a tie going up (towards +infinity). */
  function Round(x: real): (n: int)
    ensures n as real - 0.5 <= x < n as real + 0.5
  {
    (x + 0.5).Floor
  }

  /** Any integer within half a unit of x (ties going up) is Math.round(x). */
  lemma RoundUnique(x: real, n: int)
    requires n as real - 0.5 <= x < n as real + 0.5
    ensures Round(x) == n
  {
  }

  function Abs(x: real): real {
    if x < 0.0 then -x else x
  }

  /**
   * `x.toFixed(1)`: a '-' for negative x, then |x| rounded to tenths (a tie
   * taking the larger magnitude), printed as integer digits, '.', one digit.
   */
  function ToFixed1(x: real): (r: string)
    ensures |r| >= 3 && r[|r| - 2] == '.' && IsDigit(r[|r| - 1])
    ensures r[0] == '-' <==> x < 0.0
  {
    var n := Round(Abs(x) * 10.0);
    (if x < 0.0 then "-" else "") + NatToString(n / 10) + "." + [DigitChar(n % 10)]
  }

  /** Reads text of the shape "[-]digits.d" back into a number. */
  function ReadFixed1(s: string): real {
    var negative := |s| > 0 && s[0] == '-';
    var body := if negative then s[1..] else s;
    var magnitude :=
      if |body| < 2 then 0.0
      else ParseNat(body[..|body| - 2]) as real + DigitValue(body[|body| - 1]) as real / 10.0;
    if negative then -magnitude else magnitude
  }

  /** toFixed(1) keeps exactly one digit after the point, and reading it back is within 0.05 of x. */
  lemma ToFixed1Accuracy(x: real)
    ensures |ToFixed1(x)| >= 3 && ToFixed1(x)[|ToFixed1(x)| - 2] == '.'
    ensures IsDigit(ToFixed1(x)[|ToFixed1(x)| - 1])
    ensures -0.05 <= ReadFixed1(ToFixed1(x)) - x <= 0.05
  {
    var n := Round(Abs(x) * 10.0);
    var s := ToFixed1(x);
    var digits := NatToString(n / 10) + "." + [DigitChar(n % 10)];
    var body := if x < 0.0 then s[1..] else s;
    assert body == digits by {
      if x < 0.0 {
        assert s == "-" + digits;
      }
    }
    assert body[..|body| - 2] == NatToString(n / 10);
    ParseNatOfNatToString(n / 10);
    var read := (n / 10) as real + (n % 10) as real / 10.0;
    assert read == n as real / 10.0;
    if x < 0.0 {
      assert s[0] == '-';
    } else {
      assert s == digits;
      assert s[0] != '-';
    }
  }

  /** `${v >= 0 ? "+" : ""}${v.toFixed(1)}%`: a signed percentage with one decimal. */
  function SignedPercent(v: real): (s: string)
    ensures |s| >= 4 && s[|s| - 1] == '%'
    ensures s[0] == '+' <==> v >= 0.0
    ensures s[0] == '-' <==> v < 0.0
  {
    var fixed := ToFixed1(v);
    assert v >= 0.0 ==> IsDigit(fixed[0]);
    (if v >= 0.0 then "+" else "") + fixed + "%"
  }

  /** Reads a signed percentage back: drop the '+' and the '%', then read the number. */
  function ReadPercent(s: string): real {
    var body := if |s| > 0 && s[|s| - 1] == '%' then s[..|s| - 1] else s;
    ReadFixed1(if |body| > 0 && body[0] == '+' then body[1..] else body)
  }

  /** The percentage shown is the value to within 0.05. */
  lemma SignedPercentAccuracy(v: real)
    ensures -0.05 <= ReadPercent(SignedPercent(v)) - v <= 0.05
  {
    var fixed := ToFixed1(v);
    var s := SignedPercent(v);
    ToFixed1Accuracy(v);
    assert s[..|s| - 1] == (if v >= 0.0 then "+" else "") + fixed;
    if v >= 0.0 {
      assert ("+" + fixed)[1..] == fixed;
      assert ReadPercent(s) == ReadFixed1(fixed);
    } else {
      assert s == fixed + "%";
      assert s[..|s| - 1] == fixed;
      assert fixed[0] == '-';
      assert ReadPercent(s) == ReadFixed1(fixed);
    }
  }
}
