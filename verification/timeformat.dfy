/** `formatTime` of utils/commonHelpers.ts: seconds as `M:SS`, with the
    number-to-string conversion and `padStart` it relies on. */
module TimeFormat {

  function Digit(d: int): char
    requires 0 <= d < 10
  {
    ('0' as int + d) as char
  }

  function DigitValue(c: char): int {
    c as int - '0' as int
  }

  predicate IsDigit(c: char) {
    '0' <= c <= '9'
  }

  /** Decimal notation of a natural number, without leading zeros. */
  function NatToString(n: nat): (s: string)
    ensures 1 <= |s|
    ensures forall i :: 0 <= i < |s| ==> IsDigit(s[i])
    ensures n < 10 <==> |s| == 1
    decreases n
  {
    if n < 10 then [Digit(n)] else NatToString(n / 10) + [Digit(n % 10)]
  }

  /** `Number.prototype.toString()` on an integer. */
  function IntToString(n: int): string {
    if n < 0 then "-" + NatToString(-n) else NatToString(n)
  }

  /** `padStart(2, '0')`. */
  function PadStart2(s: string): (r: string)
    ensures 2 <= |r| && (|s| >= 2 ==> r == s)
    ensures |s| < 2 ==> r[2 - |s|..] == s && forall i :: 0 <= i < 2 - |s| ==> r[i] == '0'
  {
    if |s| >= 2 then s else seq(2 - |s|, i => '0') + s
  }

  /** `%` of JavaScript, whose remainder takes the sign of the dividend. */
  function JsRem(a: int, b: int): (r: int)
    requires b > 0
    ensures a >= 0 ==> r == a % b
    ensures a < 0 ==> -b < r <= 0
  {
    if a >= 0 then a % b else -((-a) % b)
  }

  /** Negating the dividend negates the remainder. */
  lemma JsRemOdd(a: int, b: int)
    requires b > 0
    ensures JsRem(-a, b) == -JsRem(a, b)
  {
  }

  /** `formatTime(seconds)`: `Math.floor(seconds / 60)`, a colon, and
      `seconds % 60` padded to two characters. */
  function FormatTime(seconds: int): string {
    IntToString(seconds / 60) + ":" + PadStart2(IntToString(JsRem(seconds, 60)))
  }

  /** Reading a string of digits back as a number. */
  function ParseNat(s: string): int {
    if |s| == 0 then 0 else ParseNat(s[..|s| - 1]) * 10 + DigitValue(s[|s| - 1])
  }

  lemma {:induction false} ParseNatToString(n: nat)
    ensures ParseNat(NatToString(n)) == n
    decreases n
  {
    var s := NatToString(n);
    if n >= 10 {
      ParseNatToString(n / 10);
      assert s[..|s| - 1] == NatToString(n / 10);
    } else {
      assert s[..0] == [];
    }
  }

  /** Any seconds part below 60, padded, is exactly its two decimal digits. */
  lemma TwoDigits(k: nat)
    requires k < 60
    ensures PadStart2(NatToString(k)) == [Digit(k / 10), Digit(k % 10)]
  {
    if k >= 10 {
      assert NatToString(k / 10) == [Digit(k / 10)];
    }
  }

  lemma ParseTwoDigits(k: nat)
    requires k < 60
    ensures ParseNat([Digit(k / 10), Digit(k % 10)]) == k
  {
    var s := [Digit(k / 10), Digit(k % 10)];
    assert s[..1] == [Digit(k / 10)];
    assert s[..1][..0] == [];
    assert DigitValue(s[0]) == k / 10 && DigitValue(s[1]) == k % 10;
    assert ParseNat(s[..1]) == k / 10;
    assert ParseNat(s) == (k / 10) * 10 + k % 10;
  }

  /** The inverse of `FormatTime` for its `M:SS` shape. */
  function ParseTime(t: string): int
    requires |t| >= 3
  {
    ParseNat(t[..|t| - 3]) * 60 + ParseNat(t[|t| - 2..])
  }

  /** For a non-negative number of seconds the output is the minutes, a
      colon and exactly two digits below 60, and reading it back as
      `minutes * 60 + seconds` gives the input. */
  lemma FormatTimeRoundTrip(seconds: nat)
    ensures var t := FormatTime(seconds);
            && |t| >= 4 && t[|t| - 3] == ':'
            && t[..|t| - 3] == NatToString(seconds / 60)
            && IsDigit(t[|t| - 2]) && IsDigit(t[|t| - 1])
            && ParseNat(t[|t| - 2..]) < 60
            && ParseTime(t) == seconds
  {
    var k := seconds % 60;
    TwoDigits(k);
    var m := NatToString(seconds / 60);
    var t := FormatTime(seconds);
    assert t == m + ":" + [Digit(k / 10), Digit(k % 10)];
    assert t[..|t| - 3] == m;
    assert t[|t| - 2..] == [Digit(k / 10), Digit(k % 10)];
    ParseNatToString(seconds / 60);
    ParseTwoDigits(k);
    assert ParseTime(t) == (seconds / 60) * 60 + k;
  }

  /** The documented examples, and a negative input carried through
      JavaScript's floor and remainder. */
  lemma FormatTimeExamples()
    ensures FormatTime(90) == "1:30"
    ensures FormatTime(5) == "0:05"
    ensures FormatTime(-5) == "-1:-5"
  {
    assert NatToString(30) == "30" by {
      assert NatToString(3) == "3";
    }
  }
}
