/**
 * `msToHMS` of server/public/main.js: a duration in milliseconds as
 * `hh:mm:ss`, each field left-padded with '0' to at least two characters.
 * JavaScript's `Math.floor`, `%` (which truncates toward zero),
 * `Number.prototype.toString` on integers and `padStart` are written out.
 */
module DashboardFormat {

  /** `Math.floor(a / b)` for a positive divisor; Dafny's division already rounds down then. */
  function FloorDiv(a: int, b: int): (q: int)
    requires b > 0
    ensures q * b <= a < q * b + b
  {
    a / b
  }

  /** JavaScript's `a % b` for a positive divisor: the sign follows the dividend. */
  function JsRem(a: int, b: int): (r: int)
    requires b > 0
    ensures a >= 0 ==> 0 <= r < b && r == a - FloorDiv(a, b) * b
    ensures a < 0 ==> -b < r <= 0
  {
    if a >= 0 then a % b else -((-a) % b)
  }

  function DigitChar(d: nat): (c: char)
    requires d < 10
  {
    "0123456789"[d]
  }

  predicate IsDigit(c: char) {
    '0' <= c <= '9'
  }

  function DigitValue(c: char): nat
    requires IsDigit(c)
  {
    (c - '0') as nat
  }

  predicate AllDigits(s: string) {
    forall i | 0 <= i < |s| :: IsDigit(s[i])
  }

  /** `n.toString()` for a non-negative integer: decimal, no leading zeros. */
  function NatToString(n: nat): (s: string)
    ensures 1 <= |s|
    decreases n
  {
    if n < 10 then [DigitChar(n)] else NatToString(n / 10) + [DigitChar(n % 10)]
  }

  /** `i.toString()` for any integer. */
  function IntToString(i: int): string {
    if i < 0 then "-" + NatToString(-i) else NatToString(i)
  }

  /** The independent reading of a digit string, most significant digit first. */
  function DecimalValue(s: string): nat
    requires AllDigits(s)
  {
    if s == [] then 0 else DecimalValue(s[..|s| - 1]) * 10 + DigitValue(s[|s| - 1])
  }

  /** `n` characters '0'. */
  function ZeroChars(n: nat): (z: string)
    ensures |z| == n && forall i | 0 <= i < n :: z[i] == '0'
  {
    seq(n, _ => '0')
  }

  /** `s.padStart(width, '0')` */
  function PadStart(s: string, width: nat): (r: string)
    ensures |r| == if |s| >= width then |s| else width
    ensures r[|r| - |s|..] == s
    ensures forall i | 0 <= i < |r| - |s| :: r[i] == '0'
  {
    if |s| >= width then s else ZeroChars(width - |s|) + s
  }

  function MsToHMS(ms: int): (r: string)
    ensures |r| >= 8
  {
    var totalSec := FloorDiv(ms, 1000);
    var h := PadStart(IntToString(FloorDiv(totalSec, 3600)), 2);
    var m := PadStart(IntToString(FloorDiv(JsRem(totalSec, 3600), 60)), 2);
    var s := PadStart(IntToString(JsRem(totalSec, 60)), 2);
    assert |h| >= 2 && |m| >= 2 && |s| >= 2;
    h + ":" + m + ":" + s
  }

  /** Printing a natural number and reading it back gives the number; one digit below 10, at most two below 100. */
  lemma {:induction false} NatToStringRoundTrip(n: nat)
    ensures AllDigits(NatToString(n))
    ensures DecimalValue(NatToString(n)) == n
    ensures n < 10 ==> |NatToString(n)| == 1
    ensures n < 100 ==> |NatToString(n)| <= 2
    decreases n
  {
    var s := NatToString(n);
    if n < 10 {
      assert s[..0] == [];
    } else {
      NatToStringRoundTrip(n / 10);
      assert s[..|s| - 1] == NatToString(n / 10);
      assert DigitValue(s[|s| - 1]) == n % 10;
    }
  }

  /** A leading '0' does not change the value of a digit string. */
  lemma {:induction false} LeadingZero(s: string)
    requires AllDigits(s)
    ensures AllDigits("0" + s) && DecimalValue("0" + s) == DecimalValue(s)
    decreases |s|
  {
    var t := "0" + s;
    if s == [] {
      assert t[..0] == [];
    } else {
      LeadingZero(s[..|s| - 1]);
      assert t[..|t| - 1] == "0" + s[..|s| - 1];
    }
  }

  /** Zero-padding keeps the digits and the value. */
  lemma PadStartValue(s: string, width: nat)
    requires AllDigits(s)
    ensures AllDigits(PadStart(s, width)) && DecimalValue(PadStart(s, width)) == DecimalValue(s)
  {
    if |s| < width {
      Zeros(width - |s|, s);
    }
  }

  /** Any number of leading zeros keeps the digits and the value. */
  lemma {:induction false} Zeros(n: nat, s: string)
    requires AllDigits(s)
    ensures AllDigits(ZeroChars(n) + s) && DecimalValue(ZeroChars(n) + s) == DecimalValue(s)
    decreases n
  {
    if n > 0 {
      var shorter := ZeroChars(n - 1) + s;
      Zeros(n - 1, s);
      LeadingZero(shorter);
      assert ZeroChars(n) + s == "0" + shorter;
    } else {
      assert ZeroChars(n) + s == s;
    }
  }

  /** One padded field of a non-negative value: its digits read back as the value. */
  lemma Field(v: nat)
    ensures AllDigits(PadStart(IntToString(v), 2))
    ensures DecimalValue(PadStart(IntToString(v), 2)) == v
    ensures |PadStart(IntToString(v), 2)| >= 2
    ensures v < 100 ==> |PadStart(IntToString(v), 2)| == 2
  {
    NatToStringRoundTrip(v);
    PadStartValue(NatToString(v), 2);
  }

  /** Whole seconds split into hours, minutes below 60 and seconds below 60, as `msToHMS` computes them. */
  lemma Decompose(totalSec: int)
    requires totalSec >= 0
    ensures var mv := FloorDiv(JsRem(totalSec, 3600), 60); var sv := JsRem(totalSec, 60);
      && FloorDiv(totalSec, 3600) >= 0 && 0 <= mv < 60 && 0 <= sv < 60
      && FloorDiv(totalSec, 3600) * 3600 + mv * 60 + sv == totalSec
  {
    var hv := totalSec / 3600;
    var rest := totalSec % 3600;
    assert totalSec == hv * 3600 + rest;
    assert rest == (rest / 60) * 60 + rest % 60;
    assert totalSec % 60 == rest % 60 by {
      assert totalSec == (hv * 60 + rest / 60) * 60 + rest % 60;
    }
  }

  /**
   * `r` is an `H:MM:SS` text for `totalSec` whole seconds: two colons at
   * fixed distances from the end, digits elsewhere, at least two hour
   * digits, minutes and seconds below 60, and the fields read back as
   * `totalSec`.
   */
  predicate ReadsBackAs(r: string, totalSec: int) {
    var n := |r|;
    && n >= 8 && r[n - 3] == ':' && r[n - 6] == ':'
    && AllDigits(r[..n - 6]) && AllDigits(r[n - 5..n - 3]) && AllDigits(r[n - 2..])
    && DecimalValue(r[n - 5..n - 3]) < 60 && DecimalValue(r[n - 2..]) < 60
    && DecimalValue(r[..n - 6]) * 3600 + DecimalValue(r[n - 5..n - 3]) * 60 + DecimalValue(r[n - 2..]) == totalSec
  }

  /** Three fields joined by colons, when minutes and seconds have two digits. */
  lemma Layout(h: string, m: string, s: string, r: string, totalSec: int)
    requires |h| >= 2 && |m| == 2 && |s| == 2
    requires AllDigits(h) && AllDigits(m) && AllDigits(s)
    requires DecimalValue(m) < 60 && DecimalValue(s) < 60
    requires r == h + ":" + m + ":" + s
    requires totalSec == DecimalValue(h) * 3600 + DecimalValue(m) * 60 + DecimalValue(s)
    ensures ReadsBackAs(r, totalSec)
  {
    var n := |r|;
    assert r[..n - 6] == h;
    assert r[n - 5..n - 3] == m;
    assert r[n - 2..] == s;
    assert r[n - 3] == ':' && r[n - 6] == ':';
    assert AllDigits(r[..n - 6]) && AllDigits(r[n - 5..n - 3]) && AllDigits(r[n - 2..]);
    assert DecimalValue(r[..n - 6]) == DecimalValue(h);
    assert DecimalValue(r[n - 5..n - 3]) == DecimalValue(m);
    assert DecimalValue(r[n - 2..]) == DecimalValue(s);
  }

  /**
   * For a non-negative duration the text reads back as the whole seconds of
   * the duration, and the hours are never cut: they take two characters or
   * as many as their decimal digits.
   */
  lemma MsToHMSReadsBack(ms: int)
    requires ms >= 0
    ensures ReadsBackAs(MsToHMS(ms), ms / 1000)
    ensures |MsToHMS(ms)| - 6 == if ms / 1000 / 3600 < 10 then 2 else |NatToString(ms / 1000 / 3600)|
  {
    var totalSec := FloorDiv(ms, 1000);
    Decompose(totalSec);
    var hv, mv, sv := FloorDiv(totalSec, 3600), FloorDiv(JsRem(totalSec, 3600), 60), JsRem(totalSec, 60);
    Field(hv);
    Field(mv);
    Field(sv);
    var h, m, s := PadStart(IntToString(hv), 2), PadStart(IntToString(mv), 2), PadStart(IntToString(sv), 2);
    assert MsToHMS(ms) == h + ":" + m + ":" + s;
    assert DecimalValue(h) == hv && DecimalValue(m) == mv && DecimalValue(s) == sv;
    Layout(h, m, s, MsToHMS(ms), ms / 1000);
  }
}
