/** Option, Go's 32-bit integers and decimal rendering, shared by every other module. */
module Basics {

  datatype Option<+T> = None | Some(value: T)

  /** Go's int32. */
  type int32 = x: int | -0x8000_0000 <= x <= 0x7FFF_FFFF

  /** The conversion int32(n) and every int32 product: two's complement wrap-around. */
  function Wrap32(n: int): (r: int32)
    ensures -0x8000_0000 <= n <= 0x7FFF_FFFF ==> r == n
  {
    (n + 0x8000_0000) % 0x1_0000_0000 - 0x8000_0000
  }

  function Digit(d: nat): char
    requires d < 10
  {
    "0123456789"[d]
  }

  /** Decimal rendering of a non-negative integer. */
  function Itoa(n: nat): string {
    if n < 10 then [Digit(n)] else Itoa(n / 10) + [Digit(n % 10)]
  }

  /** Decimal rendering of any integer, as strconv.Itoa does it. */
  function ItoaSigned(n: int): string {
    if n < 0 then "-" + Itoa(-n) else Itoa(n)
  }

  predicate IsDigit(c: char) { '0' <= c <= '9' }

  predicate AllDigits(s: string) {
    s != "" && forall i :: 0 <= i < |s| ==> IsDigit(s[i])
  }

  function DecimalValue(s: string): nat
    requires forall i :: 0 <= i < |s| ==> IsDigit(s[i])
  {
    if s == "" then 0
    else
      assert IsDigit(s[|s| - 1]);
      10 * DecimalValue(s[..|s| - 1]) + (s[|s| - 1] as int - '0' as int)
  }

  lemma {:induction false} ItoaRoundTrip(n: nat)
    ensures AllDigits(Itoa(n))
    ensures DecimalValue(Itoa(n)) == n
    ensures n > 0 ==> Itoa(n)[0] != '0'
    ensures n < 10 <==> |Itoa(n)| == 1
  {
    var s := Itoa(n);
    if n >= 10 {
      ItoaRoundTrip(n / 10);
      assert s[..|s| - 1] == Itoa(n / 10);
    }
  }

  /** Different integers never render alike. */
  lemma ItoaSignedInjective(m: int, n: int)
    requires ItoaSigned(m) == ItoaSigned(n)
    ensures m == n
  {
    ItoaRoundTrip(if m < 0 then -m else m);
    ItoaRoundTrip(if n < 0 then -n else n);
    if m < 0 && n < 0 {
      assert ItoaSigned(m)[1..] == Itoa(-m) && ItoaSigned(n)[1..] == Itoa(-n);
    }
  }
}
