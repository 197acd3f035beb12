/** Integers and their decimal text: what printing and parsing are measured against. */
module IntegerText {


  datatype Width = Bits8 | Bits16 | Bits32 | Bits64

  /** An integral type of the program. */
  datatype Integral = Integral(width: Width, signed: bool)

  /** Two to the number of bits. */
  function Modulus(w: Width): (m: nat)
    ensures m > 1
  {
    match w
    case Bits8 => 0x100
    case Bits16 => 0x1_0000
    case Bits32 => 0x1_0000_0000
    case Bits64 => 0x1_0000_0000_0000_0000
  }

  predicate InRange(t: Integral, n: int) {
    if t.signed then -(Modulus(t.width) / 2) <= n < Modulus(t.width) / 2 else 0 <= n < Modulus(t.width)
  }

  function Pow10(n: nat): (p: nat)
    ensures p > 0
  {
    if n == 0 then 1 else 10 * Pow10(n - 1)
  }

  // ---------- reading ----------

  predicate IsDigit(c: char) {
    '0' <= c <= '9'
  }

  ghost predicate AllDigits(s: string) {
    forall i :: 0 <= i < |s| ==> IsDigit(s[i])
  }

  function DigitValue(c: char): (d: nat)
    requires IsDigit(c)
    ensures d < 10
  {
    c as int - '0' as int
  }

  /** The number a run of digits stands for. */
  ghost function Value(s: string): nat
    requires AllDigits(s)
  {
    if s == "" then 0 else 10 * Value(s[..|s| - 1]) + DigitValue(s[|s| - 1])
  }

  lemma {:induction false} ValueSplits(s: string, k: nat)
    requires AllDigits(s) && k <= |s|
    ensures Value(s) == Value(s[..k]) * Pow10(|s| - k) + Value(s[k..])
  {
    if k == |s| {
      assert s[..k] == s;
    } else {
      var n := |s| - 1;
      ValueSplits(s[..n], k);
      assert s[..n][..k] == s[..k] && s[..n][k..] == s[k..][..n - k];
      assert Pow10(|s| - k) == 10 * Pow10(n - k);
      assert s[k..][n - k] == s[n];
      TenTimes(Value(s[..k]), Pow10(n - k));
    }
  }

  lemma TenTimes(a: nat, p: nat)
    ensures a * (10 * p) == 10 * (a * p)
  {
  }

  lemma {:induction false} ValueBelow(s: string)
    requires AllDigits(s)
    ensures Value(s) < Pow10(|s|)
  {
    if s != "" {
      ValueBelow(s[..|s| - 1]);
    }
  }

  /** Without a leading zero the length is that of the number. */
  lemma {:induction false} ValueAtLeast(s: string)
    requires AllDigits(s) && s != "" && s[0] != '0'
    ensures Pow10(|s| - 1) <= Value(s)
  {
    if |s| > 1 {
      ValueAtLeast(s[..|s| - 1]);
    } else {
      assert s[..0] == "";
    }
  }

  lemma {:induction false} Pow10Adds(m: nat, n: nat)
    ensures Pow10(m + n) == Pow10(m) * Pow10(n)
  {
    if n > 0 {
      Pow10Adds(m, n - 1);
      TenTimes(Pow10(m), Pow10(n - 1));
    }
  }

  lemma ProductsGrow(a: nat, b: nat, c: nat, d: nat)
    requires a <= b && c <= d
    ensures a * c <= b * d
  {
    assert b * d - a * c == b * (d - c) + (b - a) * c;
  }

  lemma {:induction false} Pow10Grows(m: nat, n: nat)
    requires m <= n
    ensures Pow10(m) <= Pow10(n)
    decreases n
  {
    if m < n {
      Pow10Grows(m, n - 1);
    }
  }

  // ---------- writing ----------

  function Digit(d: nat): (c: char)
    requires d < 10
    ensures IsDigit(c) && DigitValue(c) == d
  {
    ('0' as int + d) as char
  }

  /** The decimal text of a natural number. */
  function Text(v: nat): (s: string)
    ensures |s| > 0
  {
    if v < 10 then [Digit(v)] else Text(v / 10) + [Digit(v % 10)]
  }

  /** The decimal text of an integer. */
  function Printed(n: int): string {
    if n < 0 then "-" + Text(-n) else Text(n)
  }

  /** Reading the text of a number gives the number. */
  lemma {:induction false} TextReads(v: nat)
    ensures AllDigits(Text(v)) && Value(Text(v)) == v
    ensures v > 0 ==> Text(v)[0] != '0'
  {
    if v < 10 {
      assert Text(v)[..0] == "";
    } else {
      TextReads(v / 10);
      assert Text(v)[..|Text(v)| - 1] == Text(v / 10);
    }
  }

  /** Only the text of the number itself has no superfluous zero. */
  lemma {:induction false} TextIsCanonical(s: string)
    requires AllDigits(s) && s != "" && (s[0] == '0' ==> |s| == 1)
    ensures Text(Value(s)) == s
  {
    var n := |s| - 1;
    if n == 0 {
      assert s[..0] == "" && s == [s[0]];
    } else {
      TextIsCanonical(s[..n]);
      ValueAtLeast(s[..n]);
      assert s == s[..n] + [s[n]];
    }
  }

  /** The length of the text is one more than the decimal logarithm. */
  lemma LengthOfText(v: nat, n: nat)
    requires v > 0 && n > 0
    ensures |Text(v)| == n <==> Pow10(n - 1) <= v < Pow10(n)
  {
    var s := Text(v);
    TextReads(v);
    ValueBelow(s);
    ValueAtLeast(s);
    if |s| < n {
      Pow10Grows(|s|, n - 1);
    } else if n < |s| {
      Pow10Grows(n, |s| - 1);
    }
  }
}
