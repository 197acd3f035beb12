/** Conv.h: how many digits a number has, by two algorithms, and its text written
    backwards into a buffer. */
module IntegerPrinting {

  import opened Common
  import opened IntegerText

  const TWO_TO_64: nat := 0x1_0000_0000_0000_0000

  const POWERS_OF_10: seq<nat> := [
    1, 10, 100, 1000, 10000, 100000, 1000000, 10000000, 100000000, 1000000000,
    10000000000, 100000000000, 1000000000000, 10000000000000, 100000000000000,
    1000000000000000, 10000000000000000, 100000000000000000, 1000000000000000000,
    10000000000000000000]

  /** Zero bits above the highest bit set of a 64-bit number. */
  function LeadingZeroes(v: nat): (z: nat)
    requires 0 < v < TWO_TO_64
    ensures z <= 63 && Pow2(63 - z) <= v < Pow2(64 - z)
  {
    LogFits(v);
    63 - Log2(v)
  }

  function Log2(v: nat): (e: nat)
    requires v > 0
    ensures Pow2(e) <= v < Pow2(e + 1)
  {
    if v == 1 then 0 else 1 + Log2(v / 2)
  }

  lemma LogFits(v: nat)
    requires 0 < v < TWO_TO_64
    ensures Log2(v) <= 63
  {
    if Log2(v) > 63 {
      Pow2Grows(64, Log2(v));
      TwoTo64();
    }
  }

  lemma TwoTo64()
    ensures Pow2(64) == TWO_TO_64
  {
    assert Pow2(8) == 0x100 && Pow2(16) == 0x1_0000 && Pow2(24) == 0x100_0000;
    assert Pow2(32) == 0x1_0000_0000 && Pow2(40) == 0x100_0000_0000;
    assert Pow2(48) == 0x1_0000_0000_0000 && Pow2(56) == 0x100_0000_0000_0000;
  }

  lemma {:induction false} Pow2Grows(m: nat, n: nat)
    requires m <= n
    ensures Pow2(m) <= Pow2(n)
    decreases n
  {
    if m < n {
      Pow2Grows(m, n - 1);
    }
  }

  lemma {:induction false} Pow2Adds(m: nat, n: nat)
    ensures Pow2(m + n) == Pow2(m) * Pow2(n)
  {
    if n > 0 {
      Pow2Adds(m, n - 1);
      assert Pow2(m) * (2 * Pow2(n - 1)) == 2 * (Pow2(m) * Pow2(n - 1));
    }
  }

  /** Ten bits are a little more than three digits. */
  lemma {:induction false} KiloIsAboutThousand(a: nat)
    requires a <= 6
    ensures Pow10(3 * a) <= Pow2(10 * a) && 32 * Pow2(10 * a) <= (32 + a) * Pow10(3 * a)
  {
    if a > 0 {
      KiloIsAboutThousand(a - 1);
      Pow2Adds(10 * a - 10, 10);
      Pow10Adds(3 * a - 3, 3);
      assert Pow2(10) == 1024 && Pow10(3) == 1000;
      hide Pow2, Pow10;
      Slack(a, Pow10(3 * a - 3), Pow2(10 * a - 10));
    }
  }

  lemma Slack(a: nat, p: nat, q: nat)
    requires 0 < a <= 6 && 32 * q <= (31 + a) * p
    ensures 32 * (q * 1024) <= (32 + a) * (p * 1000)
  {
    assert (256 - 24 * a) * p >= 0;
  }

  /** Digits that r < 10 further bits are good for. */
  function MoreDigits(r: nat): nat {
    if r < 4 then 0 else if r < 7 then 1 else 2
  }

  lemma EstimateInTens(a: nat, r: nat)
    requires a <= 6 && r < 10
    ensures (10 * a + r) * 77 / 256 == 3 * a + MoreDigits(r)
  {
  }

  /** 77 / 256 is close enough to the decimal logarithm of two: the length estimated from
      the number of bits is never too long, and too short by at most one. */
  lemma EstimateIsClose(bits: nat, m: nat)
    requires bits <= 63 && m == 1 + bits * 77 / 256
    ensures m < 20 && Pow10(m - 1) <= Pow2(bits) && Pow2(bits + 1) <= Pow10(m + 1)
  {
    var a, r := bits / 10, bits % 10;
    var e := MoreDigits(r);
    EstimateInTens(a, r);
    KiloIsAboutThousand(a);
    Pow2Adds(10 * a, r);
    Pow10Adds(3 * a, e);
    SmallPowers(r);
    Between(Pow2(10 * a), Pow2(r), Pow10(3 * a), Pow10(e), a);
    assert Pow2(1) == 2 && Pow10(2) == 100;
    hide Pow2, Pow10;
    Pow2Adds(bits, 1);
    Pow10Adds(m - 1, 2);
  }

  lemma SmallPowers(r: nat)
    requires r < 10
    ensures Pow10(MoreDigits(r)) <= Pow2(r) <= 8 * Pow10(MoreDigits(r))
  {
    assert Pow2(1) == 2 && Pow2(2) == 4 && Pow2(3) == 8 && Pow2(4) == 16 && Pow2(5) == 32;
    assert Pow2(6) == 64 && Pow2(7) == 128 && Pow2(8) == 256 && Pow2(9) == 512;
  }

  lemma Between(q: nat, y: nat, p: nat, z: nat, a: nat)
    requires a <= 6 && p <= q && 32 * q <= (32 + a) * p && z <= y <= 8 * z
    ensures p * z <= q * y && 2 * (q * y) <= 100 * (p * z)
  {
    assert (32 + a) * p <= 38 * p by {
      ProductsGrow(32 + a, 38, p, p);
    }
    ProductsGrow(p, q, z, y);
    ProductsGrow(32 * q, 38 * p, y, 8 * z);
    assert 32 * (q * y) == (32 * q) * y;
    assert (38 * p) * (8 * z) == 304 * (p * z);
  }

  lemma PowersAreRight(m: nat)
    requires m < 20
    ensures POWERS_OF_10[m] == Pow10(m)
  {
    assert Pow10(7) == 10000000 && Pow10(14) == 100000000000000;
  }

  /** digits10 where the processor counts leading zeroes. */
  method Digits10Fast(v: nat) returns (result: nat)
    requires v < TWO_TO_64
    ensures result == |Text(v)|
  {
    if v == 0 {
      return 1;
    }
    var bits := 63 - LeadingZeroes(v);
    var minLength := 1 + bits * 77 / 256;
    EstimateIsClose(bits, minLength);
    PowersAreRight(minLength);
    result := minLength + if v >= POWERS_OF_10[minLength] then 1 else 0;
    LengthOfText(v, result);
  }

  /** digits10 everywhere else. */
  method Digits10Loop(v: nat) returns (result: nat)
    ensures result == |Text(v)|
  {
    result := 1;
    var rest := v;
    while true
      invariant result - 1 + |Text(rest)| == |Text(v)|
      decreases rest
    {
      if rest < 10 {
        return;
      }
      if rest < 100 {
        return result + 1;
      }
      if rest < 1000 {
        LengthOfText(rest, 3);
        return result + 2;
      }
      if rest < 10000 {
        LengthOfText(rest, 4);
        assert Pow10(3) == 1000 && Pow10(4) == 10000;
        return result + 3;
      }
      FourDigitsFewer(rest);
      rest := rest / 10000;
      result := result + 4;
    }
  }

  lemma FourDigitsFewer(v: nat)
    requires v >= 10000
    ensures |Text(v)| == 4 + |Text(v / 10000)|
  {
    var q := v / 10 / 10 / 10;
    assert |Text(v)| == 1 + |Text(v / 10)| == 2 + |Text(v / 10 / 10)| == 3 + |Text(q)|;
    assert q >= 10 && q / 10 == v / 10000;
  }

  /** A fixed-size buffer. writes (history) lists the positions stored to, in order. */
  class Buffer {
    const cells: array<char>
    ghost var writes: seq<nat>

    constructor (size: nat)
      ensures fresh(cells) && cells.Length == size && writes == []
    {
      cells := new char[size];
      writes := [];
    }

    method Store(pos: nat, c: char)
      requires pos < cells.Length
      modifies this, cells
      ensures cells[..] == old(cells[..])[pos := c] && writes == old(writes) + [pos]
    {
      cells[pos] := c;
      writes := writes + [pos];
    }
  }

  /** The positions below n, the last one first. */
  function CountDown(n: nat): (s: seq<nat>)
    ensures |s| == n && forall i :: 0 <= i < n ==> s[i] == n - 1 - i
  {
    if n == 0 then [] else [n - 1] + CountDown(n - 1)
  }

  lemma StoredBefore(cells: string, pos: nat, front: string, c: char)
    requires pos < |cells|
    ensures front + [c] + cells[pos + 1..] == front + cells[pos := c][pos..]
  {
  }

  /** Writes the digits from the last to the first, each position once; the rest of the
      buffer stays. */
  method Uint64ToBuffer(v: nat, buffer: Buffer) returns (result: nat)
    requires v < TWO_TO_64 && |Text(v)| <= buffer.cells.Length
    modifies buffer, buffer.cells
    ensures result == |Text(v)|
    ensures buffer.cells[..] == Text(v) + old(buffer.cells[result..])
    ensures buffer.writes == old(buffer.writes) + CountDown(result)
  {
    result := Digits10Fast(v);
    var pos := result - 1;
    var rest := v;
    while rest >= 10
      invariant 0 <= pos < result && pos == |Text(rest)| - 1
      invariant Text(v) + old(buffer.cells[result..]) == Text(rest) + buffer.cells[..][pos + 1..]
      invariant old(buffer.writes) + CountDown(result) == buffer.writes + CountDown(pos + 1)
    {
      var q := rest / 10;
      var r := rest % 10;
      StoredBefore(buffer.cells[..], pos, Text(q), Digit(r));
      buffer.Store(pos, Digit(r));
      pos := pos - 1;
      rest := q;
    }
    StoredBefore(buffer.cells[..], 0, [], Digit(rest));
    buffer.Store(pos, Digit(rest));
  }

  /** The string that text is appended to. */
  class Target {
    var chars: string

    constructor ()
      ensures chars == ""
    {
      chars := "";
    }

    method PushBack(c: char)
      modifies this
      ensures chars == old(chars) + [c]
    {
      chars := chars + [c];
    }

    method Append(buffer: Buffer, n: nat)
      requires n <= buffer.cells.Length
      modifies this
      ensures chars == old(chars) + buffer.cells[..n]
    {
      chars := chars + buffer.cells[..n];
    }
  }

  lemma TwentyAreEnough(v: nat)
    requires v < TWO_TO_64
    ensures |Text(v)| <= 20
  {
    assert Pow10(7) == 10000000 && Pow10(14) == 100000000000000;
    assert v < Pow10(20);
    if |Text(v)| > 20 {
      LengthOfText(v, |Text(v)|);
      Pow10Grows(20, |Text(v)| - 1);
    }
  }

  /** Complement and increment on 64 bits give the absolute value of a negative number,
      the least one included. */
  function Negated(value: int): (m: nat)
    requires -(TWO_TO_64 / 2) <= value < 0
    ensures m == -value < TWO_TO_64
  {
    (TWO_TO_64 - 1 - (value + TWO_TO_64) + 1) % TWO_TO_64
  }

  method AppendDigits(v: nat, result: Target)
    requires v < TWO_TO_64
    modifies result
    ensures result.chars == old(result.chars) + Text(v)
  {
    TwentyAreEnough(v);
    var buffer := new Buffer(20);
    var n := Uint64ToBuffer(v, buffer);
    assert buffer.cells[..n] == Text(v);
    result.Append(buffer, n);
  }

  lemma FitsIn64Bits(t: Integral, value: int)
    requires InRange(t, value)
    ensures -(TWO_TO_64 / 2) <= value < TWO_TO_64 && (!t.signed ==> 0 <= value)
  {
  }

  method ToAppend(t: Integral, value: int, result: Target)
    requires InRange(t, value)
    modifies result
    ensures result.chars == old(result.chars) + Printed(value)
  {
    FitsIn64Bits(t, value);
    hide InRange, Modulus, Negated, Text;
    if t.signed && value < 0 {
      result.PushBack('-');
      AppendDigits(Negated(value), result);
    } else {
      AppendDigits(value, result);
    }
  }
}
