/** Conv.cpp: decimal text to integers. Digits are read in groups of four with the
    arithmetic of the unsigned type, after one comparison that has ruled out overflow. */
module IntegerParsing {

  import opened IntegerText

  datatype Code =
    | EmptyInputString | InvalidLeadingChar | NoDigits | NonDigitChar
    | PositiveOverflow | NegativeOverflow | NonWhitespaceAfterEnd

  datatype Expected = Success(n: int) | Failure(code: Code)

  /** What the shift tables hold for a character that is no digit. */
  const OOR: nat := 10000

  function MaxString(w: Width): string {
    match w
    case Bits8 => "255"
    case Bits16 => "65535"
    case Bits32 => "4294967295"
    case Bits64 => "18446744073709551615"
  }

  /** Digits that every number of so many digits fits in the type. */
  function Digits10(w: Width): nat {
    match w
    case Bits8 => 2
    case Bits16 => 4
    case Bits32 => 9
    case Bits64 => 19
  }

  /** An entry of the tables shift1, shift10, shift100 and shift1000. */
  function Shift(c: char, unit: nat): nat {
    if IsDigit(c) then DigitValue(c) * unit else OOR
  }

  /** The sum of four entries, one from each table. */
  function Group(a: char, b: char, c: char, d: char): (sum: nat)
    ensures sum >= OOR <==> !(IsDigit(a) && IsDigit(b) && IsDigit(c) && IsDigit(d))
  {
    Shift(a, 1000) + Shift(b, 100) + Shift(c, 10) + Shift(d, 1)
  }

  /** The conversion to an unsigned type. */
  function Wrap(w: Width, x: int): (r: nat)
    ensures r < Modulus(w)
    ensures 0 <= x < Modulus(w) ==> r == x
  {
    x % Modulus(w)
  }

  /** strncmp over the whole of two texts of one length. */
  function StrNCmp(a: string, b: string): int
    requires |a| == |b|
  {
    if a == "" then 0
    else if a[0] != b[0] then a[0] as int - b[0] as int
    else StrNCmp(a[1..], b[1..])
  }

  function StripZeros(d: string): string {
    if d != "" && d[0] == '0' then StripZeros(d[1..]) else d
  }

  /** The test of digits_to for numbers that do not fit. */
  predicate Overlong(w: Width, d: string) {
    && |d| > Digits10(w)
    && var z := StripZeros(d);
       || |z| > Digits10(w) + 1
       || (|z| == Digits10(w) + 1 && StrNCmp(z, MaxString(w)) > 0)
  }

  function Overflow(negative: bool): Code {
    if negative then NegativeOverflow else PositiveOverflow
  }

  function Signed(negative: bool, value: int): int {
    if negative then -value else value
  }

  /** finalize: the sign is applied in the unsigned type, and overflow is seen by the
      sign of what comes out. */
  function Finalize(t: Integral, negative: bool, value: nat): (r: Expected)
    requires value < Modulus(t.width) && (negative ==> t.signed)
    ensures r == Fit(t, negative, value)
  {
    var m := Modulus(t.width);
    if !t.signed then Success(value)
    else
      var bits := Wrap(t.width, Signed(negative, value));
      var rv := if bits >= m / 2 then bits - m else bits;
      if negative && rv > 0 then Failure(NegativeOverflow)
      else if !negative && rv < 0 then Failure(PositiveOverflow)
      else Success(rv)
  }

  // ---------- the reference ----------

  /** A number with a sign, if the type has it. */
  function Fit(t: Integral, negative: bool, value: nat): Expected {
    var n := Signed(negative, value);
    if InRange(t, n) then Success(n) else Failure(Overflow(negative))
  }

  /** digits_to of an unsigned type. */
  ghost function Reference(w: Width, d: string): Expected {
    if d == "" then Failure(NoDigits)
    else if AllDigits(d) then Fit(Integral(w, false), false, Value(d))
    else Failure(if Overlong(w, d) then PositiveOverflow else NonDigitChar)
  }

  ghost function WithSign(t: Integral, negative: bool, r: Expected): Expected {
    match r
    case Success(v) => if v >= 0 then Fit(t, negative, v) else r
    case Failure(code) => if code.PositiveOverflow? then Failure(Overflow(negative)) else r
  }

  /** What a pointer to position i reads, when beyond is what lies behind the text. */
  function At(s: string, beyond: char, i: nat): char
    requires i <= |s|
  {
    if i < |s| then s[i] else beyond
  }

  /** digits_to of s[b..e]. A signed type looks at position b even if the range is empty. */
  ghost function DigitsReference(t: Integral, s: string, beyond: char, b: nat, e: nat): Expected
    requires b <= e <= |s|
  {
    var c := At(s, beyond, b);
    if !t.signed || IsDigit(c) then WithSign(t, false, Reference(t.width, s[b..e]))
    else if c != '-' && c != '+' then Failure(InvalidLeadingChar)
    else if b == e then Failure(Overflow(c == '-'))
    else WithSign(t, c == '-', Reference(t.width, s[b + 1..e]))
  }

  /** On an empty range a signed type goes by the character behind it: a sign there
      makes an overflow. */
  lemma EmptyRangeReadsBeyond(w: Width, beyond: char)
    ensures DigitsReference(Integral(w, true), "-", beyond, 0, 0) == Failure(NegativeOverflow)
    ensures DigitsReference(Integral(w, true), "+", beyond, 0, 0) == Failure(PositiveOverflow)
    ensures DigitsReference(Integral(w, true), "x", beyond, 0, 0) == Failure(InvalidLeadingChar)
    ensures DigitsReference(Integral(w, true), "", '-', 0, 0) == Failure(NegativeOverflow)
  {
  }

  /** An empty range is reported as such exactly if the type is unsigned, or the character
      behind the range happens to be a digit. */
  lemma EmptyRangeIsReportedIff(t: Integral, s: string, beyond: char, b: nat)
    requires b <= |s|
    ensures DigitsReference(t, s, beyond, b, b).Failure?
    ensures DigitsReference(t, s, beyond, b, b) == Failure(NoDigits) <==> !t.signed || IsDigit(At(s, beyond, b))
  {
  }

  /** The result for a range that is not empty depends on the range only. */
  lemma RangeDecides(t: Integral, s: string, beyond: char, b: nat, e: nat, other: char)
    requires b < e <= |s|
    ensures DigitsReference(t, s, beyond, b, e) == DigitsReference(t, s[b..e], other, 0, e - b)
  {
    assert s[b..e][0..e - b] == s[b..e] && s[b..e][1..e - b] == s[b + 1..e];
  }

  // ---------- the comparison decides overflow ----------

  lemma {:induction false} ComparesNumbers(a: string, b: string)
    requires |a| == |b| && AllDigits(a) && AllDigits(b)
    ensures StrNCmp(a, b) > 0 <==> Value(a) > Value(b)
  {
    if a != "" {
      FirstDigit(a);
      FirstDigit(b);
      ComparesNumbers(a[1..], b[1..]);
      ValueBelow(a[1..]);
      ValueBelow(b[1..]);
      FirstDecides(DigitValue(a[0]), DigitValue(b[0]), Pow10(|a| - 1), Value(a[1..]), Value(b[1..]));
    }
  }

  lemma FirstDigit(a: string)
    requires a != "" && AllDigits(a)
    ensures Value(a) == DigitValue(a[0]) * Pow10(|a| - 1) + Value(a[1..])
  {
    assert Value(a[..1]) == DigitValue(a[0]) by {
      OneMore("", a[0]);
      assert a[..1] == "" + [a[0]];
    }
    hide Value, Pow10, DigitValue, IsDigit, AllDigits;
    ValueSplits(a, 1);
  }

  lemma FirstDecides(x: nat, y: nat, p: nat, u: nat, v: nat)
    requires u < p && v < p
    ensures x > y ==> x * p + u > y * p + v
    ensures x < y ==> x * p + u < y * p + v
  {
    assert (y + 1) * p == y * p + p && (x + 1) * p == x * p + p;
    if x > y {
      ProductsGrow(y + 1, x, p, p);
    } else if x < y {
      ProductsGrow(x + 1, y, p, p);
    }
  }

  lemma {:induction false} StripZerosKeeps(d: string)
    ensures var z := StripZeros(d);
            && |z| <= |d| && (AllDigits(z) <==> AllDigits(d))
            && (AllDigits(d) ==> Value(z) == Value(d))
            && (z != "" ==> z[0] != '0')
  {
    if d != "" && d[0] == '0' {
      StripZerosKeeps(d[1..]);
      assert AllDigits(d[1..]) ==> AllDigits(d) by {
        assert d == [d[0]] + d[1..];
      }
      if AllDigits(d) {
        FirstDigit(d);
      }
    }
  }

  lemma FourMore(s: string, f: string)
    requires |f| == 4 && AllDigits(s) && AllDigits(f)
    ensures AllDigits(s + f) && Value(s + f) == 10000 * Value(s) + Group(f[0], f[1], f[2], f[3])
  {
    OneMore(s, f[0]);
    OneMore(s + [f[0]], f[1]);
    OneMore(s + [f[0]] + [f[1]], f[2]);
    OneMore(s + [f[0]] + [f[1]] + [f[2]], f[3]);
    assert s + f == s + [f[0]] + [f[1]] + [f[2]] + [f[3]];
  }

  lemma OneMore(s: string, c: char)
    requires AllDigits(s) && IsDigit(c)
    ensures AllDigits(s + [c]) && Value(s + [c]) == 10 * Value(s) + DigitValue(c)
  {
    assert (s + [c])[..|s|] == s;
  }

  lemma MaxStringIsMax(w: Width)
    ensures |MaxString(w)| == Digits10(w) + 1 && AllDigits(MaxString(w))
    ensures Value(MaxString(w)) == Modulus(w) - 1
  {
    match w
    case Bits8 => MaxOf8Bits();
    case Bits16 => MaxOf16Bits();
    case Bits32 => MaxOf32Bits();
    case Bits64 => MaxOf64Bits();
  }

  lemma MaxOf8Bits()
    ensures AllDigits("255") && Value("255") == 255
  {
    OneMore("", '2');
    OneMore("2", '5');
    assert "2" + ['5'] == "25";
    OneMore("25", '5');
    assert "25" + ['5'] == "255";
  }

  lemma MaxOf16Bits()
    ensures AllDigits("65535") && Value("65535") == 65535
  {
    FourMore("", "6553");
    assert "" + "6553" == "6553";
    OneMore("6553", '5');
    assert "6553" + ['5'] == "65535";
  }

  lemma MaxOf32Bits()
    ensures AllDigits("4294967295") && Value("4294967295") == 4294967295
  {
    FourMore("", "4294");
    assert "" + "4294" == "4294";
    FourMore("4294", "9672");
    assert "4294" + "9672" == "42949672";
    OneMore("42949672", '9');
    assert "42949672" + ['9'] == "429496729";
    OneMore("429496729", '5');
    assert "429496729" + ['5'] == "4294967295";
  }

  lemma FirstTwelve()
    ensures AllDigits("184467440737") && Value("184467440737") == 184467440737
  {
    FourMore("", "1844");
    assert "" + "1844" == "1844";
    FourMore("1844", "6744");
    assert "1844" + "6744" == "18446744";
    FourMore("18446744", "0737");
    assert "18446744" + "0737" == "184467440737";
  }

  lemma MaxOf64Bits()
    ensures AllDigits("18446744073709551615") && Value("18446744073709551615") == 18446744073709551615
  {
    FirstTwelve();
    FourMore("184467440737", "0955");
    assert "184467440737" + "0955" == "1844674407370955";
    FourMore("1844674407370955", "1615");
    assert "1844674407370955" + "1615" == "18446744073709551615";
  }

  lemma LimitsOfDigits10(w: Width)
    ensures Pow10(Digits10(w)) <= Modulus(w) <= Pow10(Digits10(w) + 1)
  {
    assert Pow10(4) == 10000 && Pow10(9) == 1000000000 && Pow10(14) == 100000000000000;
    assert Pow10(19) == 10000000000000000000;
  }

  /** Comparing texts of equal length is comparing numbers, so that digits_to turns a
      number away if and only if it does not fit. */
  lemma OverlongIffTooLarge(w: Width, d: string)
    requires AllDigits(d)
    ensures Overlong(w, d) <==> Value(d) >= Modulus(w)
  {
    var z := StripZeros(d);
    StripZerosKeeps(d);
    LimitsOfDigits10(w);
    MaxStringIsMax(w);
    ValueBelow(z);
    if |z| <= Digits10(w) {
      Pow10Grows(|z|, Digits10(w));
    } else if |z| == Digits10(w) + 1 {
      ComparesNumbers(z, MaxString(w));
    } else {
      ValueAtLeast(z);
      Pow10Grows(Digits10(w) + 1, |z| - 1);
    }
  }

  /** What is left after the test, zeros stripped. */
  predicate Short(w: Width, z: string) {
    |z| <= Digits10(w) || (|z| == Digits10(w) + 1 && StrNCmp(z, MaxString(w)) <= 0)
  }

  lemma {:induction false} PrefixesCompare(a: string, b: string, k: nat)
    requires k <= |a| == |b| && StrNCmp(a, b) <= 0
    ensures StrNCmp(a[..k], b[..k]) <= 0
  {
    if k > 0 && a[0] == b[0] {
      PrefixesCompare(a[1..], b[1..], k - 1);
      assert a[..k][1..] == a[1..][..k - 1] && b[..k][1..] == b[1..][..k - 1];
    }
  }

  lemma ShortPrefixFits(w: Width, z: string, k: nat)
    requires |z| <= Digits10(w) && k <= |z| && AllDigits(z[..k])
    ensures Value(z[..k]) * Pow10(|z| - k) < Modulus(w)
  {
    LimitsOfDigits10(w);
    ValueBelow(z[..k]);
    Pow10Adds(k, |z| - k);
    Pow10Grows(|z|, Digits10(w));
    LessTimes(Value(z[..k]), Pow10(k), Pow10(|z| - k));
  }

  lemma LessTimes(v: nat, t: nat, p: nat)
    requires v < t && p > 0
    ensures v * p < t * p
  {
    ProductsGrow(v + 1, t, p, p);
    assert (v + 1) * p == v * p + p;
  }

  lemma PrefixFits(w: Width, z: string, k: nat)
    requires Short(w, z) && k <= |z| && AllDigits(z[..k])
    ensures Value(z[..k]) * Pow10(|z| - k) < Modulus(w)
  {
    if |z| <= Digits10(w) {
      ShortPrefixFits(w, z, k);
    } else {
      var max := MaxString(w);
      MaxStringIsMax(w);
      hide Value, Pow10, Modulus, MaxString, StrNCmp;
      PrefixesCompare(z, max, k);
      ComparesNumbers(z[..k], max[..k]);
      ValueSplits(max, k);
      ProductsGrow(Value(z[..k]), Value(max[..k]), Pow10(|z| - k), Pow10(|z| - k));
    }
  }

  // ---------- digits_to ----------

  /** Numbers read so far leave room for what is to come. */
  lemma NoWrap(w: Width, z: string, k: nat, m: nat)
    requires Short(w, z) && k + m <= |z| && AllDigits(z[..k])
    ensures Value(z[..k]) * Pow10(m) < Modulus(w)
  {
    PrefixFits(w, z, k);
    Pow10Grows(m, |z| - k);
    ProductsGrow(Value(z[..k]), Value(z[..k]), Pow10(m), Pow10(|z| - k));
  }

  lemma ReadFour(z: string, k: nat)
    requires k + 4 <= |z| && AllDigits(z[..k])
    requires Group(z[k], z[k + 1], z[k + 2], z[k + 3]) < OOR
    ensures AllDigits(z[..k + 4])
    ensures Value(z[..k + 4]) == 10000 * Value(z[..k]) + Group(z[k], z[k + 1], z[k + 2], z[k + 3])
  {
    FourMore(z[..k], z[k..k + 4]);
    assert z[..k + 4] == z[..k] + z[k..k + 4];
  }

  lemma ReadOne(z: string, k: nat)
    requires k < |z| && AllDigits(z[..k]) && IsDigit(z[k])
    ensures AllDigits(z[..k + 1]) && Value(z[..k + 1]) == 10 * Value(z[..k]) + DigitValue(z[k])
  {
    OneMore(z[..k], z[k]);
    assert z[..k + 1] == z[..k] + [z[k]];
  }

  /** The switch over the last one to three characters. */
  function LastGroup(z: string, k: nat): nat
    requires k <= |z|
  {
    match |z| - k
    case 1 => Shift(z[k], 1)
    case 2 => Shift(z[k], 10) + Shift(z[k + 1], 1)
    case 3 => Shift(z[k], 100) + Shift(z[k + 1], 10) + Shift(z[k + 2], 1)
    case _ => 0
  }

  function Scale(n: nat): nat {
    if n == 0 then 1 else if n == 1 then 10 else if n == 2 then 100 else 1000
  }

  lemma LastDigits(z: string, k: nat)
    requires k <= |z| <= k + 3 && AllDigits(z[..k])
    ensures AllDigits(z) <==> LastGroup(z, k) < OOR
  {
    assert forall i :: 0 <= i < k ==> z[..k][i] == z[i];
    if LastGroup(z, k) < OOR {
      assert forall i :: k <= i < |z| ==> IsDigit(z[i]);
    }
  }

  lemma LastValue(z: string, k: nat)
    requires k <= |z| <= k + 3 && AllDigits(z)
    ensures AllDigits(z[..k]) && Value(z) == Scale(|z| - k) * Value(z[..k]) + LastGroup(z, k)
    decreases |z| - k
  {
    assert z[..|z|] == z;
    if k < |z| {
      LastValue(z, k + 1);
      assert forall i :: 0 <= i < k ==> z[..k][i] == z[i];
      hide Value;
      ReadOne(z, k);
      if |z| - k == 3 {
        assert LastGroup(z, k) == 100 * DigitValue(z[k]) + LastGroup(z, k + 1);
      } else if |z| - k == 2 {
        assert LastGroup(z, k) == 10 * DigitValue(z[k]) + LastGroup(z, k + 1);
      }
    }
  }

  /** One turn of the loop: no product and no sum reaches the modulus. */
  lemma GroupStep(w: Width, z: string, k: nat)
    requires Short(w, z) && k + 4 <= |z| && AllDigits(z[..k])
    ensures 10000 < Modulus(w) && Value(z[..k]) * 10000 < Modulus(w)
    ensures var g := Group(z[k], z[k + 1], z[k + 2], z[k + 3]);
            if g >= OOR then !AllDigits(z)
            else AllDigits(z[..k + 4]) && Value(z[..k + 4]) == 10000 * Value(z[..k]) + g < Modulus(w)
  {
    assert Pow10(4) == 10000 && Pow10(0) == 1;
    hide Value, Pow10;
    NoWrap(w, z, k, 4);
    if Group(z[k], z[k + 1], z[k + 2], z[k + 3]) < OOR {
      ReadFour(z, k);
      NoWrap(w, z, k + 4, 0);
    }
  }

  lemma LastStep(w: Width, z: string, k: nat)
    requires Short(w, z) && k <= |z| <= k + 3 && AllDigits(z[..k])
    ensures AllDigits(z) <==> LastGroup(z, k) < OOR
    ensures AllDigits(z) ==> Value(z) == Scale(|z| - k) * Value(z[..k]) + LastGroup(z, k) < Modulus(w)
  {
    LastDigits(z, k);
    assert z[..|z|] == z && Pow10(0) == 1;
    if AllDigits(z) {
      LastValue(z, k);
      NoWrap(w, z, |z|, 0);
    }
  }

  /** The groups of four and the rest. Nothing ever wraps: every intermediate result is
      the number read so far. */
  method Accumulate(w: Width, z: string) returns (r: Expected)
    requires Short(w, z)
    ensures AllDigits(z) ==> Value(z) < Modulus(w) && r == Success(Value(z))
    ensures !AllDigits(z) ==> r == Failure(NonDigitChar)
  {
    var b := 0;
    var result: nat := 0;
    assert z[..0] == "" && Value("") == 0;
    hide Value, Short, AllDigits, Group, Wrap, Scale, LastGroup;
    while |z| - b >= 4
      invariant b <= |z| && AllDigits(z[..b]) && result == Value(z[..b])
    {
      GroupStep(w, z, b);
      result := Wrap(w, result * Wrap(w, 10000));
      var sum := Group(z[b], z[b + 1], z[b + 2], z[b + 3]);
      if sum >= OOR {
        return Failure(NonDigitChar);
      }
      result := Wrap(w, result + Wrap(w, sum));
      b := b + 4;
    }
    LastStep(w, z, b);
    if b < |z| {
      var sum := LastGroup(z, b);
      if sum >= OOR {
        return Failure(NonDigitChar);
      }
      result := Wrap(w, Scale(|z| - b) * result + sum);
    }
    return Success(result);
  }

  /** Where digits_to reports overflow the reference does. */
  lemma Rejected(t: Integral, negative: bool, d: string)
    requires Overlong(t.width, d)
    ensures WithSign(t, negative, Reference(t.width, d)) == Failure(Overflow(negative))
  {
    if AllDigits(d) {
      OverlongIffTooLarge(t.width, d);
    }
  }

  /** Where it goes on, what it reads is what the reference reads. */
  lemma Accepted(w: Width, d: string, z: string, r: Expected)
    requires d != "" && !Overlong(w, d) && (z == d || z == StripZeros(d))
    requires AllDigits(z) ==> r == Success(Value(z))
    requires !AllDigits(z) ==> r == Failure(NonDigitChar)
    ensures r == Reference(w, d)
  {
    StripZerosKeeps(d);
    if AllDigits(d) {
      OverlongIffTooLarge(w, d);
    }
  }

  /** init of SignedValueHandler: c is the first character, skip how many it takes. */
  method InitSign(t: Integral, c: char) returns (ok: bool, negative: bool, skip: nat)
    ensures ok <==> !t.signed || IsDigit(c) || c == '-' || c == '+'
    ensures ok ==> skip == (if t.signed && !IsDigit(c) then 1 else 0) && (negative <==> skip == 1 && c == '-')
  {
    ok, negative, skip := true, false, 0;
    if t.signed && !IsDigit(c) {
      if c == '-' {
        negative := true;
      } else if c != '+' {
        ok := false;
        return;
      }
      skip := 1;
    }
  }

  /** The zeros in front of a number that looks too long. */
  method SkipZeros(s: string, begin: nat, end: nat) returns (b: nat)
    requires begin < end <= |s|
    ensures begin <= b <= end && s[b..end] == StripZeros(s[begin..end])
  {
    b := begin;
    if s[b] == '0' {
      b := b + 1;
      assert s[begin..end][1..] == s[b..end];
      while b < end && s[b] == '0'
        invariant begin <= b <= end && StripZeros(s[begin..end]) == StripZeros(s[b..end])
      {
        assert s[b..end][1..] == s[b + 1..end];
        b := b + 1;
      }
    }
  }

  /** digits_to. The difference e - b is unsigned: past the end it is enormous. */
  method DigitsTo(t: Integral, s: string, beyond: char, begin: nat, end: nat) returns (r: Expected)
    requires begin <= end <= |s|
    ensures r == DigitsReference(t, s, beyond, begin, end)
  {
    assert Value("") == 0;
    hide Value, StripZeros;
    var ok, negative, skip := InitSign(t, At(s, beyond, begin));
    if !ok {
      return Failure(InvalidLeadingChar);
    }
    hide At, IsDigit;
    var b := begin + skip;
    var size := if b <= end then end - b else 0x1_0000_0000_0000_0000 - (b - end);
    ghost var d := if b <= end then s[b..end] else "";
    if size > Digits10(t.width) {
      if b < end {
        b := SkipZeros(s, b, end);
        if b == end {
          assert s[b..end] == "";
          Accepted(t.width, d, "", Success(0));
          return Success(0); // just zeros
        }
        size := end - b;
      }
      if size > Digits10(t.width)
         && (size != Digits10(t.width) + 1 || StrNCmp(s[b..end], MaxString(t.width)) > 0) {
        if d != "" {
          Rejected(t, negative, d);
        }
        return Failure(Overflow(negative));
      }
    }
    if size == 0 {
      return Failure(NoDigits);
    }
    r := Accumulate(t.width, s[b..end]);
    Accepted(t.width, d, s[b..end], r);
    if r.Success? {
      r := Finalize(t, negative, r.n);
    }
  }
}
