/** Conv.h and Conv.cpp together: strings to integers with white space and sign, which
    texts are accepted, and the round trip from integers to text and back. */
module IntegerConversion {

  import opened IntegerText
  import opened IntegerPrinting
  import opened IntegerParsing

  /** The characters of isspace in the C locale. */
  predicate IsSpace(c: char) {
    c == ' ' || '\t' as int <= c as int <= '\r' as int
  }

  ghost predicate AllSpaces(s: string) {
    forall i :: 0 <= i < |s| ==> IsSpace(s[i])
  }

  /** A string that is consumed from the front. */
  class StringPiece {
    var text: string

    constructor (s: string)
      ensures text == s
    {
      text := s;
    }

    method Advance(n: nat)
      requires n <= |text|
      modifies this
      ensures text == old(text)[n..]
    {
      text := text[n..];
    }
  }

  // ---------- the reference ----------

  ghost function SkipSpaces(s: string, i: nat): (j: nat)
    requires i <= |s|
    ensures i <= j <= |s| && AllSpaces(s[i..j]) && (j < |s| ==> !IsSpace(s[j]))
    decreases |s| - i
  {
    if i == |s| || !IsSpace(s[i]) then i else
      var j := SkipSpaces(s, i + 1);
      assert s[i..j] == [s[i]] + s[i + 1..j];
      j
  }

  ghost function SkipDigits(s: string, i: nat): (j: nat)
    requires i <= |s|
    ensures i <= j <= |s| && AllDigits(s[i..j]) && (j < |s| ==> !IsDigit(s[j]))
    decreases |s| - i
  {
    if i == |s| || !IsDigit(s[i]) then i else
      var j := SkipDigits(s, i + 1);
      assert s[i..j] == [s[i]] + s[i + 1..j];
      j
  }

  datatype Parsed = Parsed(result: Expected, consumed: nat)

  /** The run of digits at b, with the sign already read. */
  ghost function ParseDigits(t: Integral, negative: bool, s: string, b: nat): Parsed
    requires b <= |s|
  {
    if b == |s| then Parsed(Failure(NoDigits), 0)
    else if !IsDigit(s[b]) then Parsed(Failure(NonDigitChar), 0)
    else
      var m := SkipDigits(s, b);
      var r := Fit(t, negative, Value(s[b..m]));
      Parsed(r, if r.Success? then m else 0)
  }

  /** str_to_integral in the arithmetic of the integers: white space, an optional sign
      if the type is signed, and the longest run of digits. */
  ghost function Parse(t: Integral, s: string): (p: Parsed)
    ensures p.consumed <= |s|
  {
    var b := SkipSpaces(s, 0);
    if b == |s| then Parsed(Failure(EmptyInputString), 0)
    else if t.signed && !IsDigit(s[b]) then
      if s[b] == '-' || s[b] == '+' then ParseDigits(t, s[b] == '-', s, b + 1)
      else Parsed(Failure(InvalidLeadingChar), 0)
    else ParseDigits(t, false, s, b)
  }

  /** tryTo of a whole string. */
  ghost function ParseAll(t: Integral, s: string): Expected {
    var p := Parse(t, s);
    if p.result.Success? && !AllSpaces(s[p.consumed..]) then Failure(NonWhitespaceAfterEnd) else p.result
  }

  // ---------- the methods ----------

  method FindFirstNonDigit(s: string, from: nat) returns (b: nat)
    requires from <= |s|
    ensures b == SkipDigits(s, from)
  {
    b := from;
    while b < |s| && IsDigit(s[b])
      invariant from <= b <= |s| && SkipDigits(s, from) == SkipDigits(s, b)
    {
      b := b + 1;
    }
  }

  method FindFirstNonSpace(s: string) returns (b: nat)
    ensures b == SkipSpaces(s, 0)
  {
    b := 0;
    while b < |s| && IsSpace(s[b])
      invariant b <= |s| && SkipSpaces(s, 0) == SkipSpaces(s, b)
    {
      b := b + 1;
    }
  }

  /** str_to_integral: the digits are read as an unsigned number, then the sign is put on. */
  method StrToIntegral(t: Integral, src: StringPiece) returns (r: Expected)
    modifies src
    ensures r == Parse(t, old(src.text)).result
    ensures src.text == old(src.text)[Parse(t, old(src.text)).consumed..]
  {
    hide AllSpaces, AllDigits, Value;
    var s := src.text;
    var b := FindFirstNonSpace(s);
    if b >= |s| {
      return Failure(EmptyInputString);
    }
    var ok, negative, skip := InitSign(t, s[b]);
    if !ok {
      return Failure(InvalidLeadingChar);
    }
    b := b + skip;
    if t.signed && b >= |s| {
      return Failure(NoDigits);
    }
    if !IsDigit(s[b]) {
      return Failure(NonDigitChar);
    }
    var m := FindFirstNonDigit(s, b + 1);
    var tmp := DigitsTo(Integral(t.width, false), s, '\0', b, m);
    SignApplies(t, negative, s, b, m, tmp);
    if tmp.Failure? {
      return Failure(if tmp.code.PositiveOverflow? then Overflow(negative) else tmp.code);
    }
    r := Finalize(t, negative, tmp.n);
    if r.Success? {
      src.Advance(m);
    }
  }

  /** Reading a run of digits as unsigned and then applying the sign is reading it once. */
  lemma SignApplies(t: Integral, negative: bool, s: string, b: nat, m: nat, r: Expected)
    requires b < |s| && IsDigit(s[b]) && m == SkipDigits(s, b) && (negative ==> t.signed)
    requires r == DigitsReference(Integral(t.width, false), s, '\0', b, m)
    ensures r.Success? ==> 0 <= r.n < Modulus(t.width)
                           && ParseDigits(t, negative, s, b).result == Fit(t, negative, r.n)
    ensures r.Failure? ==> ParseDigits(t, negative, s, b).result
                           == Failure(if r.code.PositiveOverflow? then Overflow(negative) else r.code)
  {
    assert s[b..m] != "";
  }

  /** tryTo: nothing but white space may follow. */
  method TryTo(t: Integral, s: string) returns (r: Expected)
    ensures r == ParseAll(t, s)
  {
    var src := new StringPiece(s);
    r := StrToIntegral(t, src);
    if r.Failure? {
      return;
    }
    var rest := src.text;
    for i := 0 to |rest|
      invariant AllSpaces(rest[..i])
    {
      if !IsSpace(rest[i]) {
        return Failure(NonWhitespaceAfterEnd);
      }
    }
    assert rest[..|rest|] == rest;
  }

  // ---------- which texts are accepted, and the round trip ----------

  lemma {:induction false} SpacesEnd(s: string, i: nat, j: nat)
    requires i <= j <= |s| && AllSpaces(s[i..j]) && (j < |s| ==> !IsSpace(s[j]))
    ensures SkipSpaces(s, i) == j
    decreases j - i
  {
    if i < j {
      assert s[i..j][0] == s[i] && s[i..j][1..] == s[i + 1..j];
      SpacesEnd(s, i + 1, j);
    }
  }

  lemma {:induction false} DigitsEnd(s: string, i: nat, j: nat)
    requires i <= j <= |s| && AllDigits(s[i..j]) && (j < |s| ==> !IsDigit(s[j]))
    ensures SkipDigits(s, i) == j
    decreases j - i
  {
    if i < j {
      assert s[i..j][0] == s[i] && s[i..j][1..] == s[i + 1..j];
      DigitsEnd(s, i + 1, j);
    }
  }

  /** White space up to a, perhaps a sign up to b, then the digits of n up to m. */
  ghost predicate StartsWithNumeral(t: Integral, s: string, n: int, a: nat, b: nat, m: nat) {
    && a <= b < m <= |s|
    && AllSpaces(s[..a])
    && (b == a || (t.signed && b == a + 1 && (s[a] == '-' || s[a] == '+')))
    && AllDigits(s[b..m]) && (m < |s| ==> !IsDigit(s[m]))
    && n == Signed(b > a && s[a] == '-', Value(s[b..m]))
  }

  /** A numeral is read to its end, and no further, if and only if the type holds it. */
  lemma NumeralIsRead(t: Integral, s: string, n: int, a: nat, b: nat, m: nat)
    requires StartsWithNumeral(t, s, n, a, b, m)
    ensures InRange(t, n) ==> Parse(t, s) == Parsed(Success(n), m)
    ensures !InRange(t, n) ==> Parse(t, s) == Parsed(Failure(Overflow(n < 0)), 0)
  {
    assert s[0..a] == s[..a];
    assert IsDigit(s[b]) by {
      assert s[b] == s[b..m][0];
    }
    SpacesEnd(s, 0, a);
    DigitsEnd(s, b, m);
  }

  lemma ReadIsNumeral(t: Integral, s: string) returns (a: nat, b: nat, m: nat)
    requires Parse(t, s).result.Success?
    ensures InRange(t, Parse(t, s).result.n) && m == Parse(t, s).consumed
    ensures StartsWithNumeral(t, s, Parse(t, s).result.n, a, b, m)
  {
    a := SkipSpaces(s, 0);
    b := if t.signed && !IsDigit(s[a]) then a + 1 else a;
    m := SkipDigits(s, b);
    assert s[0..a] == s[..a];
  }

  /** tryTo accepts exactly the numerals of the type between white space. */
  lemma AcceptedExactly(t: Integral, s: string, n: int)
    ensures ParseAll(t, s) == Success(n) <==>
            InRange(t, n) && exists a: nat, b: nat, m: nat :: StartsWithNumeral(t, s, n, a, b, m) && AllSpaces(s[m..])
  {
    if ParseAll(t, s) == Success(n) {
      var a, b, m := ReadIsNumeral(t, s);
    }
    if a: nat, b: nat, m: nat :| InRange(t, n) && StartsWithNumeral(t, s, n, a, b, m) && AllSpaces(s[m..]) {
      NumeralIsRead(t, s, n, a, b, m);
    }
  }

  /** The text of every value of every type, the least one included, is read back as that
      value; what follows is left alone, unless it begins with a digit. */
  lemma RoundTrip(t: Integral, n: int, lead: string, rest: string)
    requires InRange(t, n) && AllSpaces(lead) && (rest != "" ==> !IsDigit(rest[0]))
    ensures Parse(t, lead + Printed(n) + rest) == Parsed(Success(n), |lead + Printed(n)|)
  {
    var s := lead + Printed(n) + rest;
    var v := if n < 0 then -n else n;
    var a, m := |lead|, |lead + Printed(n)|;
    var b := if n < 0 then a + 1 else a;
    TextReads(v);
    assert s[..a] == lead && s[b..m] == Text(v) && s[m..] == rest;
    assert n < 0 ==> s[a] == '-';
    NumeralIsRead(t, s, n, a, b, m);
  }

  /** toAppend and tryTo are inverse to each other. */
  method PrintAndParse(t: Integral, n: int) returns (r: Expected)
    requires InRange(t, n)
    ensures r == Success(n)
  {
    var target := new Target();
    ToAppend(t, n, target);
    r := TryTo(t, target.chars);
    RoundTrip(t, n, "", "");
    assert "" + Printed(n) + "" == Printed(n) == target.chars;
  }
}
