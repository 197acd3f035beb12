/** basic_fbstring::find: a search that compares last characters first, and computes how
    far it may skip only when it first needs to. */
module FbStringFind {

  const SIZE_LIMIT: nat := 0x1_0000_0000_0000_0000

  type Size = n: nat | n < SIZE_LIMIT

  const NPOS: Size := SIZE_LIMIT - 1

  /** Addition of size_t values. */
  function Plus(a: Size, b: Size): Size {
    if a + b < SIZE_LIMIT then a + b else a + b - SIZE_LIMIT
  }

  /** The needle occurs at position i. */
  predicate OccursAt<T(==)>(haystack: seq<T>, needle: seq<T>, i: nat) {
    i + |needle| <= |haystack| && haystack[i..i + |needle|] == needle
  }

  /** No occurrence begins in [from, to). */
  ghost predicate NoneIn<T>(haystack: seq<T>, needle: seq<T>, from: nat, to: nat) {
    forall i :: from <= i < to ==> !OccursAt(haystack, needle, i)
  }

  /** What section 21.4.7.2 of ISO/IEC 14882:2011 asks of find: the least position at or
      after pos where the needle occurs, or npos when there is none. */
  ghost predicate FindResult<T>(haystack: seq<T>, needle: seq<T>, pos: nat, r: nat) {
    if r == NPOS then forall i :: i >= pos ==> !OccursAt(haystack, needle, i)
    else pos <= r && OccursAt(haystack, needle, r) && NoneIn(haystack, needle, pos, r)
  }

  /** The character d places before the last. */
  function FromEnd<T>(needle: seq<T>, d: nat): T
    requires d < |needle|
  {
    needle[|needle| - 1 - d]
  }

  /** The needle's last character, found at distance skip from its end and nowhere nearer. */
  ghost predicate SkipIs<T>(needle: seq<T>, skip: nat) {
    && 0 < skip <= |needle|
    && (forall d :: 0 < d < skip ==> FromEnd(needle, d) != FromEnd(needle, 0))
    && (skip < |needle| ==> FromEnd(needle, skip) == FromEnd(needle, 0))
  }

  lemma OccursPointwise<T>(haystack: seq<T>, needle: seq<T>, i: nat, j: nat)
    requires j < |needle| && i + j < |haystack|
    ensures OccursAt(haystack, needle, i) ==> haystack[i + j] == needle[j]
  {
    if OccursAt(haystack, needle, i) {
      assert haystack[i..i + |needle|][j] == haystack[i + j];
    }
  }

  /** Shifting by less than the skip value would put another character under the last one. */
  lemma MayShift<T>(haystack: seq<T>, needle: seq<T>, i: nat, skip: nat, d: nat)
    requires SkipIs(needle, skip) && 0 < d < skip && i + |needle| <= |haystack|
    requires haystack[i + |needle| - 1] == FromEnd(needle, 0)
    ensures !OccursAt(haystack, needle, i + d)
  {
    assert FromEnd(needle, d) != FromEnd(needle, 0);
    OccursPointwise(haystack, needle, i + d, |needle| - 1 - d);
  }

  /** After a mismatch at position i under a matching last character, i + skip is next. */
  lemma ShiftsSafely<T>(haystack: seq<T>, needle: seq<T>, pos: nat, i: nat, j: nat, skip: nat)
    requires NoneIn(haystack, needle, pos, i) && SkipIs(needle, skip) && i + |needle| <= |haystack|
    requires haystack[i + |needle| - 1] == FromEnd(needle, 0) && j < |needle| && haystack[i + j] != needle[j]
    ensures NoneIn(haystack, needle, pos, i + skip)
  {
    OccursPointwise(haystack, needle, i, j);
    forall x | pos <= x < i + skip ensures !OccursAt(haystack, needle, x) {
      if x > i {
        MayShift(haystack, needle, i, skip, x - i);
      }
    }
  }

  lemma AllMatch<T>(haystack: seq<T>, needle: seq<T>, i: nat)
    requires i + |needle| <= |haystack| && forall k :: 0 <= k < |needle| ==> haystack[i + k] == needle[k]
    ensures OccursAt(haystack, needle, i)
  {
  }

  lemma TooLate<T>(haystack: seq<T>, needle: seq<T>, from: nat)
    requires from + |needle| > |haystack|
    ensures forall i :: i >= from ==> !OccursAt(haystack, needle, i)
  {
  }

  /** The skip value of the last character, as the inner loop computes it. */
  method LastCharSkip<T(==)>(needle: seq<T>) returns (skip: nat)
    requires |needle| > 0
    ensures SkipIs(needle, skip)
  {
    skip := 1;
    while skip <= |needle| - 1 && FromEnd(needle, skip) != FromEnd(needle, 0)
      invariant 0 < skip <= |needle|
      invariant forall d :: 0 < d < skip ==> FromEnd(needle, d) != FromEnd(needle, 0)
    {
      skip := skip + 1;
    }
  }

  method Find<T(==)>(haystack: seq<T>, needle: seq<T>, pos: Size) returns (r: Size)
    requires |haystack| < NPOS && |needle| < SIZE_LIMIT
    ensures FindResult(haystack, needle, pos, r)
  {
    var size, nsize := |haystack|, |needle|;
    if Plus(nsize, pos) > size || Plus(nsize, pos) < pos {
      TooLate(haystack, needle, pos);
      return NPOS;
    }
    if nsize == 0 {
      return pos;
    }
    var last := needle[nsize - 1];
    var skip: nat := 0;
    var i: nat := pos;
    var end: nat := size - (nsize - 1);
    while i < end
      invariant pos <= i && NoneIn(haystack, needle, pos, i)
      invariant skip == 0 || SkipIs(needle, skip)
      decreases end - i
    {
      ghost var i0 := i;
      while haystack[i + nsize - 1] != last
        invariant i0 <= i < end && NoneIn(haystack, needle, pos, i)
        decreases end - i
      {
        OccursPointwise(haystack, needle, i, nsize - 1);
        i := i + 1;
        if i == end {
          TooLate(haystack, needle, end);
          return NPOS;
        }
      }
      var j := 0;
      while haystack[i + j] == needle[j]
        invariant j < nsize && forall k :: 0 <= k < j ==> haystack[i + k] == needle[k]
        decreases nsize - j
      {
        j := j + 1;
        if j == nsize {
          AllMatch(haystack, needle, i);
          return i;
        }
      }
      if skip == 0 {
        skip := LastCharSkip(needle);
      }
      ShiftsSafely(haystack, needle, pos, i, j, skip);
      i := i + skip;
    }
    TooLate(haystack, needle, i);
    r := NPOS;
  }

  /** No other value answers the question. */
  lemma FindIsFunction<T>(haystack: seq<T>, needle: seq<T>, pos: nat, a: nat, b: nat)
    requires FindResult(haystack, needle, pos, a) && FindResult(haystack, needle, pos, b)
    ensures a == b
  {
    if a != NPOS && b != NPOS {
      NoneBefore(haystack, needle, pos, a, b);
      NoneBefore(haystack, needle, pos, b, a);
    }
  }

  lemma NoneBefore<T>(haystack: seq<T>, needle: seq<T>, pos: nat, a: nat, b: nat)
    requires pos <= a && OccursAt(haystack, needle, a) && NoneIn(haystack, needle, pos, b)
    ensures b <= a
  {
  }
}
