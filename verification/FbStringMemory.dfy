/** The operations of fbstring_core and basic_fbstring::append on a memory of strings:
    each changes the value of its target only, so a program cannot tell fbstrings from
    plain value strings. */
module FbStringMemory {
  import opened FbStringModel

  type Text = map<nat, seq<char>>

  function Max(a: nat, b: nat): nat {
    if a < b then b else a
  }

  function Min(a: nat, b: nat): nat {
    if a < b then a else b
  }

  /** Storage of an empty small string. */
  function Blank(): seq<char> {
    seq(MAX_SMALL_SIZE, i => '\0') + [MAX_SMALL_SIZE as char]
  }

  /** Write v over s from position at on. */
  function Over(s: seq<char>, at: nat, v: seq<char>): seq<char>
    requires at + |v| <= |s|
  {
    s[..at] + v + s[at + |v|..]
  }

  /** A medium string is the only user of its block. */
  lemma MediumAlone(strs: Strs, blocks: Blocks, s: nat)
    requires Good(strs, blocks) && s in strs && strs[s].kind.Medium? && strs[s].data in blocks
    ensures blocks[strs[s].data].refs == 1
  {
    var b := strs[s].data;
    assert forall t :: t in strs && t != s ==> MayShare(strs[s], strs[t]);
    assert CountOk(strs, blocks, b);
    assert Users(strs, b) == {s};
  }

  lemma OneOk(strs: Strs, blocks: Blocks, s: nat)
    requires Good(strs, blocks) && s in strs
    ensures StrOk(strs[s], blocks) && (!strs[s].kind.Small? ==> blocks[strs[s].data].refs > 0)
  {
    if !strs[s].kind.Small? {
      assert StrOk(strs[s], blocks);
      assert CountOk(strs, blocks, strs[s].data);
    }
  }

  lemma SmallValue(x: Str, blocks: Blocks, v: seq<char>)
    requires x.kind.Small? && SmallOk(x) && SmallSize(x) == |v| && x.small[..|v|] == v
    ensures StrOk(x, blocks) && Value(x, blocks) == v
  {
  }

  /** What writing v at position at of a small string's storage does. */
  lemma SmallWritten(x: Str, blocks: Blocks, at: nat, v: seq<char>)
    requires x.kind.Small? && SmallOk(x) && at + |v| <= SmallSize(x)
    ensures var y := x.(small := Over(x.small, at, v));
            SmallOk(y) && SmallSize(y) == SmallSize(x) && Value(y, blocks) == Over(Value(x, blocks), at, v)
  {
  }

  lemma BlockWritten(x: Str, b: Block, at: nat, v: seq<char>)
    requires BlockOk(x, b) && at + |v| <= x.size
    ensures BlockOk(x, Block(1, Over(b.chars, at, v)))
    ensures Over(b.chars, at, v)[..x.size] == Over(b.chars[..x.size], at, v)
  {
  }

  lemma SmallCut(x: Str, blocks: Blocks, n: nat)
    requires x.kind.Small? && SmallOk(x) && n <= SmallSize(x)
    ensures var y := x.(small := WithSmallSize(x.small, n)); SmallOk(y) && Value(y, blocks) == Value(x, blocks)[..n]
  {
    SmallSizeSet(x, n);
  }

  lemma BlockCut(x: Str, b: Block, n: nat)
    requires BlockOk(x, b) && n <= x.size
    ensures BlockOk(x.(size := n), Block(1, b.chars[n := '\0'])) && b.chars[n := '\0'][..n] == b.chars[..x.size][..n]
  {
  }

  /** A block's string made longer: its first characters stay. */
  lemma BlockExpanded(x: Str, b: Block, n: nat)
    requires BlockOk(x, b) && x.size <= n <= x.capacity
    ensures BlockOk(x.(size := n), Block(1, b.chars[n := '\0']))
    ensures |b.chars[n := '\0'][..n]| == n && b.chars[n := '\0'][..n][..x.size] == b.chars[..x.size]
  {
  }

  lemma SmallExpanded(x: Str, blocks: Blocks, n: nat)
    requires x.kind.Small? && SmallOk(x) && SmallSize(x) <= n <= MAX_SMALL_SIZE
    ensures var y := x.(small := WithSmallSize(x.small, n));
            && SmallOk(y) && |Value(y, blocks)| == n && Value(y, blocks)[..SmallSize(x)] == Value(x, blocks)
  {
    SmallSizeSet(x, n);
  }

  /** m' is m, but for the value of s, which got delta characters longer. */
  ghost predicate Expanded(m: Text, m': Text, s: nat, delta: nat) {
    && s in m && s in m' && m' == m[s := m'[s]]
    && |m'[s]| == |m[s]| + delta && m'[s][..|m[s]|] == m[s]
  }

  /** Filling the expanded part with v appends v. */
  lemma Filled(m: Text, m': Text, s: nat, v: seq<char>)
    requires Expanded(m, m', s, |v|)
    ensures m'[s := Over(m'[s], |m[s]|, v)] == m[s := m[s] + v]
  {
    assert Over(m'[s], |m[s]|, v) == m[s] + v;
  }

  lemma SameEntry<V>(m: map<nat, V>, s: nat)
    requires s in m
    ensures m[s := m[s]] == m
  {
  }

  lemma MovedText(m: Text, s: nat, t: nat)
    requires t in m && s != t
    ensures m[s := []][s := m[s := []][t]][t := m[s := []][s]] == m[s := m[t]][t := []]
  {
  }

  lemma ValueOf(strs: Strs, blocks: Blocks, s: nat)
    requires Good(strs, blocks) && s in strs
    ensures StrOk(strs[s], blocks) && Values(strs, blocks)[s] == Value(strs[s], blocks)
    ensures strs[s].kind.Small? ==> SmallOk(strs[s])
    ensures !strs[s].kind.Small? ==>
      && strs[s].data in blocks && blocks[strs[s].data].refs > 0 && BlockOk(strs[s], blocks[strs[s].data])
      && Value(strs[s], blocks) == blocks[strs[s].data].chars[..strs[s].size]
  {
    OneOk(strs, blocks, s);
  }

  lemma SwappedIn(m: Text, s: nat, t: nat, v: seq<char>)
    requires s in m && t !in m
    ensures m[t := v][t := m[t := v][s]][s := m[t := v][t]] - {t} == m[s := v]
  {
  }

  class Memory {
    var strs: Strs
    var blocks: Blocks
    var next: nat

    ghost predicate Valid()
      reads this
    {
      Good(strs, blocks) && forall b :: b in blocks ==> b < next
    }

    ghost function Contents(): (m: Text)
      requires Valid()
      reads this
      ensures m.Keys == strs.Keys
    {
      Values(strs, blocks)
    }

    /** The string has storage that no other string uses. */
    predicate Unshared(s: nat)
      reads this
    {
      s in strs && (!strs[s].kind.Small? ==> strs[s].data in blocks && blocks[strs[s].data].refs == 1)
    }

    constructor ()
      ensures Valid() && Contents() == map[]
    {
      strs, blocks, next := map[], map[], 0;
    }

    // ---------- queries ----------

    function Capacity(s: nat): nat
      requires s in strs && StrOk(strs[s], blocks)
      reads this
    {
      if strs[s].kind.Small? then MAX_SMALL_SIZE
      else if strs[s].kind.Large? && blocks[strs[s].data].refs > 1 then strs[s].size
      else strs[s].capacity
    }

    // ---------- allocation ----------

    /** checkedMalloc of goodMallocSize: a new address, at least the room asked for,
        arbitrary characters. */
    method Malloc(capacity: nat) returns (a: nat, chars: seq<char>, got: nat)
      requires forall b :: b in blocks ==> b < next
      modifies this`next
      ensures a !in blocks && a < next && next >= old(next) && got >= capacity && |chars| == got + 1
    {
      var slack: int := *;
      var junk: char := *;
      got := if slack > 0 then capacity + slack else capacity;
      chars := seq(got + 1, i => junk);
      a := next;
      next := next + 1;
    }

    /** String s gets storage x with characters chars of its own, and lets go of its old block. */
    method Rebase(s: nat, x: Str, chars: seq<char>)
      requires Valid() && s in strs && !x.kind.Small? && BlockOk(x, Block(1, chars)) && StrOk(strs[s], blocks)
      requires x.data !in Release(blocks, strs[s]) && x.data < next
      modifies this`strs, this`blocks
      ensures Valid() && Contents() == old(Contents())[s := chars[..x.size]]
      ensures strs == old(strs)[s := x] && x.data in blocks && blocks[x.data] == Block(1, chars)
    {
      ReplaceOwner(strs, blocks, s, x, chars);
      hide Good, Values, BlockOk;
      blocks := Release(blocks, strs[s])[x.data := Block(1, chars)];
      strs := strs[s := x];
    }

    // ---------- construction and destruction ----------

    /** initSmall, initMedium, initLarge. */
    method Init(s: nat, v: seq<char>)
      requires Valid() && s !in strs
      modifies this
      ensures Valid() && Contents() == old(Contents())[s := v] && s in strs
      ensures strs[s].kind == if |v| <= MAX_SMALL_SIZE then Small else if |v| <= MAX_MEDIUM_SIZE then Medium else Large
      ensures strs[s].kind.Small? ==> blocks == old(blocks) && strs == old(strs)[s := strs[s]]
    {
      hide Shapes, Counts, Sharing, Values, StrOk;
      if |v| <= MAX_SMALL_SIZE {
        var x := Str(Small, v + Blank()[|v|..], 0, 0, 0);
        SmallSizeSet(x, |v|);
        x := x.(small := WithSmallSize(x.small, |v|));
        AddSmall(strs, blocks, s, x);
        SmallValue(x, blocks, v);
        hide Good;
        strs := strs[s := x];
      } else {
        var a, chars, got := Malloc(|v|);
        chars := v + ['\0'] + chars[|v| + 1..];
        var x := Str(if |v| <= MAX_MEDIUM_SIZE then Medium else Large, Blank(), a, |v|, got);
        AddOwner(strs, blocks, s, x, chars);
        assert chars[..|v|] == v;
        hide Good;
        strs, blocks := strs[s := x], blocks[a := Block(1, chars)];
      }
    }

    /** copySmall, copyMedium, copyLarge. */
    method Copy(s: nat, t: nat)
      requires Valid() && s !in strs && t in strs
      modifies this
      ensures Valid() && Contents() == old(Contents())[s := old(Contents())[t]] && s in strs
      ensures strs[t] == old(strs[t]) && strs[s].kind == strs[t].kind
      ensures strs[t].kind.Large? ==> strs[s] == strs[t] && strs[t].data in old(blocks) && strs[t].data in blocks &&
                                      blocks[strs[t].data].refs == old(blocks)[strs[t].data].refs + 1
    {
      hide Shapes, Counts, Sharing, Values, StrOk, Good;
      ValueOf(strs, blocks, t);
      var y := strs[t];
      if y.kind.Small? {
        AddSmall(strs, blocks, s, y);
        strs := strs[s := y];
      } else if y.kind.Medium? {
        var a, chars, got := Malloc(y.size);
        chars := Over(chars, 0, blocks[y.data].chars[..y.size + 1]);
        assert chars[..y.size] == blocks[y.data].chars[..y.size];
        AddOwner(strs, blocks, s, y.(data := a, capacity := got), chars);
        strs, blocks := strs[s := y.(data := a, capacity := got)], blocks[a := Block(1, chars)];
      } else {
        AddSharer(strs, blocks, s, t);
        strs, blocks := strs[s := y], Shared(blocks, y.data);
      }
    }

    /** The destructor. A block is freed exactly when its count reaches zero. */
    method Destroy(s: nat)
      requires Valid() && s in strs
      modifies this
      ensures Valid() && Contents() == old(Contents()) - {s} && s !in strs
      ensures var x := old(strs[s]);
              x.kind.Small? || x.data !in old(blocks) ||
              blocks.Keys == if old(blocks)[x.data].refs == 1 then old(blocks.Keys) - {x.data} else old(blocks.Keys)
    {
      hide Shapes, Counts, Sharing, Values, StrOk, Good;
      ValueOf(strs, blocks, s);
      ReleaseKeeps(strs, blocks, s);
      blocks := Release(blocks, strs[s]);
      strs := strs - {s};
    }

    method Swap(s: nat, t: nat)
      requires Valid() && s in strs && t in strs
      modifies this
      ensures Valid() && Contents() == old(Contents())[s := old(Contents())[t]][t := old(Contents())[s]]
      ensures strs == old(strs)[s := old(strs[t])][t := old(strs[s])] && blocks == old(blocks)
    {
      hide Shapes, Counts, Sharing, Values, StrOk, Good;
      ValueOf(strs, blocks, s);
      ValueOf(strs, blocks, t);
      if s != t {
        SwapKeeps(strs, blocks, s, t);
        strs := strs[s := strs[t]][t := strs[s]];
      } else {
        SameEntry(strs, s);
        SameEntry(Contents(), s);
      }
    }

    /** The move constructor: takes the guts of t, and leaves it empty. */
    method Move(s: nat, t: nat)
      requires Valid() && s !in strs && t in strs
      modifies this
      ensures Valid() && Contents() == old(Contents())[s := old(Contents())[t]][t := []]
      ensures s in strs && strs[s] == old(strs[t]) && blocks == old(blocks)
    {
      hide Shapes, Counts, Sharing, Values, StrOk, Good;
      ghost var m: Text := Contents();
      Init(s, []);
      Swap(s, t);
      MovedText(m, s, t);
    }

    // ---------- copy on write ----------

    /** unshare: a block of its own, with at least its old capacity. */
    method Unshare(s: nat, minCapacity: nat)
      requires Valid() && s in strs && strs[s].kind.Large?
      modifies this
      ensures Valid() && Contents() == old(Contents()) && Unshared(s) && strs[s].kind.Large?
      ensures strs[s].capacity >= Max(minCapacity, old(strs[s]).capacity)
    {
      hide Shapes, Counts, Sharing, Values, StrOk, Good;
      ValueOf(strs, blocks, s);
      var x := strs[s];
      Grow(s, Large, Max(minCapacity, x.capacity));
    }

    /** mutableData: the caller may write the characters of s afterwards, and no others. */
    method MutableData(s: nat)
      requires Valid() && s in strs
      modifies this
      ensures Valid() && Contents() == old(Contents()) && Unshared(s)
    {
      hide Shapes, Counts, Sharing, Values, StrOk, Good;
      ValueOf(strs, blocks, s);
      if strs[s].kind.Large? {
        if blocks[strs[s].data].refs > 1 {
          Unshare(s, 0);
        }
      } else if strs[s].kind.Medium? {
        MediumAlone(strs, blocks, s);
      }
    }

    /** Writing to the storage of s, which no other string uses. */
    method Write(s: nat, at: nat, v: seq<char>)
      requires Valid() && Unshared(s) && at + |v| <= |Contents()[s]|
      modifies this`strs, this`blocks
      ensures Valid() && Contents() == old(Contents())[s := Over(old(Contents())[s], at, v)] && Unshared(s)
    {
      hide Shapes, Counts, Sharing, Values, StrOk, Good;
      ValueOf(strs, blocks, s);
      var x := strs[s];
      if x.kind.Small? {
        SmallWritten(x, blocks, at, v);
        ReplaceSmall(strs, blocks, s, x.(small := Over(x.small, at, v)));
        strs := strs[s := x.(small := Over(x.small, at, v))];
      } else {
        BlockWritten(x, blocks[x.data], at, v);
        Rebase(s, x, Over(blocks[x.data].chars, at, v));
      }
    }

    method SetChar(s: nat, i: nat, c: char)
      requires Valid() && s in strs && i < |Contents()[s]|
      modifies this
      ensures Valid() && Contents() == old(Contents())[s := old(Contents())[s][i := c]]
    {
      hide Shapes, Counts, Sharing, Values, StrOk, Good;
      MutableData(s);
      ghost var v := Contents()[s];
      Write(s, i, [c]);
      assert Over(v, i, [c]) == v[i := c];
    }

    // ---------- shrink ----------

    /** shrinkMedium, on a block no other string uses. */
    method ShrinkOwn(s: nat, delta: nat)
      requires Valid() && Unshared(s) && !strs[s].kind.Small? && delta <= |Contents()[s]|
      modifies this`strs, this`blocks
      ensures Valid() && Contents() == old(Contents())[s := old(Contents())[s][..|old(Contents())[s]| - delta]]
    {
      hide Shapes, Counts, Sharing, Values, StrOk, Good;
      ValueOf(strs, blocks, s);
      var x := strs[s];
      BlockCut(x, blocks[x.data], x.size - delta);
      Rebase(s, x.(size := x.size - delta), blocks[x.data].chars[x.size - delta := '\0']);
    }

    method UnusedName() returns (s: nat)
      ensures s !in strs
    {
      s := 0;
      ghost var rest := strs.Keys;
      while s in strs
        invariant forall u :: u in rest <==> u in strs && u >= s
        decreases rest
      {
        rest := rest - {s};
        s := s + 1;
      }
    }

    /** A temporary string with v, swapped with s and then destroyed. */
    method Replace(s: nat, v: seq<char>)
      requires Valid() && s in strs
      modifies this
      ensures Valid() && Contents() == old(Contents())[s := v]
    {
      hide Shapes, Counts, Sharing, Values, StrOk, Good;
      ghost var m: Text := Contents();
      var temporary := UnusedName();
      Init(temporary, v);
      Swap(temporary, s);
      Destroy(temporary);
      SwappedIn(m, s, temporary, v);
    }

    method Shrink(s: nat, delta: nat)
      requires Valid() && s in strs && delta <= |Contents()[s]|
      modifies this
      ensures Valid() && Contents() == old(Contents())[s := old(Contents())[s][..|old(Contents())[s]| - delta]]
    {
      hide Shapes, Counts, Sharing, Values, StrOk, Good;
      ValueOf(strs, blocks, s);
      var x := strs[s];
      if x.kind.Small? {
        var n := SmallSize(x) - delta;
        SmallCut(x, blocks, n);
        ReplaceSmall(strs, blocks, s, x.(small := WithSmallSize(x.small, n)));
        strs := strs[s := x.(small := WithSmallSize(x.small, n))];
      } else if x.kind.Medium? || blocks[x.data].refs == 1 {
        if x.kind.Medium? {
          MediumAlone(strs, blocks, s);
        }
        ShrinkOwn(s, delta);
      } else {
        ghost var v := Contents()[s];
        assert v[..|v| - delta] == blocks[x.data].chars[..x.size - delta];
        if delta > 0 {
          Replace(s, blocks[x.data].chars[..x.size - delta]);
        } else {
          assert v[..|v|] == v;
          SameEntry(Contents(), s);
        }
      }
    }

    // ---------- reserve ----------

    /** A bigger block with the same characters and terminator, for kind k. */
    method Grow(s: nat, k: Kind, minCapacity: nat)
      requires Valid() && s in strs && !k.Small? && minCapacity >= |Contents()[s]|
      modifies this
      ensures Valid() && Contents() == old(Contents()) && Unshared(s)
      ensures strs[s].kind == k && strs[s].capacity >= minCapacity
    {
      hide Shapes, Counts, Sharing, Values, StrOk, Good;
      ValueOf(strs, blocks, s);
      var x := strs[s];
      var v := if x.kind.Small? then x.small[..SmallSize(x)] else blocks[x.data].chars[..x.size];
      assert v == Contents()[s];
      var a, chars, got := Malloc(minCapacity);
      chars := Over(chars, 0, v + ['\0']);
      assert chars[..|v|] == v && chars[|v|] == '\0';
      ghost var m: Text := Contents();
      Rebase(s, Str(k, x.small, a, |v|, got), chars);
      SameEntry(m, s);
    }

    method Reserve(s: nat, minCapacity: nat)
      requires Valid() && s in strs
      modifies this
      ensures Valid() && Contents() == old(Contents()) && Unshared(s)
      ensures StrOk(strs[s], blocks) && Capacity(s) >= minCapacity
      ensures strs[s].kind.Small? ==> old(strs[s]).kind.Small? && minCapacity <= MAX_SMALL_SIZE
    {
      hide Shapes, Counts, Sharing, Values, StrOk, Good;
      ValueOf(strs, blocks, s);
      var x := strs[s];
      if x.kind.Small? {
        if minCapacity > MAX_SMALL_SIZE {
          Grow(s, if minCapacity <= MAX_MEDIUM_SIZE then Medium else Large, minCapacity);
        }
      } else if x.kind.Medium? {
        MediumAlone(strs, blocks, s);
        if minCapacity > x.capacity {
          Grow(s, if minCapacity <= MAX_MEDIUM_SIZE then Medium else Large, minCapacity);
        }
      } else if blocks[x.data].refs > 1 {
        Unshare(s, minCapacity);
      } else if minCapacity > x.capacity {
        Grow(s, Large, minCapacity);
      }
      ValueOf(strs, blocks, s);
    }

    // ---------- expand and append ----------

    /** The end of expandNoinit: the size and the terminator. */
    method SetSize(s: nat, n: nat)
      requires Valid() && Unshared(s) && !strs[s].kind.Small? && strs[s].size <= n <= strs[s].capacity
      modifies this`strs, this`blocks
      ensures Valid() && Expanded(old(Contents()), Contents(), s, n - old(strs[s]).size) && Unshared(s)
    {
      hide Shapes, Counts, Sharing, Values, StrOk, Good;
      ValueOf(strs, blocks, s);
      var x := strs[s];
      BlockExpanded(x, blocks[x.data], n);
      Rebase(s, x.(size := n), blocks[x.data].chars[n := '\0']);
    }

    /** Make room for delta more characters; what they are is up to the caller. */
    method ExpandNoinit(s: nat, delta: nat, expGrowth: bool)
      requires Valid() && s in strs
      modifies this
      ensures Valid() && Expanded(old(Contents()), Contents(), s, delta) && (delta > 0 ==> Unshared(s))
    {
      hide Shapes, Counts, Sharing, Values, StrOk, Good;
      ValueOf(strs, blocks, s);
      var x := strs[s];
      ghost var m: Text := Contents();
      var newSize := Size(x, blocks) + delta;
      if x.kind.Small? {
        if newSize <= MAX_SMALL_SIZE {
          SmallExpanded(x, blocks, newSize);
          ReplaceSmall(strs, blocks, s, x.(small := WithSmallSize(x.small, newSize)));
          strs := strs[s := x.(small := WithSmallSize(x.small, newSize))];
          return;
        }
        Reserve(s, if expGrowth then Max(newSize, 2 * MAX_SMALL_SIZE) else newSize);
      } else if newSize > Capacity(s) {
        Reserve(s, if expGrowth then Max(newSize, 1 + Capacity(s) * 3 / 2) else newSize);
      } else if x.kind.Medium? {
        MediumAlone(strs, blocks, s);
      } else if blocks[x.data].refs > 1 {
        // Nothing to add: the terminator written to the shared block is there already.
        assert m[s][..|m[s]|] == m[s];
        SameEntry(m, s);
        return;
      }
      ValueOf(strs, blocks, s);
      SetSize(s, newSize);
    }

    /** append(s, n), from memory that is not the string's own. */
    method Append(s: nat, v: seq<char>)
      requires Valid() && s in strs
      modifies this
      ensures Valid() && Contents() == old(Contents())[s := old(Contents())[s] + v]
    {
      hide Shapes, Counts, Sharing, Values, StrOk, Good;
      ghost var m: Text := Contents();
      if v == [] {
        assert m[s] + v == m[s];
        SameEntry(m, s);
        return;
      }
      ValueOf(strs, blocks, s);
      var oldSize := Size(strs[s], blocks);
      ExpandNoinit(s, |v|, true);
      Filled(m, Contents(), s, v);
      Write(s, oldSize, v);
    }

    method PushBack(s: nat, c: char)
      requires Valid() && s in strs
      modifies this
      ensures Valid() && Contents() == old(Contents())[s := old(Contents())[s] + [c]]
    {
      Append(s, [c]);
    }

    /** The pointer to t's characters lies in the storage of s. */
    predicate Aliases(s: nat, t: nat)
      requires s in strs && t in strs
      reads this
    {
      s == t || (!strs[s].kind.Small? && !strs[t].kind.Small? && strs[s].data == strs[t].data)
    }

    /** append(str, pos, n). When the source lies in the string's own storage, it is found
        again in the storage that expandNoinit may have moved to. */
    method AppendPart(s: nat, t: nat, pos: nat, n: nat) returns (ok: bool)
      requires Valid() && s in strs && t in strs
      modifies this
      ensures Valid() && (ok <==> pos <= |old(Contents())[t]|)
      ensures !ok ==> Contents() == old(Contents())
      ensures ok ==> Contents() == old(Contents())[s := old(Contents())[s] +
                                     old(Contents())[t][pos..pos + Min(n, |old(Contents())[t]| - pos)]]
    {
      hide Shapes, Counts, Sharing, Values, StrOk, Good;
      ghost var m: Text := Contents();
      ValueOf(strs, blocks, s);
      ValueOf(strs, blocks, t);
      var sz := Size(strs[t], blocks);
      if pos > sz {
        return false;
      }
      ok := true;
      var count := Min(n, sz - pos);
      if count == 0 {
        assert m[s] + m[t][pos..pos] == m[s];
        SameEntry(m, s);
        return;
      }
      var oldSize := Size(strs[s], blocks);
      var alias := Aliases(s, t);
      if alias {
        AliasesAgree(strs, blocks, s, t);
      }
      ExpandNoinit(s, count, true);
      var from := if alias then s else t;
      ValueOf(strs, blocks, from);
      var v := Value(strs[from], blocks)[pos..pos + count];
      assert v == m[t][pos..pos + count] by {
        ghost var source := Contents()[from];
        assert Value(strs[from], blocks) == source && source[..sz] == m[t];
        assert source[pos..pos + count] == source[..sz][pos..pos + count];
      }
      Filled(m, Contents(), s, v);
      Write(s, oldSize, v);
    }
  }

  // ---------- programs ----------

  /** What a program may do with its strings. */
  datatype Op =
    | New(s: nat, v: seq<char>) | CopyOf(s: nat, t: nat) | MoveOf(s: nat, t: nat)
    | Drop(s: nat) | SwapOf(s: nat, t: nat)
    | Put(s: nat, i: nat, c: char) | ShrinkBy(s: nat, delta: nat) | ReserveFor(s: nat, capacity: nat)
    | Add(s: nat, v: seq<char>) | AddPart(s: nat, t: nat, pos: nat, n: nat)

  /** The operation names live strings, and stays within them. */
  predicate Legal(m: Text, op: Op) {
    match op
    case New(s, v) => s !in m
    case CopyOf(s, t) => s !in m && t in m
    case MoveOf(s, t) => s !in m && t in m
    case Drop(s) => s in m
    case SwapOf(s, t) => s in m && t in m
    case Put(s, i, c) => s in m && i < |m[s]|
    case ShrinkBy(s, delta) => s in m && delta <= |m[s]|
    case ReserveFor(s, capacity) => s in m
    case Add(s, v) => s in m
    case AddPart(s, t, pos, n) => s in m && t in m
  }

  /** The same operation on plain value strings. */
  function Plain(m: Text, op: Op): Text
    requires Legal(m, op)
  {
    match op
    case New(s, v) => m[s := v]
    case CopyOf(s, t) => m[s := m[t]]
    case MoveOf(s, t) => m[s := m[t]][t := []]
    case Drop(s) => m - {s}
    case SwapOf(s, t) => m[s := m[t]][t := m[s]]
    case Put(s, i, c) => m[s := m[s][i := c]]
    case ShrinkBy(s, delta) => m[s := m[s][..|m[s]| - delta]]
    case ReserveFor(s, capacity) => m
    case Add(s, v) => m[s := m[s] + v]
    case AddPart(s, t, pos, n) => if pos > |m[t]| then m else m[s := m[s] + m[t][pos..pos + Min(n, |m[t]| - pos)]]
  }

  predicate LegalAll(m: Text, ops: seq<Op>)
    decreases |ops|
  {
    ops == [] || (Legal(m, ops[0]) && LegalAll(Plain(m, ops[0]), ops[1..]))
  }

  function PlainAll(m: Text, ops: seq<Op>): Text
    requires LegalAll(m, ops)
    decreases |ops|
  {
    if ops == [] then m else PlainAll(Plain(m, ops[0]), ops[1..])
  }

  method Execute(memory: Memory, op: Op)
    requires memory.Valid() && Legal(memory.Contents(), op)
    modifies memory
    ensures memory.Valid() && memory.Contents() == Plain(old(memory.Contents()), op)
  {
    hide Good, Values;
    match op
    case New(s, v) => memory.Init(s, v);
    case CopyOf(s, t) => memory.Copy(s, t);
    case MoveOf(s, t) => memory.Move(s, t);
    case Drop(s) => memory.Destroy(s);
    case SwapOf(s, t) => memory.Swap(s, t);
    case Put(s, i, c) => memory.SetChar(s, i, c);
    case ShrinkBy(s, delta) => memory.Shrink(s, delta);
    case ReserveFor(s, capacity) => memory.Reserve(s, capacity);
    case Add(s, v) => memory.Append(s, v);
    case AddPart(s, t, pos, n) => var ok := memory.AppendPart(s, t, pos, n);
  }

  /** Over any program, on any number of strings, copy on write is not seen: the values
      are those of plain strings, every block counts its users, and a block exists
      exactly while it has some. */
  method ExecuteAll(memory: Memory, ops: seq<Op>)
    requires memory.Valid() && LegalAll(memory.Contents(), ops)
    modifies memory
    ensures memory.Valid() && memory.Contents() == PlainAll(old(memory.Contents()), ops)
  {
    hide Good, Values, Plain, Legal;
    var i := 0;
    ghost var last := PlainAll(memory.Contents(), ops);
    while i < |ops|
      invariant i <= |ops| && memory.Valid() && LegalAll(memory.Contents(), ops[i..])
      invariant PlainAll(memory.Contents(), ops[i..]) == last
    {
      assert ops[i..][0] == ops[i] && ops[i..][1..] == ops[i + 1..];
      Execute(memory, ops[i]);
      i := i + 1;
    }
    assert ops[i..] == [];
  }

  /** What Valid says of each block, in terms of the strings alone. */
  lemma BlocksAreCounted(strs: Strs, blocks: Blocks, b: nat)
    requires Good(strs, blocks)
    ensures b in blocks <==> exists s :: s in strs && Uses(strs[s], b)
    ensures b in blocks ==> blocks[b].refs == |Users(strs, b)|
    ensures b in blocks && blocks[b].refs > 1 ==> forall s :: s in strs && Uses(strs[s], b) ==> strs[s].kind.Large?
  {
    if b in blocks {
      assert CountOk(strs, blocks, b);
      var s :| s in Users(strs, b);
      if blocks[b].refs > 1 {
        forall u | u in strs && Uses(strs[u], b) ensures strs[u].kind.Large? {
          AnotherUser(strs, b, u);
        }
      }
    }
    forall s | s in strs && Uses(strs[s], b) ensures b in blocks {
      assert StrOk(strs[s], blocks);
    }
  }

  lemma AnotherUser(strs: Strs, b: nat, u: nat)
    requires Sharing(strs) && u in strs && Uses(strs[u], b) && |Users(strs, b)| > 1
    ensures strs[u].kind.Large?
  {
    var others := Users(strs, b) - {u};
    assert |others| == |Users(strs, b)| - 1;
    var v :| v in others;
    assert MayShare(strs[u], strs[v]);
  }

  /** c_str: the character after the last is a readable zero, in all three categories. */
  lemma ZeroTerminated(strs: Strs, blocks: Blocks, s: nat)
    requires Good(strs, blocks) && s in strs
    ensures var x := strs[s];
            && StrOk(x, blocks)
            && var storage := if x.kind.Small? then x.small else blocks[x.data].chars;
               var n := |Value(x, blocks)|;
               n < |storage| && storage[..n] == Value(x, blocks) && storage[n] == '\0'
  {
    ValueOf(strs, blocks, s);
  }

  /** Strings that share storage have the same characters. */
  lemma AliasesAgree(strs: Strs, blocks: Blocks, s: nat, t: nat)
    requires Good(strs, blocks) && s in strs && t in strs
    requires s == t || (!strs[s].kind.Small? && !strs[t].kind.Small? && strs[s].data == strs[t].data)
    ensures Values(strs, blocks)[s] == Values(strs, blocks)[t]
  {
    if s != t {
      assert MayShare(strs[s], strs[t]);
    }
  }
}
