/** fbstring_core: strings in three storage categories. Small strings live in the object,
    medium ones in a block of their own, large ones in a reference-counted block that
    copies share until one of them is written. Objects and blocks have addresses; a
    freed block leaves the map. */
module FbStringModel {

  const MAX_SMALL_SIZE: nat := 23
  const MAX_MEDIUM_SIZE: nat := 254

  datatype Kind = Small | Medium | Large

  /** One string object. small is the in-situ storage, whose last character holds the
      unused room, so that it is the terminator of a full string. */
  datatype Str = Str(kind: Kind, small: seq<char>, data: nat, size: nat, capacity: nat)

  /** One block: the count in front of a large string's characters, and the characters. */
  datatype Block = Block(refs: nat, chars: seq<char>)

  type Strs = map<nat, Str>
  type Blocks = map<nat, Block>

  // ---------- one string ----------

  predicate SmallOk(x: Str) {
    && |x.small| == MAX_SMALL_SIZE + 1 && x.small[MAX_SMALL_SIZE] as int <= MAX_SMALL_SIZE
    && x.small[MAX_SMALL_SIZE - x.small[MAX_SMALL_SIZE] as int] == '\0'
  }

  function SmallSize(x: Str): nat
    requires SmallOk(x)
  {
    MAX_SMALL_SIZE - x.small[MAX_SMALL_SIZE] as int
  }

  predicate BlockOk(x: Str, b: Block) {
    x.size <= x.capacity && |b.chars| == x.capacity + 1 && b.chars[x.size] == '\0'
  }

  /** Well formed and zero-terminated. */
  predicate StrOk(x: Str, blocks: Blocks) {
    if x.kind.Small? then SmallOk(x) else x.data in blocks && BlockOk(x, blocks[x.data])
  }

  function Size(x: Str, blocks: Blocks): nat
    requires StrOk(x, blocks)
  {
    if x.kind.Small? then SmallSize(x) else x.size
  }

  /** The characters a caller sees. */
  function Value(x: Str, blocks: Blocks): (v: seq<char>)
    requires StrOk(x, blocks)
    ensures |v| == Size(x, blocks)
  {
    if x.kind.Small? then x.small[..SmallSize(x)] else blocks[x.data].chars[..x.size]
  }

  /** setSmallSize on storage that holds at least s characters. */
  function WithSmallSize(small: seq<char>, s: nat): seq<char>
    requires |small| == MAX_SMALL_SIZE + 1 && s <= MAX_SMALL_SIZE
  {
    small[MAX_SMALL_SIZE := (MAX_SMALL_SIZE - s) as char][s := '\0']
  }

  lemma SmallSizeSet(x: Str, s: nat)
    requires |x.small| == MAX_SMALL_SIZE + 1 && s <= MAX_SMALL_SIZE
    ensures var y := x.(kind := Small, small := WithSmallSize(x.small, s));
            SmallOk(y) && SmallSize(y) == s && y.small[..s] == x.small[..s]
  {
  }

  // ---------- all strings ----------

  predicate Uses(x: Str, b: nat) {
    !x.kind.Small? && x.data == b
  }

  function Users(strs: Strs, b: nat): set<nat> {
    set s | s in strs.Keys && Uses(strs[s], b)
  }


  /** Only large strings share a block, and then have the same length. */
  predicate MayShare(x: Str, y: Str) {
    !x.kind.Small? && !y.kind.Small? && x.data == y.data ==> x.kind.Large? && y.kind.Large? && x.size == y.size
  }

  ghost predicate Shapes(strs: Strs, blocks: Blocks) {
    forall s :: s in strs ==> StrOk(strs[s], blocks)
  }

  predicate CountOk(strs: Strs, blocks: Blocks, b: nat)
    requires b in blocks
  {
    blocks[b].refs == |Users(strs, b)| > 0
  }

  /** Each block counts the strings that use it, and exists exactly while there are some. */
  ghost predicate Counts(strs: Strs, blocks: Blocks) {
    forall b :: b in blocks ==> CountOk(strs, blocks, b)
  }

  ghost predicate Sharing(strs: Strs) {
    forall s, t :: s in strs && t in strs && s != t ==> MayShare(strs[s], strs[t])
  }

  ghost predicate Good(strs: Strs, blocks: Blocks) {
    Shapes(strs, blocks) && Counts(strs, blocks) && Sharing(strs)
  }

  ghost function Values(strs: Strs, blocks: Blocks): (m: map<nat, seq<char>>)
    requires Shapes(strs, blocks)
    ensures m.Keys == strs.Keys
  {
    map s | s in strs :: Value(strs[s], blocks)
  }

  // ---------- releasing a block ----------

  /** decrementRefs, or free for a medium string: the last user frees the block. */
  function Release(blocks: Blocks, x: Str): Blocks
    requires !x.kind.Small? ==> x.data in blocks
  {
    if x.kind.Small? then blocks
    else if blocks[x.data].refs <= 1 then blocks - {x.data}
    else blocks[x.data := blocks[x.data].(refs := blocks[x.data].refs - 1)]
  }

  lemma UsersWithout(strs: Strs, s: nat, b: nat)
    requires s in strs
    ensures Users(strs - {s}, b) == Users(strs, b) - {s}
  {
  }

  lemma UsersWith(strs: Strs, s: nat, x: Str, b: nat)
    requires s !in strs
    ensures Users(strs[s := x], b) == Users(strs, b) + (if Uses(x, b) then {s} else {})
    ensures s !in Users(strs, b)
  {
  }

  lemma OnlyUser(users: set<nat>, s: nat, t: nat)
    requires s in users && t in users && |users| == 1
    ensures s == t
  {
    assert |users - {s}| == 0;
    assert t !in users - {s};
  }

  lemma OthersKeep(strs: Strs, blocks: Blocks, s: nat, t: nat)
    requires Shapes(strs, blocks) && Counts(strs, blocks) && s in strs && t in strs && s != t
    ensures StrOk(strs[t], Release(blocks, strs[s]))
            && Value(strs[t], Release(blocks, strs[s])) == Value(strs[t], blocks)
  {
    var x := strs[s];
    assert StrOk(x, blocks) && StrOk(strs[t], blocks);
    if !x.kind.Small? && Uses(strs[t], x.data) {
      assert CountOk(strs, blocks, x.data) && s in Users(strs, x.data) && t in Users(strs, x.data);
      if |Users(strs, x.data)| == 1 {
        OnlyUser(Users(strs, x.data), s, t);
      }
    }
    hide Shapes, Counts, Users;
  }

  lemma CountAfterRelease(strs: Strs, blocks: Blocks, s: nat, b: nat)
    requires s in strs && StrOk(strs[s], blocks) && Counts(strs, blocks) && b in Release(blocks, strs[s])
    ensures CountOk(strs - {s}, Release(blocks, strs[s]), b)
  {
    assert CountOk(strs, blocks, b);
    UsersWithout(strs, s, b);
    assert Uses(strs[s], b) <==> s in Users(strs, b);
    hide Counts, Users, StrOk;
  }

  /** The destructor: the other strings keep their values. */
  lemma ReleaseKeeps(strs: Strs, blocks: Blocks, s: nat)
    requires Good(strs, blocks) && s in strs
    ensures Good(strs - {s}, Release(blocks, strs[s]))
    ensures Values(strs - {s}, Release(blocks, strs[s])) == Values(strs, blocks) - {s}
  {
    assert StrOk(strs[s], blocks);
    var strs', blocks' := strs - {s}, Release(blocks, strs[s]);
    hide Users, CountOk, StrOk, Value, Release, MayShare;
    forall t | t in strs' ensures StrOk(strs'[t], blocks') && Value(strs'[t], blocks') == Value(strs[t], blocks) {
      OthersKeep(strs, blocks, s, t);
    }
    forall b | b in blocks' ensures CountOk(strs', blocks', b) {
      CountAfterRelease(strs, blocks, s, b);
    }
  }

  // ---------- new strings ----------

  /** The other strings look the same after a step that keeps their blocks' characters. */
  lemma AddValue(strs: Strs, blocks: Blocks, s: nat, x: Str, blocks': Blocks)
    requires Shapes(strs, blocks) && s !in strs && StrOk(x, blocks')
    requires forall t :: t in strs ==> StrOk(strs[t], blocks') && Value(strs[t], blocks') == Value(strs[t], blocks)
    ensures Shapes(strs[s := x], blocks')
    ensures Values(strs[s := x], blocks') == Values(strs, blocks)[s := Value(x, blocks')]
  {
    hide StrOk, Value;
  }

  lemma SameCount(strs: Strs, blocks: Blocks, s: nat, x: Str, blocks': Blocks, b: nat)
    requires b in blocks && CountOk(strs, blocks, b) && s !in strs && b in blocks'
    requires blocks'[b].refs == blocks[b].refs + if Uses(x, b) then 1 else 0
    ensures CountOk(strs[s := x], blocks', b)
  {
    UsersWith(strs, s, x, b);
    hide Users;
  }

  lemma AddSmall(strs: Strs, blocks: Blocks, s: nat, x: Str)
    requires Good(strs, blocks) && s !in strs && x.kind.Small? && SmallOk(x)
    ensures Good(strs[s := x], blocks)
    ensures Values(strs[s := x], blocks) == Values(strs, blocks)[s := Value(x, blocks)]
  {
    AddValue(strs, blocks, s, x, blocks);
    hide Users, CountOk, Shapes;
    forall b | b in blocks ensures CountOk(strs[s := x], blocks, b) {
      SameCount(strs, blocks, s, x, blocks, b);
    }
  }

  lemma NoUsers(strs: Strs, blocks: Blocks, a: nat)
    requires Shapes(strs, blocks) && a !in blocks
    ensures Users(strs, a) == {} && forall t :: t in strs ==> !Uses(strs[t], a)
  {
    forall t | t in strs ensures !Uses(strs[t], a) {
      assert StrOk(strs[t], blocks);
    }
  }

  lemma OwnerCount(strs: Strs, blocks: Blocks, s: nat, x: Str, b: Block)
    requires Shapes(strs, blocks) && s !in strs && !x.kind.Small? && x.data !in blocks && b.refs == 1
    ensures CountOk(strs[s := x], blocks[x.data := b], x.data)
  {
    NoUsers(strs, blocks, x.data);
    UsersWith(strs, s, x, x.data);
  }

  /** A string with a block of its own. */
  lemma AddOwner(strs: Strs, blocks: Blocks, s: nat, x: Str, chars: seq<char>)
    requires Good(strs, blocks) && s !in strs && !x.kind.Small? && x.data !in blocks && BlockOk(x, Block(1, chars))
    ensures Good(strs[s := x], blocks[x.data := Block(1, chars)])
    ensures Values(strs[s := x], blocks[x.data := Block(1, chars)]) == Values(strs, blocks)[s := chars[..x.size]]
  {
    var strs', blocks' := strs[s := x], blocks[x.data := Block(1, chars)];
    NoUsers(strs, blocks, x.data);
    OwnerCount(strs, blocks, s, x, Block(1, chars));
    forall t | t in strs ensures StrOk(strs[t], blocks') && Value(strs[t], blocks') == Value(strs[t], blocks) {
      assert StrOk(strs[t], blocks) && !Uses(strs[t], x.data);
    }
    AddValue(strs, blocks, s, x, blocks');
    hide Users, CountOk, Shapes, StrOk;
    forall b | b in blocks' ensures CountOk(strs', blocks', b) {
      if b != x.data {
        SameCount(strs, blocks, s, x, blocks', b);
      }
    }
  }

  /** copyLarge. */
  function Shared(blocks: Blocks, b: nat): Blocks
    requires b in blocks
  {
    blocks[b := blocks[b].(refs := blocks[b].refs + 1)]
  }

  lemma AddSharer(strs: Strs, blocks: Blocks, s: nat, t: nat)
    requires Good(strs, blocks) && s !in strs && t in strs && strs[t].kind.Large? && strs[t].data in blocks
    ensures var strs', blocks' := strs[s := strs[t]], Shared(blocks, strs[t].data);
            Good(strs', blocks') && Values(strs', blocks') == Values(strs, blocks)[s := Value(strs[t], blocks)]
  {
    var x := strs[t];
    var strs', blocks' := strs[s := x], Shared(blocks, x.data);
    forall u | u in strs ensures StrOk(strs[u], blocks') && Value(strs[u], blocks') == Value(strs[u], blocks) {
      assert StrOk(strs[u], blocks);
    }
    AddValue(strs, blocks, s, x, blocks');
    hide Users, CountOk, Shapes, StrOk;
    forall b | b in blocks' ensures CountOk(strs', blocks', b) {
      SameCount(strs, blocks, s, x, blocks', b);
    }
    SharerShares(strs, s, t);
  }

  lemma SharerShares(strs: Strs, s: nat, t: nat)
    requires Sharing(strs) && s !in strs && t in strs && strs[t].kind.Large?
    ensures Sharing(strs[s := strs[t]])
  {
    forall u | u in strs ensures MayShare(strs[u], strs[t]) && MayShare(strs[t], strs[u]) {
      assert u != t ==> MayShare(strs[u], strs[t]) && MayShare(strs[t], strs[u]);
    }
  }

  // ---------- changing one string ----------

  lemma PutBack<V>(m: map<nat, V>, s: nat, x: V)
    ensures (m - {s})[s := x] == m[s := x]
  {
  }

  /** String s gets a block of its own, at an address that is free once it let go of its
      old one: a new block, or its old block when nobody else used it. */
  lemma ReplaceOwner(strs: Strs, blocks: Blocks, s: nat, x: Str, chars: seq<char>)
    requires Good(strs, blocks) && s in strs && !x.kind.Small? && BlockOk(x, Block(1, chars)) && StrOk(strs[s], blocks)
    requires x.data !in Release(blocks, strs[s])
    ensures var blocks' := Release(blocks, strs[s])[x.data := Block(1, chars)];
            && Good(strs[s := x], blocks')
            && Values(strs[s := x], blocks') == Values(strs, blocks)[s := chars[..x.size]]
  {
    ReleaseKeeps(strs, blocks, s);
    hide Shapes, Counts, Sharing, Values, Release, BlockOk;
    AddOwner(strs - {s}, Release(blocks, strs[s]), s, x, chars);
    PutBack(strs, s, x);
    PutBack(Values(strs, blocks), s, chars[..x.size]);
  }

  lemma ReplaceSmall(strs: Strs, blocks: Blocks, s: nat, x: Str)
    requires Good(strs, blocks) && s in strs && strs[s].kind.Small? && x.kind.Small? && SmallOk(x)
    ensures Good(strs[s := x], blocks) && Values(strs[s := x], blocks) == Values(strs, blocks)[s := Value(x, blocks)]
  {
    ReleaseKeeps(strs, blocks, s);
    hide Shapes, Counts, Sharing, Values, SmallOk;
    AddSmall(strs - {s}, blocks, s, x);
    PutBack(strs, s, x);
    PutBack(Values(strs, blocks), s, Value(x, blocks));
  }

  // ---------- swap ----------

  function Swapped(strs: Strs, s: nat, t: nat): Strs
    requires s in strs && t in strs
  {
    strs[s := strs[t]][t := strs[s]]
  }

  /** The string whose contents string u has after the swap. */
  function Origin(s: nat, t: nat, u: nat): nat {
    if u == s then t else if u == t then s else u
  }

  lemma SwappedUsers(strs: Strs, s: nat, t: nat, b: nat)
    requires s in strs && t in strs && s != t
    ensures var before, after := Users(strs, b), Users(Swapped(strs, s, t), b);
            && after - {s, t} == before - {s, t}
            && (s in after <==> t in before) && (t in after <==> s in before)
  {
  }

  lemma CountApart(a: set<nat>, s: nat, t: nat)
    requires s != t
    ensures |a| == |a - {s, t}| + (if s in a then 1 else 0) + (if t in a then 1 else 0)
  {
    var rest := a - {s, t};
    if s in a && t in a {
      assert a == rest + {s, t};
    } else if s in a {
      assert a == rest + {s};
    } else if t in a {
      assert a == rest + {t};
    } else {
      assert a == rest;
    }
  }

  lemma SwapUsers(strs: Strs, s: nat, t: nat, b: nat)
    requires s in strs && t in strs && s != t
    ensures |Users(Swapped(strs, s, t), b)| == |Users(strs, b)|
  {
    SwappedUsers(strs, s, t, b);
    hide Users, Swapped;
    CountApart(Users(strs, b), s, t);
    CountApart(Users(Swapped(strs, s, t), b), s, t);
  }

  lemma SwapShares(strs: Strs, s: nat, t: nat)
    requires Sharing(strs) && s in strs && t in strs && s != t
    ensures Sharing(Swapped(strs, s, t))
  {
    var strs' := Swapped(strs, s, t);
    forall u | u in strs' ensures Origin(s, t, u) in strs && strs'[u] == strs[Origin(s, t, u)] {
    }
    forall u, v | u in strs' && v in strs' && u != v ensures MayShare(strs'[u], strs'[v]) {
      assert Origin(s, t, u) != Origin(s, t, v);
      assert MayShare(strs[Origin(s, t, u)], strs[Origin(s, t, v)]);
    }
  }

  lemma SwapValues(strs: Strs, blocks: Blocks, s: nat, t: nat)
    requires Shapes(strs, blocks) && s in strs && t in strs && s != t && StrOk(strs[s], blocks)
             && StrOk(strs[t], blocks)
    ensures Shapes(Swapped(strs, s, t), blocks)
    ensures Values(Swapped(strs, s, t), blocks) ==
            Values(strs, blocks)[s := Value(strs[t], blocks)][t := Value(strs[s], blocks)]
  {
    hide StrOk, Value;
  }

  lemma SwapCounts(strs: Strs, blocks: Blocks, s: nat, t: nat)
    requires Counts(strs, blocks) && s in strs && t in strs && s != t
    ensures Counts(Swapped(strs, s, t), blocks)
  {
    hide Users;
    forall b | b in blocks ensures CountOk(Swapped(strs, s, t), blocks, b) {
      assert CountOk(strs, blocks, b);
      SwapUsers(strs, s, t, b);
    }
  }

  lemma SwapKeeps(strs: Strs, blocks: Blocks, s: nat, t: nat)
    requires Good(strs, blocks) && s in strs && t in strs && s != t && StrOk(strs[s], blocks) && StrOk(strs[t], blocks)
    ensures Good(Swapped(strs, s, t), blocks)
    ensures Values(Swapped(strs, s, t), blocks) ==
            Values(strs, blocks)[s := Value(strs[t], blocks)][t := Value(strs[s], blocks)]
  {
    hide Shapes, Counts, Sharing, StrOk, Value, Values;
    SwapShares(strs, s, t);
    SwapValues(strs, blocks, s, t);
    SwapCounts(strs, blocks, s, t);
  }
}
