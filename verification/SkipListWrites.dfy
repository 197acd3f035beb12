/** Each kind of write to the list keeps its invariant: order, layers and marks. */
module SkipListWrites {

  import opened Common
  import opened SkipListState
  import opened SkipListInvariant

  // ---------- writes that leave links and membership alone ----------

  predicate SameNode(a: Node, b: Node) {
    && b.height == a.height && b.key == a.key && b.isHead == a.isHead && b.maker == a.maker && b.skip == a.skip
    && (a.marked ==> b.marked) && (a.full ==> b.full)
  }

  ghost predicate SameLinks(a: List, b: List) {
    && b.lin == a.lin && b.gone == a.gone && b.head == a.head && |a.nodes| <= |b.nodes|
    && (forall x :: 0 <= x < |a.nodes| ==> SameNode(a.nodes[x], b.nodes[x]))
  }

  lemma SameOrder(a: List, b: List)
    requires Order(a) && SameLinks(a, b)
    ensures Order(b)
  {
    forall k, x | 0 <= k < |b.lin| && x in b.lin[k] ensures LinOk(b, k, x) {
      assert LinOk(a, k, x);
    }
    forall k, x | 0 <= k < |b.lin| && x in b.gone[k] ensures GoneOk(b, k, x) {
      SameGone(a, b, k, x);
    }
    forall x, y | x in b.lin[0] && y in b.lin[0] && x != y ensures Precedes(b, x, y) || Precedes(b, y, x) {
      assert Precedes(a, x, y) || Precedes(a, y, x);
    }
    forall k, x | 0 <= k < |b.lin| && x in b.lin[k] ensures NextOk(b, k, x) {
      SameNext(a, b, k, x);
    }
  }

  lemma SameGone(a: List, b: List, k: nat, x: nat)
    requires Order(a) && SameLinks(a, b) && k < |a.lin| && x in a.gone[k]
    ensures GoneOk(b, k, x)
  {
    assert GoneOk(a, k, x);
  }

  lemma SameNext(a: List, b: List, k: nat, x: nat)
    requires Order(a) && SameLinks(a, b) && k < |a.lin| && x in a.lin[k]
    ensures NextOk(b, k, x)
  {
    assert LinOk(a, k, x) && NextOk(a, k, x);
    forall y | y in b.lin[k] && Precedes(b, x, y)
      ensures Skip(b, k, x) != NIL && (y == Skip(b, k, x) || Precedes(b, Skip(b, k, x), y))
    {
      assert LinOk(a, k, y) && Precedes(a, x, y);
    }
  }

  lemma SameLayers(a: List, b: List)
    requires Order(a) && Layers(a) && SameLinks(a, b)
    requires forall x :: 0 <= x < |a.nodes| && !a.nodes[x].full ==> FullOk(b, x)
    requires forall x :: |a.nodes| <= x < |b.nodes| ==> !b.nodes[x].full
    ensures Layers(b)
  {
    forall j, k, x | 0 <= j <= k < |b.lin| && 0 <= x < |b.nodes| ensures DownOk(b, j, k, x) {
      if x < |a.nodes| {
        assert DownOk(a, j, k, x);
      } else {
        assert x in b.lin[k] ==> LinOk(a, k, x);
        assert x in b.gone[k] ==> GoneOk(a, k, x);
        assert x in b.gone[j] ==> GoneOk(a, j, x);
      }
    }
    forall x | 0 <= x < |b.nodes| ensures FullOk(b, x) {
      if x < |a.nodes| && a.nodes[x].full {
        SameFull(a, b, x);
      }
    }
  }

  lemma SameFull(a: List, b: List, x: nat)
    requires SameLinks(a, b) && x < |a.nodes| && FullOk(a, x) && a.nodes[x].full
    ensures FullOk(b, x)
  {
    forall k | 0 <= k < b.nodes[x].height ensures Ever(b, k, x) {
      assert Ever(a, k, x);
    }
  }

  /** Locks, flags and nodes that are not linked do not matter to the shape of the list. */
  lemma SameKeeps(cfg: Config, a: List, b: List)
    requires ListInv(cfg, a) && SameLinks(a, b) && !Marked(b, a.head)
    requires forall x :: 0 <= x < |b.nodes| ==> NodeOk(cfg, b.nodes[x])
    requires forall x :: 0 <= x < |a.nodes| && !a.nodes[x].full ==> FullOk(b, x)
    requires forall x :: |a.nodes| <= x < |b.nodes| ==> !b.nodes[x].full
    ensures ListInv(cfg, b)
  {
    SameOrder(a, b);
    SameLayers(a, b);
  }

  lemma SameEvolves(t: Tid, a: List, b: List)
    requires SameLinks(a, b) && |a.lin| == |a.gone| > 0 && 0 < |a.nodes|
    requires forall x :: 0 <= x < |a.nodes| ==> NodeEvolve(t, a.nodes[x], b.nodes[x])
    requires forall x :: |a.nodes| <= x < |b.nodes| ==> b.nodes[x].lock == None && b.nodes[x].maker == t
    requires forall x :: 0 <= x < |a.nodes| && LockedBy(b, x, t) ==> LockedBy(a, x, t) || Ever(a, 0, x)
    requires Order(a) && IsNode(a, a.head)
    ensures Evolve(t, a, b)
  {
    forall k, x: nat | 0 <= k < |a.lin| ensures LinkEvolve(t, a, b, k, x) {
      if Ever(a, k, x) {
        EverIsNode(a, k, x);
      }
    }
  }

  // ---------- setting flags and locks ----------

  lemma LockKeeps(cfg: Config, t: Tid, l: List, x: nat, o: Option<Tid>)
    requires ListInv(cfg, l) && IsNode(l, x)
    requires (l.nodes[x].lock == None && o == Some(t) && Ever(l, 0, x)) || (l.nodes[x].lock == Some(t) && o == None)
    ensures ListInv(cfg, SetLock(l, x, o)) && Evolve(t, l, SetLock(l, x, o))
  {
    var b := SetLock(l, x, o);
    FullFromSame(l, b);
    SameKeeps(cfg, l, b);
    SameEvolves(t, l, b);
  }

  lemma FullFromSame(a: List, b: List)
    requires |b.nodes| == |a.nodes| && forall x :: 0 <= x < |a.nodes| ==> b.nodes[x].full == a.nodes[x].full
    ensures forall x :: 0 <= x < |a.nodes| && !a.nodes[x].full ==> FullOk(b, x)
  {
  }

  lemma MarkKeeps(cfg: Config, t: Tid, l: List, x: nat)
    requires ListInv(cfg, l) && IsItem(l, x) && LockedBy(l, x, t) && l.nodes[x].full && !l.nodes[x].marked
    ensures var b := SetNode(l, x, l.nodes[x].(marked := true, marker := t)); ListInv(cfg, b) && Evolve(t, l, b)
  {
    var b := SetNode(l, x, l.nodes[x].(marked := true, marker := t));
    FullFromSame(l, b);
    SameKeeps(cfg, l, b);
    SameEvolves(t, l, b);
  }

  lemma FullKeeps(cfg: Config, t: Tid, l: List, x: nat)
    requires ListInv(cfg, l) && IsItem(l, x) && MadeBy(l, x, t)
    requires forall k :: 0 <= k < l.nodes[x].height ==> Ever(l, k, x)
    ensures var b := SetNode(l, x, l.nodes[x].(full := true)); ListInv(cfg, b) && Evolve(t, l, b)
  {
    var b := SetNode(l, x, l.nodes[x].(full := true));
    forall k | 0 <= k < b.nodes[x].height ensures Ever(b, k, x) {
      assert Ever(l, k, x);
    }
    SameKeeps(cfg, l, b);
    SameEvolves(t, l, b);
  }

  lemma AllocKeeps(cfg: Config, t: Tid, l: List, n: Node)
    requires ListInv(cfg, l) && NodeOk(cfg, n) && !n.full && n.lock == None && n.maker == t
    ensures ListInv(cfg, l.(nodes := l.nodes + [n])) && Evolve(t, l, l.(nodes := l.nodes + [n]))
    ensures forall k :: 0 <= k < |l.lin| ==> !Ever(l.(nodes := l.nodes + [n]), k, |l.nodes|)
  {
    var b := l.(nodes := l.nodes + [n]);
    forall k | 0 <= k < |l.lin| ensures !Ever(b, k, |l.nodes|) {
      assert |l.nodes| in l.lin[k] ==> LinOk(l, k, |l.nodes|);
      assert |l.nodes| in l.gone[k] ==> GoneOk(l, k, |l.nodes|);
    }
    SameKeeps(cfg, l, b);
    SameEvolves(t, l, b);
  }

  lemma CountKeeps(cfg: Config, t: Tid, l: List, size: int, counted: set<nat>)
    requires ListInv(cfg, l)
    ensures ListInv(cfg, l.(size := size, counted := counted)) && Evolve(t, l, l.(size := size, counted := counted))
  {
    var b := l.(size := size, counted := counted);
    FullFromSame(l, b);
    SameKeeps(cfg, l, b);
    SameEvolves(t, l, b);
  }

  lemma NoChangeEvolves(cfg: Config, t: Tid, l: List)
    requires ListInv(cfg, l)
    ensures Evolve(t, l, l)
  {
    SameEvolves(t, l, l);
  }
}
