/** Linking, unlinking and growing the head keep the invariant of the list. */
module SkipListLinks {

  import opened Common
  import opened SkipListState
  import opened SkipListInvariant

  lemma PrecedesTransitive(l: List, x: nat, y: nat, z: nat)
    requires Precedes(l, x, y) && Precedes(l, y, z)
    ensures Precedes(l, x, z)
  {
  }

  /** Linked nodes are ordered on every layer: upper layers hold fewer nodes. */
  lemma LinkedBelow(l: List, j: nat, k: nat, x: nat)
    requires Order(l) && Layers(l) && j <= k < |l.lin| && x in l.lin[k]
    ensures x in l.lin[j]
  {
    assert LinOk(l, k, x) && DownOk(l, j, k, x);
  }

  lemma TotalAt(l: List, k: nat, x: nat, y: nat)
    requires Order(l) && Layers(l) && k < |l.lin| && x in l.lin[k] && y in l.lin[k] && x != y
    ensures Precedes(l, x, y) || Precedes(l, y, x)
  {
    LinkedBelow(l, 0, k, x);
    LinkedBelow(l, 0, k, y);
  }

  /** Two nodes of a layer with the same successor are the same. */
  lemma UniquePred(l: List, k: nat, p: nat, z: nat)
    requires Order(l) && Layers(l) && k < |l.lin| && p in l.lin[k] && z in l.lin[k]
    requires Skip(l, k, p) == Skip(l, k, z) != NIL
    ensures p == z
  {
    assert NextOk(l, k, p) && NextOk(l, k, z);
    if p != z {
      TotalAt(l, k, p, z);
    }
  }

  // ---------- linking ----------

  /** Node x may be linked at layer k between p and its successor. */
  ghost predicate CanLink(l: List, t: Tid, k: nat, p: nat, x: nat) {
    && k < |l.lin| == |l.gone| && p in l.lin[k] && p < |l.nodes| && k < |l.nodes[p].skip| == l.nodes[p].height
    && IsItem(l, x) && k < l.nodes[x].height == |l.nodes[x].skip|
    && !l.nodes[x].full && !l.nodes[x].marked && p != x && x != l.head
    && LockedBy(l, p, t) && MadeBy(l, x, t)
    && (forall j :: 0 <= j < |l.lin| && j < l.nodes[x].height ==> (Ever(l, j, x) <==> j < k))
    && Precedes(l, p, x) && (Skip(l, k, p) == NIL || Precedes(l, x, Skip(l, k, p)))
  }

  function LinkedList(l: List, k: nat, p: nat, x: nat): List
    requires p < |l.nodes| && k < |l.nodes[p].skip| && x < |l.nodes| && k < |l.nodes[x].skip| && k < |l.lin| && p != x
  {
    LinkNode(l, k, p, x, Skip(l, k, p))
  }

  /** What linking changes: two links of layer k. */
  lemma LinkFacts(l: List, t: Tid, k: nat, p: nat, x: nat)
    requires Order(l) && CanLink(l, t, k, p, x)
    ensures var b := LinkedList(l, k, p, x);
            && b.head == l.head && |b.nodes| == |l.nodes| && b.gone == l.gone && |b.lin| == |l.lin|
            && b.lin[k] == l.lin[k] + {x} && (forall j :: 0 <= j < |l.lin| && j != k ==> b.lin[j] == l.lin[j])
            && (forall z :: 0 <= z < |l.nodes| ==>
                  b.nodes[z] == l.nodes[z].(skip := b.nodes[z].skip) && |b.nodes[z].skip| == |l.nodes[z].skip|)
            && Skip(b, k, p) == x && Skip(b, k, x) == Skip(l, k, p)
    ensures forall j: nat, z: nat :: j != k || (z != p && z != x) ==>
              Skip(LinkedList(l, k, p, x), j, z) == Skip(l, j, z)
  {
  }

  lemma LinkTotal(l: List, t: Tid, k: nat, p: nat, x: nat, y: nat)
    requires Order(l) && Layers(l) && CanLink(l, t, k, p, x) && y in l.lin[k] && y != x
    ensures Precedes(l, x, y) || Precedes(l, y, x)
  {
    assert NextOk(l, k, p);
    if y != p {
      TotalAt(l, k, p, y);
    }
  }

  lemma LinkNext(l: List, t: Tid, k: nat, p: nat, x: nat, z: nat)
    requires Order(l) && Layers(l) && CanLink(l, t, k, p, x) && (z in l.lin[k] || z == x)
    ensures NextOk(LinkedList(l, k, p, x), k, z)
  {
    var b := LinkedList(l, k, p, x);
    LinkFacts(l, t, k, p, x);
    assert NextOk(l, k, p) && (z != x ==> NextOk(l, k, z));
    forall y | y in b.lin[k] && Precedes(b, z, y)
      ensures Skip(b, k, z) != NIL && (y == Skip(b, k, z) || Precedes(b, Skip(b, k, z), y))
    {
      assert Precedes(l, z, y);
      if z == x {
        assert Precedes(l, p, y);
      } else if y == x && z != p {
        TotalAt(l, k, p, z);
      }
    }
  }

  lemma LinkNextElsewhere(l: List, t: Tid, k: nat, p: nat, x: nat, j: nat, z: nat)
    requires Order(l) && CanLink(l, t, k, p, x) && j < |l.lin| && j != k && z in l.lin[j]
    ensures NextOk(LinkedList(l, k, p, x), j, z)
  {
    var b := LinkedList(l, k, p, x);
    LinkFacts(l, t, k, p, x);
    assert NextOk(l, j, z) && LinOk(l, j, z);
    assert Skip(b, j, z) == Skip(l, j, z) && b.lin[j] == l.lin[j];
    forall y | y in b.lin[j] && Precedes(b, z, y)
      ensures Skip(b, j, z) != NIL && (y == Skip(b, j, z) || Precedes(b, Skip(b, j, z), y))
    {
      assert Precedes(l, z, y) && LinOk(l, j, y);
    }
  }

  lemma LinkGone(l: List, t: Tid, k: nat, p: nat, x: nat, j: nat, z: nat)
    requires Order(l) && CanLink(l, t, k, p, x) && j < |l.lin| && z in l.gone[j]
    ensures GoneOk(LinkedList(l, k, p, x), j, z)
  {
    LinkFacts(l, t, k, p, x);
    assert GoneOk(l, j, z) && LinOk(l, k, p);
    assert Skip(LinkedList(l, k, p, x), j, z) == Skip(l, j, z);
  }

  lemma LinkOrder(l: List, t: Tid, k: nat, p: nat, x: nat)
    requires Order(l) && Layers(l) && CanLink(l, t, k, p, x)
    ensures Order(LinkedList(l, k, p, x))
  {
    var b := LinkedList(l, k, p, x);
    LinkFacts(l, t, k, p, x);
    assert LinOk(l, k, p) && !Ever(l, k, x);
    forall j, z | 0 <= j < |b.lin| && z in b.lin[j] ensures LinOk(b, j, z) {
      assert z in l.lin[j] ==> LinOk(l, j, z);
    }
    forall j, z | 0 <= j < |b.lin| && z in b.gone[j] ensures GoneOk(b, j, z) {
      LinkGone(l, t, k, p, x, j, z);
    }
    forall z, y | z in b.lin[0] && y in b.lin[0] && z != y ensures Precedes(b, z, y) || Precedes(b, y, z) {
      if k == 0 && (z == x || y == x) {
        LinkTotal(l, t, k, p, x, if z == x then y else z);
      } else {
        assert Precedes(l, z, y) || Precedes(l, y, z);
      }
    }
    forall j, z | 0 <= j < |b.lin| && z in b.lin[j] ensures NextOk(b, j, z) {
      if j == k {
        LinkNext(l, t, k, p, x, z);
      } else {
        LinkNextElsewhere(l, t, k, p, x, j, z);
      }
    }
  }

  lemma LinkLayers(l: List, t: Tid, k: nat, p: nat, x: nat)
    requires Order(l) && Layers(l) && CanLink(l, t, k, p, x)
    ensures Layers(LinkedList(l, k, p, x))
  {
    var b := LinkedList(l, k, p, x);
    LinkFacts(l, t, k, p, x);
    forall j: nat, z: nat | j < |l.lin| ensures Ever(b, j, z) <==> Ever(l, j, z) || (j == k && z == x) {
    }
    forall i, j, z | 0 <= i <= j < |b.lin| && 0 <= z < |b.nodes| ensures DownOk(b, i, j, z) {
      assert DownOk(l, i, j, z);
    }
    forall z | 0 <= z < |b.nodes| ensures FullOk(b, z) {
      assert FullOk(l, z);
    }
  }

  lemma LinkEvolves(cfg: Config, l: List, t: Tid, k: nat, p: nat, x: nat)
    requires ListInv(cfg, l) && CanLink(l, t, k, p, x)
    ensures Evolve(t, l, LinkedList(l, k, p, x))
  {
    var b := LinkedList(l, k, p, x);
    LinkFacts(l, t, k, p, x);
    forall j, z: nat | 0 <= j < |l.lin| ensures LinkEvolve(t, l, b, j, z) {
      LinkEvolvesAt(cfg, l, t, k, p, x, j, z);
    }
  }

  lemma LinkEvolvesAt(cfg: Config, l: List, t: Tid, k: nat, p: nat, x: nat, j: nat, z: nat)
    requires ListInv(cfg, l) && CanLink(l, t, k, p, x) && j < |l.lin|
    ensures LinkEvolve(t, l, LinkedList(l, k, p, x), j, z)
  {
    LinkFacts(l, t, k, p, x);
    assert NextOk(l, k, p);
    if Skip(l, k, p) != NIL {
      assert LinOk(l, k, Skip(l, k, p));
    }
  }

  lemma LinkKeeps(cfg: Config, l: List, t: Tid, k: nat, p: nat, x: nat)
    requires ListInv(cfg, l) && CanLink(l, t, k, p, x)
    ensures ListInv(cfg, LinkedList(l, k, p, x)) && Evolve(t, l, LinkedList(l, k, p, x))
  {
    LinkFacts(l, t, k, p, x);
    LinkOrder(l, t, k, p, x);
    LinkLayers(l, t, k, p, x);
    LinkEvolves(cfg, l, t, k, p, x);
  }

  // ---------- unlinking ----------

  /** Node x may be unlinked at layer k, p being its predecessor there. */
  ghost predicate CanUnlink(l: List, t: Tid, k: nat, p: nat, x: nat) {
    && k < |l.lin| == |l.gone| && p in l.lin[k] && p < |l.nodes| && k < |l.nodes[p].skip| == l.nodes[p].height
    && IsItem(l, x) && k < l.nodes[x].height == |l.nodes[x].skip| && l.nodes[x].marked
    && LockedBy(l, p, t) && LockedBy(l, x, t)
    && x in l.lin[k] && Skip(l, k, p) == x
    && (forall j :: k < j < |l.lin| && j < l.nodes[x].height ==> x in l.gone[j])
  }

  lemma UnlinkFacts(l: List, t: Tid, k: nat, p: nat, x: nat)
    requires Order(l) && CanUnlink(l, t, k, p, x)
    ensures var b := UnlinkNode(l, k, p, x);
            && b.head == l.head && |b.nodes| == |l.nodes| && |b.lin| == |l.lin| == |b.gone|
            && b.lin[k] == l.lin[k] - {x} && b.gone[k] == l.gone[k] + {x}
            && (forall j :: 0 <= j < |l.lin| && j != k ==> b.lin[j] == l.lin[j] && b.gone[j] == l.gone[j])
            && (forall z :: 0 <= z < |l.nodes| ==>
                  b.nodes[z] == l.nodes[z].(skip := b.nodes[z].skip) && |b.nodes[z].skip| == |l.nodes[z].skip|)
            && Skip(b, k, p) == Skip(l, k, x) && p != x
    ensures forall j: nat, z: nat :: j != k || z != p ==> Skip(UnlinkNode(l, k, p, x), j, z) == Skip(l, j, z)
    ensures forall j: nat, z: nat :: Ever(UnlinkNode(l, k, p, x), j, z) <==> Ever(l, j, z)
  {
    assert NextOk(l, k, p);
  }

  lemma UnlinkNext(l: List, t: Tid, k: nat, p: nat, x: nat, z: nat)
    requires Order(l) && Layers(l) && CanUnlink(l, t, k, p, x) && z in l.lin[k] && z != x
    ensures NextOk(UnlinkNode(l, k, p, x), k, z)
  {
    var b := UnlinkNode(l, k, p, x);
    UnlinkFacts(l, t, k, p, x);
    assert NextOk(l, k, p) && NextOk(l, k, x) && NextOk(l, k, z);
    if z != p && Skip(l, k, z) == x {
      UniquePred(l, k, p, z);
    }
    forall y | y in b.lin[k] && Precedes(b, z, y)
      ensures Skip(b, k, z) != NIL && (y == Skip(b, k, z) || Precedes(b, Skip(b, k, z), y))
    {
      assert Precedes(l, z, y);
      if z == p {
        assert Precedes(l, x, y);
      }
    }
  }

  lemma UnlinkNextElsewhere(l: List, t: Tid, k: nat, p: nat, x: nat, j: nat, z: nat)
    requires Order(l) && CanUnlink(l, t, k, p, x) && j < |l.lin| && j != k && z in l.lin[j]
    ensures NextOk(UnlinkNode(l, k, p, x), j, z)
  {
    var b := UnlinkNode(l, k, p, x);
    UnlinkFacts(l, t, k, p, x);
    assert NextOk(l, j, z) && LinOk(l, j, z);
    assert Skip(b, j, z) == Skip(l, j, z) && b.lin[j] == l.lin[j];
    forall y | y in b.lin[j] && Precedes(b, z, y)
      ensures Skip(b, j, z) != NIL && (y == Skip(b, j, z) || Precedes(b, Skip(b, j, z), y))
    {
      assert Precedes(l, z, y) && LinOk(l, j, y);
    }
  }

  lemma UnlinkGone(l: List, t: Tid, k: nat, p: nat, x: nat, j: nat, z: nat)
    requires Order(l) && CanUnlink(l, t, k, p, x) && j < |l.lin| && (z in l.gone[j] || (j == k && z == x))
    ensures GoneOk(UnlinkNode(l, k, p, x), j, z)
  {
    UnlinkFacts(l, t, k, p, x);
    assert LinOk(l, k, p) && LinOk(l, k, x) && NextOk(l, k, x);
    assert z in l.gone[j] ==> GoneOk(l, j, z);
    assert Skip(UnlinkNode(l, k, p, x), j, z) == Skip(l, j, z);
  }

  lemma UnlinkOrder(l: List, t: Tid, k: nat, p: nat, x: nat)
    requires Order(l) && Layers(l) && CanUnlink(l, t, k, p, x)
    ensures Order(UnlinkNode(l, k, p, x))
  {
    var b := UnlinkNode(l, k, p, x);
    UnlinkFacts(l, t, k, p, x);
    forall j, z | 0 <= j < |b.lin| && z in b.lin[j] ensures LinOk(b, j, z) {
      assert LinOk(l, j, z);
    }
    forall j, z | 0 <= j < |b.lin| && z in b.gone[j] ensures GoneOk(b, j, z) {
      UnlinkGone(l, t, k, p, x, j, z);
    }
    forall z, y | z in b.lin[0] && y in b.lin[0] && z != y ensures Precedes(b, z, y) || Precedes(b, y, z) {
      assert Precedes(l, z, y) || Precedes(l, y, z);
    }
    forall j, z | 0 <= j < |b.lin| && z in b.lin[j] ensures NextOk(b, j, z) {
      if j == k {
        UnlinkNext(l, t, k, p, x, z);
      } else {
        UnlinkNextElsewhere(l, t, k, p, x, j, z);
      }
    }
  }

  lemma UnlinkLayers(l: List, t: Tid, k: nat, p: nat, x: nat)
    requires Order(l) && Layers(l) && CanUnlink(l, t, k, p, x)
    ensures Layers(UnlinkNode(l, k, p, x))
  {
    var b := UnlinkNode(l, k, p, x);
    UnlinkFacts(l, t, k, p, x);
    forall i, j, z | 0 <= i <= j < |b.lin| && 0 <= z < |b.nodes| ensures DownOk(b, i, j, z) {
      assert DownOk(l, i, j, z);
    }
    forall z | 0 <= z < |b.nodes| ensures FullOk(b, z) {
      assert FullOk(l, z);
    }
  }

  lemma UnlinkEvolvesAt(cfg: Config, l: List, t: Tid, k: nat, p: nat, x: nat, j: nat, z: nat)
    requires ListInv(cfg, l) && CanUnlink(l, t, k, p, x) && j < |l.lin|
    ensures LinkEvolve(t, l, UnlinkNode(l, k, p, x), j, z)
  {
    UnlinkFacts(l, t, k, p, x);
    assert NextOk(l, k, x);
    if Skip(l, k, x) != NIL {
      assert LinOk(l, k, Skip(l, k, x));
    }
  }

  lemma UnlinkKeeps(cfg: Config, l: List, t: Tid, k: nat, p: nat, x: nat)
    requires ListInv(cfg, l) && CanUnlink(l, t, k, p, x)
    ensures ListInv(cfg, UnlinkNode(l, k, p, x)) && Evolve(t, l, UnlinkNode(l, k, p, x))
  {
    var b := UnlinkNode(l, k, p, x);
    UnlinkFacts(l, t, k, p, x);
    UnlinkOrder(l, t, k, p, x);
    UnlinkLayers(l, t, k, p, x);
    UnlinkShape(cfg, l, t, k, p, x);
    forall j, z: nat | 0 <= j < |l.lin| ensures LinkEvolve(t, l, b, j, z) {
      UnlinkEvolvesAt(cfg, l, t, k, p, x, j, z);
    }
  }

  lemma UnlinkShape(cfg: Config, l: List, t: Tid, k: nat, p: nat, x: nat)
    requires ListInv(cfg, l) && CanUnlink(l, t, k, p, x)
    ensures Shape(cfg, UnlinkNode(l, k, p, x))
  {
    UnlinkFacts(l, t, k, p, x);
    assert LinOk(l, k, x);
  }

  // ---------- growing the head ----------

  /** Head to may replace the current head from, whose links it copies. */
  ghost predicate CanSwap(cfg: Config, l: List, t: Tid, from: nat, to: nat) {
    && |l.lin| == |l.gone| == cfg.maxHeight && IsNode(l, from) && IsNode(l, to) && from != to
    && l.head == from && l.nodes[from].isHead && l.nodes[to].isHead
    && l.nodes[from].height < l.nodes[to].height <= cfg.maxHeight
    && LockedBy(l, from, t) && MadeBy(l, to, t) && !l.nodes[to].marked && !l.nodes[to].full
    && (forall k :: 0 <= k < |l.lin| ==> !Ever(l, k, to) && Skip(l, k, to) == Skip(l, k, from))
  }

  lemma SwapFacts(cfg: Config, l: List, t: Tid, from: nat, to: nat)
    requires CanSwap(cfg, l, t, from, to)
    ensures var b := SwapHead(l, from, to, t);
            && b.head == to && |b.nodes| == |l.nodes| && |b.lin| == |l.lin| == |b.gone|
            && (forall k :: 0 <= k < |l.lin| ==>
                  && b.lin[k] == (if k < l.nodes[to].height then l.lin[k] - {from} + {to} else l.lin[k])
                  && b.gone[k] == (if k < l.nodes[from].height then l.gone[k] + {from} else l.gone[k]))
            && (forall z :: 0 <= z < |l.nodes| ==>
                  b.nodes[z] == if z == from then l.nodes[z].(marked := true, marker := t) else l.nodes[z])
            && (forall k: nat, z: nat :: Skip(b, k, z) == Skip(l, k, z))
  {
  }

  lemma SwapEver(cfg: Config, l: List, t: Tid, from: nat, to: nat, k: nat, z: nat)
    requires ListInv(cfg, l) && CanSwap(cfg, l, t, from, to)
    ensures Ever(SwapHead(l, from, to, t), k, z) <==> Ever(l, k, z) || (z == to && k < l.nodes[to].height)
  {
    SwapFacts(cfg, l, t, from, to);
    if k < |l.lin| && z in l.lin[k] {
      assert LinOk(l, k, z);
    }
  }

  lemma SwapGone(cfg: Config, l: List, t: Tid, from: nat, to: nat, k: nat, z: nat)
    requires ListInv(cfg, l) && CanSwap(cfg, l, t, from, to) && k < |l.lin|
    requires z in l.gone[k] || (z == from && k < l.nodes[from].height)
    ensures GoneOk(SwapHead(l, from, to, t), k, z)
  {
    SwapFacts(cfg, l, t, from, to);
    var s := Skip(l, k, z);
    if z in l.gone[k] {
      assert GoneOk(l, k, z);
    } else {
      assert NextOk(l, k, from);
    }
    SwapEver(cfg, l, t, from, to, k, s);
    SwapEver(cfg, l, t, from, to, k, z);
    assert Ever(l, k, z);
  }

  lemma SwapNext(cfg: Config, l: List, t: Tid, from: nat, to: nat, k: nat, z: nat)
    requires ListInv(cfg, l) && CanSwap(cfg, l, t, from, to) && k < |l.lin|
    requires z != from && (z in l.lin[k] || (z == to && k < l.nodes[to].height))
    ensures NextOk(SwapHead(l, from, to, t), k, z)
  {
    var b := SwapHead(l, from, to, t);
    SwapFacts(cfg, l, t, from, to);
    var z0 := if z == to then from else z;
    if z0 in l.lin[k] {
      assert NextOk(l, k, z0) && LinOk(l, k, z0);
    } else {
      assert l.nodes[from].height <= k;
    }
    forall y | y in b.lin[k] && Precedes(b, z, y)
      ensures Skip(b, k, z) != NIL && (y == Skip(b, k, z) || Precedes(b, Skip(b, k, z), y))
    {
      assert y in l.lin[k] && LinOk(l, k, y);
      assert Precedes(l, z0, y);
    }
    SwapNextIn(cfg, l, t, from, to, k, z0);
  }

  lemma SwapNextIn(cfg: Config, l: List, t: Tid, from: nat, to: nat, k: nat, z0: nat)
    requires ListInv(cfg, l) && CanSwap(cfg, l, t, from, to) && k < |l.lin|
    requires z0 in l.lin[k] || (z0 == from && l.nodes[from].height <= k)
    ensures || Skip(l, k, z0) == NIL
            || (Skip(l, k, z0) in SwapHead(l, from, to, t).lin[k] && Precedes(l, z0, Skip(l, k, z0)))
  {
    SwapFacts(cfg, l, t, from, to);
    if z0 in l.lin[k] {
      assert NextOk(l, k, z0) && LinOk(l, k, z0);
    } else {
      assert NodeOk(cfg, l.nodes[from]);
    }
  }

  lemma SwapOrder(cfg: Config, l: List, t: Tid, from: nat, to: nat)
    requires ListInv(cfg, l) && CanSwap(cfg, l, t, from, to)
    ensures Order(SwapHead(l, from, to, t))
  {
    var b := SwapHead(l, from, to, t);
    SwapFacts(cfg, l, t, from, to);
    forall k, z | 0 <= k < |b.lin| && z in b.lin[k] ensures LinOk(b, k, z) {
      assert z in l.lin[k] ==> LinOk(l, k, z);
      assert !Ever(l, k, to);
    }
    forall k, z | 0 <= k < |b.lin| && z in b.gone[k] ensures GoneOk(b, k, z) {
      SwapGone(cfg, l, t, from, to, k, z);
    }
    forall x, y | x in b.lin[0] && y in b.lin[0] && x != y ensures Precedes(b, x, y) || Precedes(b, y, x) {
      assert LinOk(b, 0, x) && LinOk(b, 0, y);
      assert x in l.lin[0] && y in l.lin[0] ==> Precedes(l, x, y) || Precedes(l, y, x);
    }
    forall k, z | 0 <= k < |b.lin| && z in b.lin[k] ensures NextOk(b, k, z) {
      assert LinOk(b, k, z);
      SwapNext(cfg, l, t, from, to, k, z);
    }
  }

  lemma SwapLayers(cfg: Config, l: List, t: Tid, from: nat, to: nat)
    requires ListInv(cfg, l) && CanSwap(cfg, l, t, from, to)
    ensures Layers(SwapHead(l, from, to, t))
  {
    var b := SwapHead(l, from, to, t);
    SwapFacts(cfg, l, t, from, to);
    forall k: nat, z: nat ensures Ever(b, k, z) <==> Ever(l, k, z) || (z == to && k < l.nodes[to].height) {
      SwapEver(cfg, l, t, from, to, k, z);
    }
    forall i, j, z | 0 <= i <= j < |b.lin| && 0 <= z < |b.nodes| ensures DownOk(b, i, j, z) {
      assert DownOk(l, i, j, z) && !Ever(l, i, to) && !Ever(l, j, to);
    }
    forall z | 0 <= z < |b.nodes| ensures FullOk(b, z) {
      assert FullOk(l, z);
    }
  }

  lemma SwapEvolvesAt(cfg: Config, l: List, t: Tid, from: nat, to: nat, k: nat, z: nat)
    requires ListInv(cfg, l) && CanSwap(cfg, l, t, from, to) && k < |l.lin|
    ensures LinkEvolve(t, l, SwapHead(l, from, to, t), k, z)
  {
    SwapFacts(cfg, l, t, from, to);
    SwapEver(cfg, l, t, from, to, k, z);
    if z == to && k < l.nodes[to].height {
      SwapNextIn(cfg, l, t, from, to, k, from);
      var s := Skip(l, k, from);
      if s != NIL {
        assert LinOk(SwapHead(l, from, to, t), k, s) by {
          SwapOrder(cfg, l, t, from, to);
        }
      }
    }
  }

  lemma SwapKeeps(cfg: Config, l: List, t: Tid, from: nat, to: nat)
    requires ListInv(cfg, l) && CanSwap(cfg, l, t, from, to)
    ensures ListInv(cfg, SwapHead(l, from, to, t)) && Evolve(t, l, SwapHead(l, from, to, t))
  {
    var b := SwapHead(l, from, to, t);
    SwapFacts(cfg, l, t, from, to);
    SwapOrder(cfg, l, t, from, to);
    SwapLayers(cfg, l, t, from, to);
    forall k, z: nat | 0 <= k < |l.lin| ensures LinkEvolve(t, l, b, k, z) {
      SwapEvolvesAt(cfg, l, t, from, to, k, z);
    }
  }
}
