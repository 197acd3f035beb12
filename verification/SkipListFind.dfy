/** The two orders of searching for a node, and lower_bound, on a list that nobody
    changes meanwhile: all give the first node of the bottom layer not below the key. */
module SkipListFind {

  import opened SkipListState
  import opened SkipListInvariant
  import opened SkipListLinks
  import opened SkipListTheorems

  /** x is the first item of the bottom layer whose key is at least d; NIL if there is none. */
  ghost predicate IsLowerBound(l: List, d: int, x: nat) {
    && |l.lin| > 0
    && (x != NIL ==> x in l.lin[0] && IsItem(l, x) && d <= l.nodes[x].key)
    && forall y :: y in l.lin[0] && IsItem(l, y) && d <= l.nodes[y].key ==> x != NIL && (y == x || Precedes(l, x, y))
  }

  /** There is only one such node, so both searches return the same pair. */
  lemma OneLowerBound(l: List, d: int, x: nat, y: nat)
    requires IsLowerBound(l, d, x) && IsLowerBound(l, d, y)
    ensures x == y
  {
    if x != NIL && y != NIL && x != y {
      PrecedesBoth(l, x, y);
    }
  }

  lemma PrecedesBoth(l: List, x: nat, y: nat)
    requires x < |l.nodes| && y < |l.nodes| && !l.nodes[x].isHead
    ensures !(Precedes(l, x, y) && Precedes(l, y, x))
  {
  }

  /** Stopped between a node before d and its successor on the bottom layer. */
  lemma StoppedAtBottom(cfg: Config, l: List, d: int, pred: nat)
    requires ListInv(cfg, l) && pred in l.lin[0] && Before(l, pred, d) && Less(l, d, Skip(l, 0, pred))
    ensures IsLowerBound(l, d, Skip(l, 0, pred))
  {
    assert NextOk(l, 0, pred);
    var s := Skip(l, 0, pred);
    if s != NIL {
      assert LinOk(l, 0, s);
    }
    forall y | y in l.lin[0] && IsItem(l, y) && d <= l.nodes[y].key ensures s != NIL && (y == s || Precedes(l, s, y)) {
      assert Precedes(l, pred, y);
    }
  }

  /** A node with key d is the lower bound, whatever layer it was met on. */
  lemma FoundOnLayer(cfg: Config, l: List, d: int, k: nat, x: nat)
    requires ListInv(cfg, l) && k < |l.lin| && x in l.lin[k] && IsItem(l, x) && l.nodes[x].key == d
    ensures IsLowerBound(l, d, x)
  {
    LinkedBelow(l, 0, k, x);
    forall y | y in l.lin[0] && IsItem(l, y) && d <= l.nodes[y].key ensures y == x || Precedes(l, x, y) {
      if y != x {
        TotalAt(l, 0, x, y);
      }
    }
  }

  /** The successor of a linked node is linked, and fewer nodes come after it. */
  lemma StepRight(cfg: Config, l: List, k: nat, x: nat)
    requires ListInv(cfg, l) && k < |l.lin| && x in l.lin[k]
    ensures var s := Skip(l, k, x);
            s != NIL ==> s in l.lin[k] && IsItem(l, s) && |After(l, k, s)| < |After(l, k, x)|
  {
    NextIsFirst(cfg, l, k, x);
    if Skip(l, k, x) != NIL {
      assert LinOk(l, k, Skip(l, k, x));
    }
  }

  lemma HeadIsLinked(cfg: Config, l: List, k: nat)
    requires ListInv(cfg, l) && k < Height(l, l.head)
    ensures k < |l.lin| && l.head in l.lin[k] && forall d :: Before(l, l.head, d)
  {
    assert NodeOk(cfg, l.nodes[l.head]) && l.head in l.lin[k];
  }

  lemma OneDown(cfg: Config, l: List, k: nat, x: nat)
    requires ListInv(cfg, l) && 0 < k < |l.lin| && x in l.lin[k]
    ensures x in l.lin[k - 1]
  {
    hide Shape, Order, Layers;
    LinkedBelow(l, k - 1, k, x);
  }

  /** Walk right on layer k while the key is greater. */
  method WalkWhileGreater(cfg: Config, l: List, d: int, k: nat, start: nat) returns (pred: nat, node: nat)
    requires ListInv(cfg, l) && k < |l.lin| && start in l.lin[k] && Before(l, start, d)
    ensures pred in l.lin[k] && Before(l, pred, d) && node == Skip(l, k, pred) && !Greater(l, d, node)
    ensures node != NIL ==> node in l.lin[k] && IsItem(l, node)
  {
    pred, node := start, Skip(l, k, start);
    StepRight(cfg, l, k, pred);
    while Greater(l, d, node)
      invariant pred in l.lin[k] && Before(l, pred, d) && node == Skip(l, k, pred)
      invariant node != NIL ==> node in l.lin[k] && IsItem(l, node) && |After(l, k, node)| < |After(l, k, pred)|
      decreases |After(l, k, pred)|
    {
      pred := node;
      node := Skip(l, k, node);
      StepRight(cfg, l, k, pred);
    }
  }

  /** Step down first, then right. */
  method FindNodeDownRight(cfg: Config, l: List, d: int) returns (node: nat, found: bool)
    requires ListInv(cfg, l)
    ensures IsLowerBound(l, d, node)
    ensures found <==> node != NIL && l.nodes[node].key == d
  {
    hide ListInv;
    TopHeight(cfg, l);
    var pred: nat, ht: nat := l.head, Height(l, l.head);
    HeadIsLinked(cfg, l, ht - 1);
    node := NIL;
    found := false;
    while !found
      invariant ht <= |l.lin| && Before(l, pred, d)
      invariant ht > 0 && !found ==> pred in l.lin[ht - 1]
      invariant ht == 0 && !found ==> |l.lin| > 0 && pred in l.lin[0] && node == Skip(l, 0, pred) && Less(l, d, node)
      invariant found ==> IsLowerBound(l, d, node) && IsNode(l, node) && l.nodes[node].key == d
      decreases !found, ht
    {
      while ht > 0
        invariant ht <= |l.lin|
        invariant ht > 0 ==> pred in l.lin[ht - 1]
        invariant ht == 0 ==> |l.lin| > 0 && pred in l.lin[0] && node == Skip(l, 0, pred) && Less(l, d, node)
      {
        node := Skip(l, ht - 1, pred);
        if !Less(l, d, node) {
          break;
        }
        if ht > 1 {
          OneDown(cfg, l, ht - 1, pred);
        }
        ht := ht - 1;
      }
      if ht == 0 {
        StoppedAtBottom(cfg, l, d, pred);
        NotEqual(l, d, node);
        return node, false;
      }
      ht := ht - 1;
      pred, node := WalkWhileGreater(cfg, l, d, ht, pred);
      found := !Less(l, d, node);
      if found {
        FoundOnLayer(cfg, l, d, ht, node);
      } else if ht > 0 {
        OneDown(cfg, l, ht, pred);
      }
    }
  }

  lemma TopHeight(cfg: Config, l: List)
    requires ListInv(cfg, l)
    ensures 0 < Height(l, l.head) <= |l.lin|
  {
    assert NodeOk(cfg, l.nodes[l.head]);
  }

  lemma NotEqual(l: List, d: int, x: nat)
    requires Less(l, d, x)
    ensures x == NIL || (x < |l.nodes| && l.nodes[x].key != d)
  {
  }

  /** Step right first, then down. */
  method FindNodeRightDown(cfg: Config, l: List, d: int) returns (node: nat, found: bool)
    requires ListInv(cfg, l)
    ensures IsLowerBound(l, d, node)
    ensures found <==> node != NIL && l.nodes[node].key == d
  {
    hide ListInv;
    TopHeight(cfg, l);
    var pred: nat, layer: nat := l.head, Height(l, l.head);
    HeadIsLinked(cfg, l, layer - 1);
    node := NIL;
    found := false;
    while !found && layer > 0
      invariant layer <= |l.lin| && Before(l, pred, d)
      invariant layer > 0 && !found ==> pred in l.lin[layer - 1]
      invariant layer == 0 && !found ==> |l.lin| > 0 && pred in l.lin[0] && node == Skip(l, 0, pred) && Less(l, d, node)
      invariant found ==> IsLowerBound(l, d, node) && IsNode(l, node) && l.nodes[node].key == d
      decreases layer
    {
      layer := layer - 1;
      pred, node := WalkWhileGreater(cfg, l, d, layer, pred);
      found := !Less(l, d, node);
      if found {
        FoundOnLayer(cfg, l, d, layer, node);
      } else if layer > 0 {
        OneDown(cfg, l, layer, pred);
      }
    }
    if !found {
      StoppedAtBottom(cfg, l, d, pred);
      NotEqual(l, d, node);
    }
  }

  /** lower_bound: the first unmarked item not below the key. */
  ghost predicate IsLiveLowerBound(l: List, d: int, x: nat) {
    && |l.lin| > 0
    && (x != NIL ==> x in l.lin[0] && IsItem(l, x) && d <= l.nodes[x].key && !Marked(l, x))
    && forall y :: y in l.lin[0] && IsItem(l, y) && d <= l.nodes[y].key && !Marked(l, y) ==>
         x != NIL && (y == x || Precedes(l, x, y))
  }

  /** All unmarked items from d on are at x or after it. */
  ghost predicate RestFrom(l: List, d: int, x: nat) {
    && |l.lin| > 0
    && (x != NIL ==> x in l.lin[0] && IsItem(l, x) && d <= l.nodes[x].key)
    && forall y :: y in l.lin[0] && IsItem(l, y) && d <= l.nodes[y].key && !Marked(l, y) ==>
         x != NIL && (y == x || Precedes(l, x, y))
  }

  lemma SkipMarked(cfg: Config, l: List, d: int, x: nat)
    requires ListInv(cfg, l) && RestFrom(l, d, x) && x != NIL && Marked(l, x)
    ensures RestFrom(l, d, Skip(l, 0, x))
    ensures Skip(l, 0, x) != NIL ==> |After(l, 0, Skip(l, 0, x))| < |After(l, 0, x)|
  {
    StepRight(cfg, l, 0, x);
    assert NextOk(l, 0, x);
  }

  method LowerBound(cfg: Config, l: List, d: int) returns (node: nat)
    requires ListInv(cfg, l)
    ensures IsLiveLowerBound(l, d, node)
  {
    var found: bool;
    node, found := FindNodeDownRight(cfg, l, d);
    while node != NIL && Marked(l, node)
      invariant RestFrom(l, d, node)
      decreases node != NIL, if node != NIL then |After(l, 0, node)| else 0
    {
      SkipMarked(cfg, l, d, node);
      node := Skip(l, 0, node);
    }
  }
}
