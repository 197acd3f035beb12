/** The invariant of the skip list, and what each thread may rely on while others step. */
module SkipListInvariant {

  import opened Common
  import opened SkipListState

  // ---------- the list ----------

  /** x is before y in the order of the list; the head is before all other nodes. */
  predicate Precedes(l: List, x: nat, y: nat) {
    && x < |l.nodes| && y < |l.nodes| && !l.nodes[y].isHead
    && (l.nodes[x].isHead || l.nodes[x].key < l.nodes[y].key)
  }

  /** x is before every node with key d. */
  predicate Before(l: List, x: nat, d: int) {
    x < |l.nodes| && (l.nodes[x].isHead || l.nodes[x].key < d)
  }

  /** x is linked at layer k now, or was before. */
  predicate Ever(l: List, k: nat, x: nat) {
    k < |l.lin| == |l.gone| && (x in l.lin[k] || x in l.gone[k])
  }

  predicate Gone(l: List, k: nat, x: nat) {
    k < |l.gone| && x in l.gone[k]
  }

  predicate LockedBy(l: List, x: nat, t: Tid) {
    x < |l.nodes| && l.nodes[x].lock == Some(t)
  }

  predicate MadeBy(l: List, x: nat, t: Tid) {
    x < |l.nodes| && l.nodes[x].maker == t
  }

  predicate NodeOk(cfg: Config, n: Node) {
    1 <= n.height == |n.skip| <= cfg.maxHeight && (n.marked ==> n.full || n.isHead)
  }

  predicate LinOk(l: List, k: nat, x: nat)
    requires k < |l.gone|
  {
    && IsNode(l, x) && IsNode(l, l.head)
    && k < l.nodes[x].height && k < l.nodes[l.head].height
    && (l.nodes[x].isHead <==> x == l.head) && x !in l.gone[k]
  }

  predicate GoneOk(l: List, k: nat, x: nat) {
    && IsNode(l, x) && x != l.head && k < l.nodes[x].height && l.nodes[x].marked
    && (Skip(l, k, x) == NIL || (Ever(l, k, Skip(l, k, x)) && Precedes(l, x, Skip(l, k, x))))
  }

  /** The link of a linked node leads to the first linked node after it. */
  ghost predicate NextOk(l: List, k: nat, x: nat)
    requires k < |l.lin|
  {
    var s := Skip(l, k, x);
    && (s == NIL || (s in l.lin[k] && Precedes(l, x, s)))
    && forall y :: y in l.lin[k] && Precedes(l, x, y) ==> s != NIL && (y == s || Precedes(l, s, y))
  }

  ghost predicate FullOk(l: List, x: nat)
    requires x < |l.nodes|
  {
    l.nodes[x].full ==> !l.nodes[x].isHead && forall k :: 0 <= k < l.nodes[x].height ==> Ever(l, k, x)
  }

  predicate DownOk(l: List, j: nat, k: nat, x: nat)
    requires j < |l.lin| == |l.gone| && k < |l.lin|
  {
    && (Ever(l, k, x) ==> Ever(l, j, x))
    && (x in l.gone[j] && k < Height(l, x) ==> x in l.gone[k])
  }

  ghost predicate Shape(cfg: Config, l: List) {
    && ValidConfig(cfg) && |l.lin| == |l.gone| == cfg.maxHeight
    && IsNode(l, l.head) && l.nodes[l.head].isHead && !l.nodes[l.head].marked
    && (forall x :: 0 <= x < |l.nodes| ==> NodeOk(cfg, l.nodes[x]))
    && (forall k :: 0 <= k < l.nodes[l.head].height ==> l.head in l.lin[k])
  }

  ghost predicate Order(l: List) {
    && |l.lin| == |l.gone| > 0
    && (forall k, x :: 0 <= k < |l.lin| && x in l.lin[k] ==> LinOk(l, k, x))
    && (forall k, x :: 0 <= k < |l.lin| && x in l.gone[k] ==> GoneOk(l, k, x))
    && (forall x, y :: x in l.lin[0] && y in l.lin[0] && x != y ==> Precedes(l, x, y) || Precedes(l, y, x))
    && (forall k, x :: 0 <= k < |l.lin| && x in l.lin[k] ==> NextOk(l, k, x))
  }

  ghost predicate Layers(l: List) {
    && |l.lin| == |l.gone|
    && (forall j, k, x :: 0 <= j <= k < |l.lin| && 0 <= x < |l.nodes| ==> DownOk(l, j, k, x))
    && (forall x :: 0 <= x < |l.nodes| ==> FullOk(l, x))
  }

  ghost predicate ListInv(cfg: Config, l: List) {
    Shape(cfg, l) && Order(l) && Layers(l)
  }

  lemma EverIsNode(l: List, k: nat, x: nat)
    requires Order(l) && Ever(l, k, x)
    ensures IsNode(l, x) && k < l.nodes[x].height
  {
    assert x in l.lin[k] ==> LinOk(l, k, x);
    assert x in l.gone[k] ==> GoneOk(l, k, x);
  }

  // ---------- one accessor ----------

  /** x was linked at layer k some time since the search began. */
  predicate Reg(l: List, win: seq<set<nat>>, k: nat, x: nat) {
    k < |win| && Ever(l, k, x) && x !in win[k]
  }

  predicate IsItem(l: List, x: nat) {
    IsNode(l, x) && !l.nodes[x].isHead
  }

  /** win holds nodes that had left a layer at some moment: links from other nodes do not lead there. */
  ghost predicate WinOk(l: List, win: seq<set<nat>>) {
    && |win| == |l.gone| == |l.lin|
    && (forall k :: 0 <= k < |win| ==> win[k] <= l.gone[k])
    && (forall k, x :: 0 <= k < |win| && Reg(l, win, k, x) ==> Skip(l, k, x) == NIL || Skip(l, k, x) !in win[k])
    && (forall j, k, x :: 0 <= j <= k < |win| && x in win[j] && k < Height(l, x) ==> x in win[k])
  }

  predicate Searched(pc: Pc) {
    || pc.AMarked? || pc.AWait? || pc.APick? || pc.RFull? || pc.RMarked? || pc.RLock? || pc.RMark?
    || pc.Lk? || pc.LkCheck? || pc.LkSucc? || pc.ACreate? || pc.ALink? || pc.RUnlink?
  }

  predicate Finding(pc: Pc) {
    pc.FDown? || pc.FRight? || pc.FMarked?
  }

  predicate UsesWin(pc: Pc) {
    || pc.SHead? || pc.SNode? || Searched(pc) || Finding(pc)
    || pc.AFull? || pc.ACount? || pc.RCount? || pc.Unlock? || pc.AHeight?
    || Growing(pc) || pc.Recycle? || pc.RUnlock?
  }

  /** What the search recorded at layer j. */
  predicate Entry(l: List, th: Thread, j: nat) {
    && j < |th.preds| == |th.succs|
    && Reg(l, th.win, j, th.preds[j]) && Before(l, th.preds[j], th.key)
    && (th.succs[j] == NIL ||
          (Reg(l, th.win, j, th.succs[j]) && IsItem(l, th.succs[j]) && th.key <= l.nodes[th.succs[j]].key))
    && (th.foundLayer < 0 && th.succs[j] != NIL ==> th.key < l.nodes[th.succs[j]].key)
  }

  /** Layers lo and up have been searched; predecessors move left going up. */
  ghost predicate Entries(l: List, th: Thread, lo: nat) {
    && th.max < |th.preds| == |th.succs| == |l.lin|
    && (forall j :: lo <= j <= th.max ==> Entry(l, th, j))
    && (forall i, j :: lo <= i < j <= th.max ==>
          th.preds[j] == th.preds[i] || Precedes(l, th.preds[j], th.preds[i]))
    && (th.foundLayer < 0 ||
          (lo <= th.foundLayer <= th.max && Reg(l, th.win, th.foundLayer, th.foundNode) &&
           IsItem(l, th.foundNode) && l.nodes[th.foundNode].key == th.key))
  }

  ghost predicate SearchInv(cfg: Config, l: List, th: Thread) {
    && |th.preds| == |th.succs| == cfg.maxHeight
    && (UsesWin(th.pc) ==> WinOk(l, th.win))
    && (th.pc.SHead? || th.pc.SNode? || Searched(th.pc) ==>
          th.max < cfg.maxHeight && th.max < Height(l, l.head) && !th.op.Find?)
    && (th.pc.SHead? ==> th.foundLayer == -1)
    && (th.pc.SNode? ==> th.foundLayer >= -1)
    && (th.pc.SNode? ==>
          && th.layer <= th.max && Entries(l, th, th.layer + 1)
          && Reg(l, th.win, th.layer, th.pred) && Before(l, th.pred, th.key)
          && (forall j :: th.layer < j <= th.max ==> th.preds[j] == th.pred || Precedes(l, th.preds[j], th.pred)))
    && (Searched(th.pc) ==> Entries(l, th, 0))
    && (th.pc.AMarked? || th.pc.AWait? || th.pc.RFull? || th.pc.RMarked? || th.pc.RLock? ==>
          th.foundLayer >= 0)
    && (th.op.Add? && (th.pc.APick? || Locking(th.pc) || th.pc.ACreate? || th.pc.ALink?) ==> th.foundLayer < 0)
  }

  predicate Locking(pc: Pc) {
    pc.Lk? || pc.LkCheck? || pc.LkSucc?
  }

  /** The predecessor at layer j is locked by u and was checked. */
  predicate Validated(l: List, u: Tid, th: Thread, j: nat) {
    && j < |th.preds| == |th.succs|
    && LockedBy(l, th.preds[j], u) && !Marked(l, th.preds[j]) && Skip(l, j, th.preds[j]) == th.succs[j]
  }

  /** The layers whose predecessors are locked, checked and not yet changed. */
  function CheckedFrom(th: Thread): nat {
    if th.pc.ALink? then th.layer else 0
  }

  function CheckedTo(th: Thread): nat {
    if th.pc.Lk? || th.pc.LkCheck? then th.layer
    else if th.pc.LkSucc? || th.pc.RUnlink? then th.layer + 1
    else if th.pc.ACreate? || th.pc.ALink? then th.height
    else 0
  }

  predicate HoldsGuards(pc: Pc) {
    || Locking(pc) || pc.ACreate? || pc.ALink? || pc.AFull? || pc.ACount?
    || pc.RUnlink? || pc.RCount? || pc.Unlock?
  }

  ghost predicate GuardsOk(u: Tid, l: List, th: Thread) {
    && (forall i :: 0 <= i < |th.guards| ==>
          LockedBy(l, th.guards[i], u) && Reg(l, th.win, 0, th.guards[i]) && Before(l, th.guards[i], th.key))
    && (forall i, j :: 0 <= i < j < |th.guards| ==> Precedes(l, th.guards[j], th.guards[i]))
  }

  predicate LockPosition(u: Tid, l: List, th: Thread) {
    && (Locking(th.pc) ==> th.layer < th.height <= th.max + 1 && th.height <= |th.preds|)
    && (th.pc.Lk? && th.layer > 0 ==> |th.guards| > 0 && th.guards[|th.guards| - 1] == th.preds[th.layer - 1])
    && (th.pc.Lk? && th.layer == 0 ==> th.guards == [])
    && (th.pc.LkCheck? || th.pc.LkSucc? ==>
          |th.guards| > 0 && th.guards[|th.guards| - 1] == th.preds[th.layer] && LockedBy(l, th.preds[th.layer], u))
    && (th.pc.LkSucc? ==> th.layer < |th.succs| && th.succs[th.layer] != NIL)
    && (th.pc.ACreate? || th.pc.ALink? || th.pc.RUnlink? ==> th.height <= th.max + 1)
    && (th.pc.RUnlink? || th.pc.ALink? ==> th.layer < th.height)
    && (th.pc.ACreate? ==> th.layer == 0)
  }

  ghost predicate GuardInv(u: Tid, l: List, th: Thread) {
    && GuardsOk(u, l, th)
    && LockPosition(u, l, th)
    && (forall j :: CheckedFrom(th) <= j < CheckedTo(th) ==> Validated(l, u, th, j))
  }

  predicate HoldsTarget(th: Thread) {
    th.isMarked || th.pc.RMark? || th.pc.RUnlock?
  }

  predicate HoldsOldHead(pc: Pc) {
    pc.GCopy? || pc.GCas? || pc.GDestroy? || pc.GUnlock?
  }

  ghost predicate OwnerInv(u: Tid, l: List, th: Thread) {
    && (HoldsTarget(th) ==>
          LockedBy(l, th.target, u) && IsItem(l, th.target) && (UsesWin(th.pc) ==> Reg(l, th.win, 0, th.target)))
    && (HoldsOldHead(th.pc) ==> LockedBy(l, th.oldHead, u))
    && (th.pc.GLock? || HoldsOldHead(th.pc) ==> Reg(l, th.win, 0, th.oldHead))
    && (forall x :: 0 <= x < |l.nodes| && LockedBy(l, x, u) ==>
          || x in th.guards || (HoldsTarget(th) && x == th.target) || (HoldsOldHead(th.pc) && x == th.oldHead))
  }

  predicate Adding(pc: Pc) {
    pc.ALink? || pc.AFull? || pc.ACount?
  }

  /** How many layers the new node has been linked on. */
  function LinkedTo(th: Thread): nat {
    if th.pc.ALink? then th.layer else th.height
  }

  /** The node being added: linked below, untouched above. Nodes this thread made
      earlier are published. */
  ghost predicate AddInv(u: Tid, l: List, th: Thread) {
    && (Adding(th.pc) || th.pc.ACreate? ==> 1 <= th.height)
    && (th.pc.ALink? ==> th.layer < th.height)
    && (Adding(th.pc) ==>
          && |th.win| > 0 && th.target !in th.win[0]
          && IsItem(l, th.target) && MadeBy(l, th.target, u) && l.nodes[th.target].key == th.key
          && l.nodes[th.target].height == th.height
          && (!th.pc.ACount? ==> !l.nodes[th.target].marked && !l.nodes[th.target].full)
          && (forall k :: 0 <= k < th.height ==> (Ever(l, k, th.target) <==> k < LinkedTo(th))))
  }

  predicate Retrying(th: Thread) {
    th.isMarked && !th.pc.RUnlink? && !th.pc.RCount? && !(th.pc.Unlock? && th.done) && !th.pc.Recycle?
      && !th.pc.RUnlock?
  }

  /** The node being removed: still linked on every layer below th.layer. */
  ghost predicate RemoveInv(l: List, th: Thread) {
    && (th.isMarked || th.pc.RMark? ==>
          && IsItem(l, th.target) && Full(l, th.target)
          && l.nodes[th.target].key == th.key && l.nodes[th.target].height == th.height)
    && (th.isMarked ==> Marked(l, th.target))
    && (Retrying(th) ==> forall k :: 0 <= k < th.height ==> Ever(l, k, th.target) && !Gone(l, k, th.target))
    && (th.isMarked && (th.pc.SHead? || th.pc.SNode?) ==> 1 <= th.height <= th.max + 1)
    && (th.pc.RUnlink? ==>
          && th.layer < th.height
          && (forall k :: 0 <= k < th.height ==> Ever(l, k, th.target) && (Gone(l, k, th.target) <==> k > th.layer)))
    && (th.pc.RMark? ==> th.height <= th.max + 1)
    && (th.pc.RMarked? || th.pc.RLock? ==>
          Full(l, th.foundNode) && Height(l, th.foundNode) == th.foundLayer + 1)
    && (th.isMarked && !Retrying(th) && !th.pc.RUnlink? ==> forall k :: 0 <= k < th.height ==> Gone(l, k, th.target))
  }

  predicate Growing(pc: Pc) {
    pc.GHead? || pc.GLock? || HoldsOldHead(pc)
  }

  ghost predicate GrowInv(cfg: Config, u: Tid, l: List, th: Thread) {
    && (Growing(th.pc) ==> 1 <= th.height <= cfg.maxHeight)
    && (th.pc.GLock? || th.pc.GCopy? || th.pc.GCas? ==>
          IsNode(l, th.oldHead) && l.nodes[th.oldHead].isHead && l.nodes[th.oldHead].height < th.height)
    && (th.pc.GCas? || th.pc.GDestroy? ==>
          && IsNode(l, th.newHead) && l.nodes[th.newHead].isHead && MadeBy(l, th.newHead, u)
          && l.nodes[th.newHead].height == th.height && l.nodes[th.newHead].lock == None
          && (forall k :: 0 <= k < |l.lin| ==> !Ever(l, k, th.newHead)))
    && (th.pc.GCas? ==>
          && l.nodes[th.newHead].marked == l.nodes[th.oldHead].marked && !l.nodes[th.newHead].full
          && (forall k :: 0 <= k < |l.lin| ==> Skip(l, k, th.newHead) == Skip(l, k, th.oldHead)))
    && ((th.pc.Recycle? && th.op.Add?) || (th.pc.GUnlock? && th.newHead != NIL) ==> Gone(l, 0, th.oldHead))
  }

  ghost predicate FindInv(l: List, th: Thread) {
    && (th.pc.FDown? ==>
          th.layer > 0 && Reg(l, th.win, th.layer - 1, th.pred) && Before(l, th.pred, th.key))
    && (th.pc.FRight? ==> Reg(l, th.win, th.layer, th.pred) && Before(l, th.pred, th.key))
    && (th.pc.FMarked? ==>
          Reg(l, th.win, 0, th.foundNode) && IsItem(l, th.foundNode) && l.nodes[th.foundNode].key == th.key)
  }

  predicate Searching(pc: Pc) {
    pc.SMax? || pc.SHead? || pc.SNode?
  }

  predicate OnlyAdds(pc: Pc) {
    pc.AMarked? || pc.AWait? || pc.APick? || pc.ACreate? || Adding(pc) || pc.AHeight? || Growing(pc)
  }

  predicate OnlyRemoves(pc: Pc) {
    || pc.RFull? || pc.RMarked? || pc.RLock? || pc.RMark? || pc.RUnlink? || pc.RCount? || pc.RUnlock?
  }

  /** The registers that say where in the code the accessor is. */
  predicate FlowInv(th: Thread) {
    && (Searching(th.pc) || Searched(th.pc) || HoldsGuards(th.pc) || th.pc.Recycle? ==> !th.op.Find?)
    && (Searching(th.pc) || Searched(th.pc) || th.pc.AFull? || th.pc.ACount? || th.pc.RCount? ==> !th.done)
    && (th.pc.FHead? || Finding(th.pc) ==> th.op.Find?)
    && (OnlyAdds(th.pc) ==> th.op.Add?)
    && (OnlyRemoves(th.pc) ==> th.op.Remove?)
    && (th.isMarked ==>
          && th.op.Remove?
          && (Searching(th.pc) || Locking(th.pc) || th.pc.RUnlink? || th.pc.RCount? || th.pc.Unlock? ||
              th.pc.Recycle? || th.pc.RUnlock?))
    && (th.op.Remove? && (Locking(th.pc) || th.pc.RUnlink? || th.pc.RCount? || th.pc.Unlock? || th.pc.Recycle?) ==>
          th.isMarked)
    && (!HoldsGuards(th.pc) ==> th.guards == [])
  }

  ghost predicate ThreadInv(cfg: Config, u: Tid, l: List, th: Thread) {
    && SearchInv(cfg, l, th) && GuardInv(u, l, th) && OwnerInv(u, l, th)
    && AddInv(u, l, th) && RemoveInv(l, th) && GrowInv(cfg, u, l, th) && FindInv(l, th) && FlowInv(th)
  }

  ghost predicate Inv(cfg: Config, s: State) {
    && ListInv(cfg, s.l)
    && forall t :: 0 <= t < |s.threads| ==> ThreadInv(cfg, t, s.l, s.threads[t])
  }

  // ---------- what a step of thread t may do ----------

  predicate NodeEvolve(t: Tid, a: Node, b: Node) {
    && b.height == a.height && b.key == a.key && b.isHead == a.isHead && b.maker == a.maker && |b.skip| == |a.skip|
    && (a.marked ==> b.marked && b.marker == a.marker) && (a.full ==> b.full)
    && (b.marked && !a.marked ==> b.marker == t)
    && (b.marked && !a.marked ==> a.lock == Some(t) && (a.full || a.isHead))
    && (b.full && !a.full ==> a.maker == t)
    && (a.lock != b.lock ==> (a.lock == None || a.lock == Some(t)) && (b.lock == None || b.lock == Some(t)))
  }

  predicate LinkEvolve(t: Tid, a: List, b: List, k: nat, x: nat)
    requires k < |a.lin| == |a.gone| == |b.lin| == |b.gone|
  {
    && (Ever(a, k, x) ==> Ever(b, k, x))
    && (x in a.gone[k] ==> x in b.gone[k])
    && (x in b.gone[k] && x !in a.gone[k] ==>
          x in a.lin[k] && LockedBy(a, x, t) && (Marked(a, x) || x == a.head) && Skip(b, k, x) == Skip(a, k, x))
    && (Ever(b, k, x) && !Ever(a, k, x) ==> MadeBy(a, x, t))
    && (Skip(b, k, x) == Skip(a, k, x)
        || (LockedBy(a, x, t) && x in a.lin[k])
        || (MadeBy(b, x, t) && !Ever(a, k, x)))
    && (Ever(b, k, x) ==>
          || (Ever(a, k, x) && Skip(b, k, x) == Skip(a, k, x))
          || Skip(b, k, x) == NIL
          || Skip(b, k, x) !in a.gone[k])
  }

  ghost predicate Evolve(t: Tid, a: List, b: List) {
    && 0 < |a.nodes| <= |b.nodes| && |a.lin| == |a.gone| == |b.lin| == |b.gone| > 0
    && (forall x :: 0 <= x < |a.nodes| ==> NodeEvolve(t, a.nodes[x], b.nodes[x]))
    && (forall x :: |a.nodes| <= x < |b.nodes| ==> b.nodes[x].lock == None && b.nodes[x].maker == t)
    && (forall k, x :: 0 <= k < |a.lin| && 0 <= x ==> LinkEvolve(t, a, b, k, x))
    && (forall x :: 0 <= x < |a.nodes| && LockedBy(b, x, t) ==> LockedBy(a, x, t) || Ever(a, 0, x))
    && Height(a, a.head) <= Height(b, b.head)
  }
}
