/** Steps that write the list keep the invariant of the accessor that makes them. */
module SkipListWriters {

  import opened Common
  import opened SkipListState
  import opened SkipListInvariant
  import opened SkipListStability
  import opened SkipListWrites
  import opened SkipListLinks
  import opened SkipListProof
  import opened SkipListSteps
  import opened SkipListReads

  lemma GuardsFrom(t: Tid, a: List, b: List, th: Thread)
    requires Evolve(t, a, b) && GuardsOk(t, a, th)
    requires forall i :: 0 <= i < |th.guards| ==> LockedBy(b, th.guards[i], t)
    ensures GuardsOk(t, b, th)
  {
    forall i | 0 <= i < |th.guards|
      ensures LockedBy(b, th.guards[i], t) && Reg(b, th.win, 0, th.guards[i]) && Before(b, th.guards[i], th.key)
    {
      RegStable(t, a, b, th.win, 0, th.guards[i]);
      assert NodeEvolve(t, a.nodes[th.guards[i]], b.nodes[th.guards[i]]);
    }
    forall i, j | 0 <= i < j < |th.guards| ensures Precedes(b, th.guards[j], th.guards[i]) {
      PrecedesStable(t, a, b, th.guards[j], th.guards[i]);
    }
  }

  /** Locks, links, marks and layers that this thread relies on are as before. */
  ghost predicate Untouched(a: List, b: List) {
    && b.lin == a.lin && b.gone == a.gone && |a.nodes| <= |b.nodes|
    && (forall x :: 0 <= x < |a.nodes| ==> b.nodes[x] == a.nodes[x].(full := b.nodes[x].full))
    && (forall x :: |a.nodes| <= x < |b.nodes| ==> b.nodes[x].lock == None)
  }

  lemma UntouchedOwner(t: Tid, a: List, b: List, th: Thread)
    requires Untouched(a, b) && OwnerInv(t, a, th)
    ensures OwnerInv(t, b, th)
  {
    forall x: nat ensures LockedBy(b, x, t) <==> LockedBy(a, x, t) {
    }
  }

  lemma UntouchedGuard(t: Tid, a: List, b: List, th: Thread)
    requires Untouched(a, b) && Evolve(t, a, b) && GuardInv(t, a, th)
    ensures GuardInv(t, b, th)
  {
    GuardsFrom(t, a, b, th);
    forall j | CheckedFrom(th) <= j < CheckedTo(th) ensures Validated(b, t, th, j) {
      assert Validated(a, t, th, j);
    }
  }

  lemma MoveGuard(t: Tid, l: List, th: Thread, th': Thread)
    requires GuardInv(t, l, th)
    requires th'.guards == th.guards && th'.key == th.key && th'.win == th.win
    requires !Searched(th'.pc) || (th.pc.ACreate? && th'.pc.ALink?)
    requires th'.pc.ALink? ==>
               && th'.layer == 0 < th'.height == th.height
               && th'.preds == th.preds && th'.succs == th.succs && th'.max == th.max
    ensures GuardInv(t, l, th')
  {
    forall j | CheckedFrom(th') <= j < CheckedTo(th') ensures Validated(l, t, th', j) {
      assert Validated(l, t, th, j);
    }
  }

  lemma QuietStable(cfg: Config, t: Tid, a: List, b: List, th: Thread, th': Thread)
    requires Order(a) && Evolve(t, a, b) && SearchInv(cfg, a, th) && th'.preds == th.preds && th'.succs == th.succs
    requires th'.win == th.win && (UsesWin(th'.pc) ==> UsesWin(th.pc))
    requires !th'.pc.SHead? && !th'.pc.SNode? && !Searched(th'.pc)
    ensures SearchInv(cfg, b, th')
  {
    SearchStable(cfg, t, a, b, th);
    QuietFrom(cfg, b, th, th');
  }

  // ---------- locking ----------

  lemma LockedNow(t: Tid, l: List, x: nat, o: Option<Tid>, y: nat)
    requires x < |l.nodes|
    ensures LockedBy(SetLock(l, x, o), y, t) <==> (if y == x then o == Some(t) else LockedBy(l, y, t))
  {
  }

  lemma RLockOwner(cfg: Config, t: Tid, l: List, th: Thread, l': List, th': Thread)
    requires ListInv(cfg, l) && SearchInv(cfg, l, th) && OwnerInv(t, l, th) && FlowInv(th) && th.pc.RLock?
    requires th.foundNode < |l.nodes| && l' == SetLock(l, th.foundNode, Some(t))
    requires th' == th.(pc := RMark, target := th.foundNode, height := th'.height)
    ensures OwnerInv(t, l', th')
  {
    RegDown(cfg, l, th.win, 0, th.foundLayer, th.foundNode);
    forall x: nat ensures LockedBy(l', x, t) <==> x == th.foundNode {
      LockedNow(t, l, th.foundNode, Some(t), x);
      assert x < |l.nodes| && LockedBy(l, x, t) ==> x in th.guards;
    }
  }

  lemma RLockRemove(cfg: Config, t: Tid, l: List, th: Thread, l': List, th': Thread)
    requires ListInv(cfg, l) && SearchInv(cfg, l, th) && RemoveInv(l, th) && FlowInv(th) && th.pc.RLock?
    requires th.foundNode < |l.nodes| && l' == SetLock(l, th.foundNode, Some(t))
    requires th' == th.(pc := RMark, target := th.foundNode, height := Height(l, th.foundNode))
    ensures RemoveInv(l', th')
  {
  }

  lemma RLockSearch(cfg: Config, t: Tid, l: List, th: Thread, l': List, th': Thread)
    requires ListInv(cfg, l) && SearchInv(cfg, l, th) && Evolve(t, l, l') && th.pc.RLock?
    requires th' == th.(pc := RMark, target := th.foundNode, height := th'.height)
    ensures SearchInv(cfg, l', th')
  {
    SearchStable(cfg, t, l, l', th);
    MovedSearch(cfg, l', th, th');
  }

  lemma RLockStep(cfg: Config, t: Tid, l: List, th: Thread, l': List, th': Thread)
    requires ListInv(cfg, l) && ThreadInv(cfg, t, l, th) && Evolve(t, l, l') && th.pc.RLock?
    requires th.foundNode < |l.nodes| && l' == SetLock(l, th.foundNode, Some(t))
    requires th' == th.(pc := RMark, target := th.foundNode, height := Height(l, th.foundNode))
    ensures ThreadInv(cfg, t, l', th')
  {
    hide SearchInv, GuardInv, OwnerInv, AddInv, RemoveInv, GrowInv, FindInv;
    RLockSearch(cfg, t, l, th, l', th');
    NoGuards(t, l', th');
    RLockOwner(cfg, t, l, th, l', th');
    RLockRemove(cfg, t, l, th, l', th');
    Idles(cfg, t, l', th');
  }

  /** The next predecessor is before all those locked already. */
  lemma NextGuard(t: Tid, l: List, th: Thread, i: nat)
    requires Entries(l, th, 0) && GuardsOk(t, l, th) && LockPosition(t, l, th) && th.pc.Lk? && th.layer <= th.max
    requires th.layer > 0 && th.preds[th.layer] != th.preds[th.layer - 1] && i < |th.guards|
    ensures Precedes(l, th.preds[th.layer], th.guards[i])
  {
    var p := th.preds[th.layer];
    var last := th.guards[|th.guards| - 1];
    assert Precedes(l, p, last);
    if i < |th.guards| - 1 {
      PrecedesTransitive(l, p, last, th.guards[i]);
    }
  }

  lemma PushGuard(t: Tid, l: List, th: Thread, p: nat, th': Thread)
    requires GuardsOk(t, l, th) && th' == th.(pc := LkCheck, guards := th.guards + [p])
    requires LockedBy(l, p, t) && Reg(l, th.win, 0, p) && Before(l, p, th.key)
    requires forall i :: 0 <= i < |th.guards| ==> Precedes(l, p, th.guards[i])
    ensures GuardsOk(t, l, th')
  {
  }

  lemma NextPred(cfg: Config, l: List, th: Thread)
    requires ListInv(cfg, l) && SearchInv(cfg, l, th) && th.pc.Lk? && th.layer <= th.max
    ensures Entries(l, th, 0) && Reg(l, th.win, 0, th.preds[th.layer]) && Before(l, th.preds[th.layer], th.key)
  {
    assert Entry(l, th, th.layer);
    RegDown(cfg, l, th.win, 0, th.layer, th.preds[th.layer]);
  }

  lemma LkGuards(cfg: Config, t: Tid, l: List, th: Thread, l': List, th': Thread)
    requires ListInv(cfg, l) && SearchInv(cfg, l, th) && GuardInv(t, l, th) && th.pc.Lk? && Evolve(t, l, l')
    requires th.layer < |th.preds| && var p := th.preds[th.layer];
             && p < |l.nodes| && !(th.layer > 0 && p == th.preds[th.layer - 1])
             && l' == SetLock(l, p, Some(t)) && th' == th.(pc := LkCheck, guards := th.guards + [p])
    ensures GuardsOk(t, l', th')
  {
    hide ListInv, SearchInv, Evolve, GuardsOk, Entries;
    var p := th.preds[th.layer];
    NextPred(cfg, l, th);
    RegStable(t, l, l', th.win, 0, p);
    forall i | 0 <= i < |th.guards| ensures Precedes(l', p, th.guards[i]) {
      NextGuard(t, l, th, i);
      PrecedesStable(t, l, l', p, th.guards[i]);
    }
    LockedGuards(t, l, th, p, l');
    PushGuard(t, l', th, p, th');
  }

  lemma LockedGuards(t: Tid, l: List, th: Thread, p: nat, l': List)
    requires GuardsOk(t, l, th) && Evolve(t, l, l') && p < |l.nodes| && l' == SetLock(l, p, Some(t))
    ensures GuardsOk(t, l', th)
  {
    GuardsFrom(t, l, l', th);
  }

  lemma LkGuardInv(cfg: Config, t: Tid, l: List, th: Thread, l': List, th': Thread)
    requires ListInv(cfg, l) && SearchInv(cfg, l, th) && GuardInv(t, l, th) && th.pc.Lk? && Evolve(t, l, l')
    requires th.layer < |th.preds| && var p := th.preds[th.layer];
             && p < |l.nodes| && !(th.layer > 0 && p == th.preds[th.layer - 1])
             && l' == SetLock(l, p, Some(t)) && th' == th.(pc := LkCheck, guards := th.guards + [p])
    ensures GuardInv(t, l', th')
  {
    LkGuards(cfg, t, l, th, l', th');
    forall j | CheckedFrom(th') <= j < CheckedTo(th') ensures Validated(l', t, th', j) {
      assert Validated(l, t, th, j);
    }
  }

  lemma LkOwner(t: Tid, l: List, th: Thread, p: nat, l': List, th': Thread)
    requires OwnerInv(t, l, th) && th.pc.Lk? && p < |l.nodes|
    requires l' == SetLock(l, p, Some(t)) && th' == th.(pc := LkCheck, guards := th.guards + [p])
    ensures OwnerInv(t, l', th')
  {
    forall x: nat ensures LockedBy(l', x, t) <==> x == p || LockedBy(l, x, t) {
      LockedNow(t, l, p, Some(t), x);
    }
    assert p in th'.guards && forall x :: x in th.guards ==> x in th'.guards;
  }

  /** A target that keeps its mark and layers. */
  lemma RemoveFrom(a: List, b: List, th: Thread)
    requires RemoveInv(a, th) && b.lin == a.lin && b.gone == a.gone && |a.nodes| <= |b.nodes|
    requires forall x :: 0 <= x < |a.nodes| ==>
               b.nodes[x] == a.nodes[x].(lock := b.nodes[x].lock, full := b.nodes[x].full)
                 && (a.nodes[x].full ==> b.nodes[x].full)
    ensures RemoveInv(b, th)
  {
    forall k: nat, x: nat ensures (Ever(b, k, x) <==> Ever(a, k, x)) && (Gone(b, k, x) <==> Gone(a, k, x)) {
    }
  }

  lemma LkRemove(l: List, th: Thread, th': Thread)
    requires RemoveInv(l, th) && FlowInv(th) && th.pc.Lk? && th' == th.(pc := LkCheck, guards := th'.guards)
    ensures RemoveInv(l, th')
  {
    if th.isMarked {
      KeepRemove(l, th, th');
    } else {
      NoRemove(l, th');
    }
  }

  lemma LkStep(cfg: Config, t: Tid, l: List, th: Thread, l': List, th': Thread)
    requires ListInv(cfg, l) && ThreadInv(cfg, t, l, th) && Evolve(t, l, l') && th.pc.Lk?
    requires th.layer < |th.preds| && var p := th.preds[th.layer];
             && p < |l.nodes| && !(th.layer > 0 && p == th.preds[th.layer - 1])
             && l' == SetLock(l, p, Some(t)) && th' == th.(pc := LkCheck, guards := th.guards + [p])
    ensures ThreadInv(cfg, t, l', th')
  {
    hide SearchInv, GuardInv, OwnerInv, AddInv, RemoveInv, GrowInv, FindInv;
    SearchStable(cfg, t, l, l', th);
    MovedSearch(cfg, l', th, th');
    LkGuardInv(cfg, t, l, th, l', th');
    LkOwner(t, l, th, th.preds[th.layer], l', th');
    RemoveFrom(l, l', th);
    LkRemove(l', th, th');
    Idles(cfg, t, l', th');
  }

  lemma GLockStep(cfg: Config, t: Tid, l: List, th: Thread, l': List, th': Thread)
    requires ListInv(cfg, l) && ThreadInv(cfg, t, l, th) && Evolve(t, l, l') && th.pc.GLock?
    requires th.oldHead < |l.nodes| && l' == SetLock(l, th.oldHead, Some(t)) && th' == Go(th, GCopy)
    ensures ThreadInv(cfg, t, l', th')
  {
    hide SearchInv, GuardInv, OwnerInv, AddInv, RemoveInv, GrowInv, FindInv;
    QuietStable(cfg, t, l, l', th, th');
    NoGuards(t, l', th');
    GLockOwner(cfg, t, l, th, l', th');
    NoRemove(l', th');
    Idles(cfg, t, l', th');
  }

  lemma GLockOwner(cfg: Config, t: Tid, l: List, th: Thread, l': List, th': Thread)
    requires OwnerInv(t, l, th) && GrowInv(cfg, t, l, th) && FlowInv(th) && th.pc.GLock?
    requires th.oldHead < |l.nodes| && l' == SetLock(l, th.oldHead, Some(t)) && th' == Go(th, GCopy)
    ensures OwnerInv(t, l', th') && GrowInv(cfg, t, l', th')
  {
    forall x: nat ensures LockedBy(l', x, t) <==> x == th.oldHead || LockedBy(l, x, t) {
      LockedNow(t, l, th.oldHead, Some(t), x);
    }
  }

  // ---------- unlocking ----------

  lemma UnlockGuard(t: Tid, l: List, th: Thread, l': List, th': Thread)
    requires GuardInv(t, l, th) && th.pc.Unlock? && th.guards != [] && Evolve(t, l, l')
    requires var x := th.guards[|th.guards| - 1]; x < |l.nodes| && l' == SetLock(l, x, None)
    requires th' == th.(guards := th.guards[..|th.guards| - 1])
    ensures GuardInv(t, l', th')
  {
    assert GuardsOk(t, l, th');
    GuardsFrom(t, l, l', th');
  }

  lemma UnlockOwner(t: Tid, l: List, th: Thread, l': List, th': Thread)
    requires OwnerInv(t, l, th) && GuardInv(t, l, th) && RemoveInv(l, th) && th.pc.Unlock? && th.guards != []
    requires var x := th.guards[|th.guards| - 1]; x < |l.nodes| && l' == SetLock(l, x, None)
    requires th' == th.(guards := th.guards[..|th.guards| - 1])
    ensures OwnerInv(t, l', th')
  {
    var g := th.guards[|th.guards| - 1];
    assert th.guards == th'.guards + [g];
    assert Before(l, g, th.key);
    forall x: nat ensures LockedBy(l', x, t) <==> x != g && LockedBy(l, x, t) {
      LockedNow(t, l, g, None, x);
    }
  }

  lemma UnlockStep(cfg: Config, t: Tid, l: List, th: Thread, l': List, th': Thread)
    requires ListInv(cfg, l) && ThreadInv(cfg, t, l, th) && Evolve(t, l, l') && th.pc.Unlock? && th.guards != []
    requires var x := th.guards[|th.guards| - 1]; x < |l.nodes| && l' == SetLock(l, x, None)
    requires th' == th.(guards := th.guards[..|th.guards| - 1])
    ensures ThreadInv(cfg, t, l', th')
  {
    hide SearchInv, GuardInv, OwnerInv, AddInv, RemoveInv, GrowInv, FindInv;
    QuietStable(cfg, t, l, l', th, th');
    UnlockGuard(t, l, th, l', th');
    UnlockOwner(t, l, th, l', th');
    RemoveFrom(l, l', th);
    UnlockRemove(l', th, th');
    Idles(cfg, t, l', th');
  }

  lemma UnlockRemove(l: List, th: Thread, th': Thread)
    requires RemoveInv(l, th) && th.pc.Unlock? && th' == th.(guards := th'.guards)
    ensures RemoveInv(l, th')
  {
  }

  lemma RUnlockOwner(t: Tid, l: List, th: Thread, l': List, th': Thread)
    requires OwnerInv(t, l, th) && FlowInv(th) && th.pc.RUnlock?
    requires th.target < |l.nodes| && l' == SetLock(l, th.target, None) && th' == th.(pc := Returned, isMarked := false)
    ensures OwnerInv(t, l', th')
  {
    forall x: nat ensures LockedBy(l', x, t) <==> x != th.target && LockedBy(l, x, t) {
      LockedNow(t, l, th.target, None, x);
    }
  }

  lemma RUnlockStep(cfg: Config, t: Tid, l: List, th: Thread, l': List, th': Thread)
    requires ListInv(cfg, l) && ThreadInv(cfg, t, l, th) && Evolve(t, l, l') && th.pc.RUnlock?
    requires th.target < |l.nodes| && l' == SetLock(l, th.target, None) && th' == th.(pc := Returned, isMarked := false)
    ensures ThreadInv(cfg, t, l', th')
  {
    hide SearchInv, GuardInv, OwnerInv, AddInv, RemoveInv, GrowInv, FindInv;
    QuietStable(cfg, t, l, l', th, th');
    NoGuards(t, l', th');
    RUnlockOwner(t, l, th, l', th');
    NoRemove(l', th');
    Idles(cfg, t, l', th');
  }

  lemma GUnlockOwner(cfg: Config, t: Tid, l: List, th: Thread, l': List, th': Thread)
    requires OwnerInv(t, l, th) && GrowInv(cfg, t, l, th) && FlowInv(th) && th.pc.GUnlock?
    requires th.oldHead < |l.nodes| && l' == SetLock(l, th.oldHead, None)
    requires th' == if th.newHead != NIL then Go(th, Recycle) else Return(th, Added(th.target))
    ensures OwnerInv(t, l', th') && GrowInv(cfg, t, l', th')
  {
    forall x: nat ensures LockedBy(l', x, t) <==> x != th.oldHead && LockedBy(l, x, t) {
      LockedNow(t, l, th.oldHead, None, x);
    }
  }

  lemma GUnlockStep(cfg: Config, t: Tid, l: List, th: Thread, l': List, th': Thread)
    requires ListInv(cfg, l) && ThreadInv(cfg, t, l, th) && Evolve(t, l, l') && th.pc.GUnlock?
    requires th.oldHead < |l.nodes| && l' == SetLock(l, th.oldHead, None)
    requires th' == if th.newHead != NIL then Go(th, Recycle) else Return(th, Added(th.target))
    ensures ThreadInv(cfg, t, l', th')
  {
    hide SearchInv, GuardInv, OwnerInv, AddInv, RemoveInv, GrowInv, FindInv;
    QuietStable(cfg, t, l, l', th, th');
    NoGuards(t, l', th');
    GUnlockOwner(cfg, t, l, th, l', th');
    NoRemove(l', th');
    Idles(cfg, t, l', th');
  }

  // ---------- add ----------

  lemma CreateAdd(cfg: Config, t: Tid, l: List, th: Thread, l': List, th': Thread)
    requires ListInv(cfg, l) && SearchInv(cfg, l, th) && AddInv(t, l, th) && th.pc.ACreate? && th.height <= |l.lin|
    requires l' == l.(nodes := l.nodes + [NewNode(th.height, th.key, t)]) && th'.layer == 0
    requires th' == th.(pc := ALink, target := |l.nodes|, layer := th'.layer)
    requires forall k :: 0 <= k < |l.lin| ==> !Ever(l', k, |l.nodes|)
    ensures AddInv(t, l', th')
  {
    assert !Ever(l', 0, |l.nodes|) && th.win[0] <= l.gone[0];
  }

  lemma CreateStep(cfg: Config, t: Tid, l: List, th: Thread, l': List, th': Thread)
    requires ListInv(cfg, l) && ThreadInv(cfg, t, l, th) && Evolve(t, l, l') && th.pc.ACreate? && th.layer == 0
    requires th.height <= cfg.maxHeight
    requires l' == l.(nodes := l.nodes + [NewNode(th.height, th.key, t)])
             && th' == th.(pc := ALink, target := |l.nodes|)
    ensures ThreadInv(cfg, t, l', th')
  {
    hide SearchInv, GuardInv, OwnerInv, RemoveInv, GrowInv, FindInv;
    SearchStable(cfg, t, l, l', th);
    MovedSearch(cfg, l', th, th');
    UntouchedGuard(t, l, l', th);
    MoveGuard(t, l', th, th');
    UntouchedOwner(t, l, l', th);
    SameOwner(t, l', th, th'.(target := th.target));
    NewTarget(t, l', th'.(target := th.target), th');
    AllocKeeps(cfg, t, l, NewNode(th.height, th.key, t));
    CreateAdd(cfg, t, l, th, l', th');
    NoRemove(l', th');
    Idles(cfg, t, l', th');
  }

  lemma NewTarget(t: Tid, l: List, th: Thread, th': Thread)
    requires OwnerInv(t, l, th) && !HoldsTarget(th) && th' == th.(target := th'.target)
    ensures OwnerInv(t, l, th')
  {
  }

  /** Only links of layer k change; locks and marks do not. */
  ghost predicate OnlyLayer(a: List, b: List, k: nat) {
    && |b.nodes| == |a.nodes|
    && (forall x :: 0 <= x < |a.nodes| ==> b.nodes[x] == a.nodes[x].(skip := b.nodes[x].skip))
    && (forall j: nat, x: nat :: j != k ==> Skip(b, j, x) == Skip(a, j, x))
  }

  lemma LinkOnly(l: List, t: Tid, k: nat, p: nat, x: nat)
    requires Order(l) && CanLink(l, t, k, p, x)
    ensures OnlyLayer(l, LinkedList(l, k, p, x), k)
  {
    LinkFacts(l, t, k, p, x);
  }

  lemma UnlinkOnly(l: List, t: Tid, k: nat, p: nat, x: nat)
    requires Order(l) && CanUnlink(l, t, k, p, x)
    ensures OnlyLayer(l, UnlinkNode(l, k, p, x), k)
  {
    UnlinkFacts(l, t, k, p, x);
  }

  lemma LayerGuard(t: Tid, a: List, b: List, th: Thread, th': Thread)
    requires GuardInv(t, a, th) && Evolve(t, a, b) && OnlyLayer(a, b, th.layer)
    requires th' == th.(pc := th'.pc, layer := th'.layer)
    requires (th.pc.ALink? && (th'.pc.AFull? || (th'.pc.ALink? && th'.layer == th.layer + 1 < th.height)))
          || (th.pc.RUnlink? && (th'.pc.RCount? || (th'.pc.RUnlink? && th'.layer + 1 == th.layer)))
    ensures GuardInv(t, b, th')
  {
    GuardsFrom(t, a, b, th);
    assert GuardsOk(t, b, th');
    forall j | CheckedFrom(th') <= j < CheckedTo(th') ensures Validated(b, t, th', j) {
      LayerValidated(t, a, b, th, th', j);
    }
  }

  lemma LayerValidated(t: Tid, a: List, b: List, th: Thread, th': Thread, j: nat)
    requires OnlyLayer(a, b, th.layer) && j != th.layer && Validated(a, t, th, j)
    requires th' == th.(pc := th'.pc, layer := th'.layer)
    ensures Validated(b, t, th', j)
  {
  }

  lemma LayerSearch(cfg: Config, t: Tid, a: List, b: List, th: Thread, th': Thread)
    requires Order(a) && SearchInv(cfg, a, th) && Evolve(t, a, b) && th' == th.(pc := th'.pc, layer := th'.layer)
    requires (th.pc.ALink? && (th'.pc.AFull? || th'.pc.ALink?))
             || (th.pc.RUnlink? && (th'.pc.RCount? || th'.pc.RUnlink?))
    ensures SearchInv(cfg, b, th')
  {
    SearchStable(cfg, t, a, b, th);
    MovedSearch(cfg, b, th, th');
  }

  lemma LayerOwner(t: Tid, a: List, b: List, th: Thread, th': Thread)
    requires OwnerInv(t, a, th) && Evolve(t, a, b) && OnlyLayer(a, b, th.layer)
    requires th' == th.(pc := th'.pc, layer := th'.layer)
    requires (th.pc.ALink? && (th'.pc.AFull? || th'.pc.ALink?))
             || (th.pc.RUnlink? && (th'.pc.RCount? || th'.pc.RUnlink?))
    ensures OwnerInv(t, b, th')
  {
    forall x: nat ensures LockedBy(b, x, t) <==> LockedBy(a, x, t) {
    }
    if HoldsTarget(th) {
      RegStable(t, a, b, th.win, 0, th.target);
    }
  }

  lemma LinkAdd(cfg: Config, t: Tid, l: List, th: Thread, l': List, th': Thread)
    requires ListInv(cfg, l) && AddInv(t, l, th) && th.pc.ALink? && th.height <= |l.lin|
    requires th.layer < |th.preds| && CanLink(l, t, th.layer, th.preds[th.layer], th.target)
    requires l' == LinkedList(l, th.layer, th.preds[th.layer], th.target)
    requires th' == if th.layer + 1 < th.height then th.(layer := th.layer + 1) else Go(th, AFull)
    ensures AddInv(t, l', th')
  {
    LinkFacts(l, t, th.layer, th.preds[th.layer], th.target);
    forall k | 0 <= k < th.height ensures Ever(l', k, th.target) <==> k < LinkedTo(th') {
      assert Ever(l, k, th.target) <==> k < th.layer;
    }
  }

  lemma LinkStep(cfg: Config, t: Tid, l: List, th: Thread, l': List, th': Thread)
    requires ListInv(cfg, l) && ThreadInv(cfg, t, l, th) && Evolve(t, l, l') && th.pc.ALink? && th.height <= |l.lin|
    requires th.layer < |th.preds| && CanLink(l, t, th.layer, th.preds[th.layer], th.target)
    requires l' == LinkedList(l, th.layer, th.preds[th.layer], th.target)
    requires th' == if th.layer + 1 < th.height then th.(layer := th.layer + 1) else Go(th, AFull)
    ensures ThreadInv(cfg, t, l', th')
  {
    hide SearchInv, GuardInv, OwnerInv, AddInv, RemoveInv, GrowInv, FindInv, CanLink, OnlyLayer, LinkedList, Evolve;
    LinkOnly(l, t, th.layer, th.preds[th.layer], th.target);
    LayerSearch(cfg, t, l, l', th, th');
    LayerGuard(t, l, l', th, th');
    LayerOwner(t, l, l', th, th');
    LinkAdd(cfg, t, l, th, l', th');
    NoRemove(l', th');
    Idles(cfg, t, l', th');
  }

  lemma CountedAdd(t: Tid, l: List, th: Thread, l': List, th': Thread)
    requires AddInv(t, l, th) && Untouched(l, l') && (th.pc.AFull? || th.pc.ACount?)
    requires (th.pc.AFull? && th' == Go(th, ACount)) || (th.pc.ACount? && th' == th.(pc := Unlock, done := true))
    requires th.pc.ACount? ==> l'.nodes == l.nodes
    ensures AddInv(t, l', th')
  {
    forall k: nat, x: nat ensures Ever(l', k, x) <==> Ever(l, k, x) {
    }
  }

  lemma CountedStep(cfg: Config, t: Tid, l: List, th: Thread, l': List, th': Thread)
    requires ListInv(cfg, l) && ThreadInv(cfg, t, l, th) && Evolve(t, l, l') && (th.pc.AFull? || th.pc.ACount?)
    requires Untouched(l, l') && (th.pc.ACount? ==> l'.nodes == l.nodes)
    requires (th.pc.AFull? && th' == Go(th, ACount)) || (th.pc.ACount? && th' == th.(pc := Unlock, done := true))
    ensures ThreadInv(cfg, t, l', th')
  {
    hide Evolve;
    hide SearchInv, GuardInv, OwnerInv, AddInv, RemoveInv, GrowInv, FindInv;
    QuietStable(cfg, t, l, l', th, th');
    UntouchedGuard(t, l, l', th);
    MoveGuard(t, l', th, th');
    UntouchedOwner(t, l, l', th);
    SameOwner(t, l', th, th');
    CountedAdd(t, l, th, l', th');
    NoRemove(l', th');
    Idles(cfg, t, l', th');
  }

  // ---------- remove ----------

  lemma AlreadyMarkedStep(cfg: Config, t: Tid, l: List, th: Thread, th': Thread)
    requires ThreadInv(cfg, t, l, th) && th.pc.RMark? && th' == th.(pc := RUnlock, res := NotRemoved)
    ensures ThreadInv(cfg, t, l, th')
  {
    hide SearchInv, GuardInv, OwnerInv, AddInv, RemoveInv, GrowInv, FindInv;
    QuietFrom(cfg, l, th, th');
    NoGuards(t, l, th');
    SameOwner(t, l, th, th');
    NoRemove(l, th');
    Idles(cfg, t, l, th');
  }

  lemma MarkOwner(t: Tid, l: List, th: Thread, l': List, th': Thread)
    requires OwnerInv(t, l, th) && FlowInv(th) && th.pc.RMark? && th.target < |l.nodes|
    requires l' == SetNode(l, th.target, l.nodes[th.target].(marked := true, marker := t))
    requires th' == StartLocking(th.(isMarked := true))
    ensures OwnerInv(t, l', th')
  {
    forall x: nat ensures LockedBy(l', x, t) <==> LockedBy(l, x, t) {
    }
    assert forall k: nat, x: nat :: Ever(l', k, x) <==> Ever(l, k, x);
  }

  /** An unmarked, fully linked node is linked on all its layers. */
  lemma FullIsLinked(cfg: Config, l: List, x: nat, k: nat)
    requires ListInv(cfg, l) && Full(l, x) && !Marked(l, x) && k < Height(l, x)
    ensures Ever(l, k, x) && !Gone(l, k, x)
  {
    assert FullOk(l, x);
    assert x in l.gone[k] ==> GoneOk(l, k, x);
  }

  lemma MarkRemove(cfg: Config, t: Tid, l: List, th: Thread, l': List, th': Thread)
    requires ListInv(cfg, l) && RemoveInv(l, th) && th.pc.RMark? && th.target < |l.nodes| && !Marked(l, th.target)
    requires l' == SetNode(l, th.target, l.nodes[th.target].(marked := true, marker := t))
    requires th' == StartLocking(th.(isMarked := true))
    ensures RemoveInv(l', th')
  {
    forall k | 0 <= k < th.height ensures Ever(l', k, th.target) && !Gone(l', k, th.target) {
      FullIsLinked(cfg, l, th.target, k);
    }
  }

  lemma MarkStep(cfg: Config, t: Tid, l: List, th: Thread, l': List, th': Thread)
    requires ListInv(cfg, l) && ThreadInv(cfg, t, l, th) && Evolve(t, l, l') && th.pc.RMark? && th.target < |l.nodes|
    requires !Marked(l, th.target) && l' == SetNode(l, th.target, l.nodes[th.target].(marked := true, marker := t))
    requires th' == StartLocking(th.(isMarked := true)) && 1 <= th.height <= th.max + 1
    ensures ThreadInv(cfg, t, l', th')
  {
    hide SearchInv, GuardInv, OwnerInv, AddInv, RemoveInv, GrowInv, FindInv;
    SearchStable(cfg, t, l, l', th);
    MovedSearch(cfg, l', th, th');
    NoGuards(t, l', th');
    MarkOwner(t, l, th, l', th');
    MarkRemove(cfg, t, l, th, l', th');
    Idles(cfg, t, l', th');
  }

  lemma UnlinkRemove(cfg: Config, t: Tid, l: List, th: Thread, l': List, th': Thread)
    requires ListInv(cfg, l) && RemoveInv(l, th) && th.pc.RUnlink? && th.isMarked && th.height <= |l.lin|
    requires th.layer < |th.preds| && CanUnlink(l, t, th.layer, th.preds[th.layer], th.target)
    requires l' == UnlinkNode(l, th.layer, th.preds[th.layer], th.target)
    requires th' == if th.layer > 0 then th.(layer := th.layer - 1) else Go(th, RCount)
    ensures RemoveInv(l', th')
  {
    UnlinkFacts(l, t, th.layer, th.preds[th.layer], th.target);
    forall k | 0 <= k < th.height ensures Ever(l', k, th.target) && (Gone(l', k, th.target) <==> k >= th.layer) {
      assert Ever(l, k, th.target) && (Gone(l, k, th.target) <==> k > th.layer);
    }
  }

  lemma UnlinkStep(cfg: Config, t: Tid, l: List, th: Thread, l': List, th': Thread)
    requires ListInv(cfg, l) && ThreadInv(cfg, t, l, th) && Evolve(t, l, l') && th.pc.RUnlink? && th.height <= |l.lin|
    requires th.layer < |th.preds| && CanUnlink(l, t, th.layer, th.preds[th.layer], th.target)
    requires l' == UnlinkNode(l, th.layer, th.preds[th.layer], th.target)
    requires th' == if th.layer > 0 then th.(layer := th.layer - 1) else Go(th, RCount)
    ensures ThreadInv(cfg, t, l', th')
  {
    hide SearchInv, GuardInv, OwnerInv, AddInv, RemoveInv, GrowInv, FindInv, CanUnlink, OnlyLayer, UnlinkNode, Evolve;
    UnlinkOnly(l, t, th.layer, th.preds[th.layer], th.target);
    LayerSearch(cfg, t, l, l', th, th');
    LayerGuard(t, l, l', th, th');
    LayerOwner(t, l, l', th, th');
    UnlinkRemove(cfg, t, l, th, l', th');
    Idles(cfg, t, l', th');
  }

  lemma UncountStep(cfg: Config, t: Tid, l: List, th: Thread, l': List, th': Thread)
    requires ListInv(cfg, l) && ThreadInv(cfg, t, l, th) && Evolve(t, l, l') && th.pc.RCount?
    requires l' == l.(size := l'.size, counted := l'.counted) && th' == th.(pc := Unlock, done := true)
    ensures ThreadInv(cfg, t, l', th')
  {
    hide SearchInv, GuardInv, OwnerInv, AddInv, RemoveInv, GrowInv, FindInv;
    QuietStable(cfg, t, l, l', th, th');
    UntouchedGuard(t, l, l', th);
    MoveGuard(t, l', th, th');
    UntouchedOwner(t, l, l', th);
    SameOwner(t, l', th, th');
    RemoveFrom(l, l', th);
    KeepRemoved(l', th, th');
    Idles(cfg, t, l', th');
  }

  // ---------- growHeight ----------

  lemma CopyGrow(cfg: Config, t: Tid, l: List, th: Thread, l': List, th': Thread, any: int)
    requires ListInv(cfg, l) && GrowInv(cfg, t, l, th) && OwnerInv(t, l, th) && th.pc.GCopy?
    requires l' == l.(nodes := l.nodes + [CopiedHead(l, th.oldHead, th.height, any, t)])
    requires th' == th.(pc := GCas, newHead := |l.nodes|)
    requires forall k :: 0 <= k < |l.lin| ==> !Ever(l', k, |l.nodes|)
    ensures GrowInv(cfg, t, l', th')
  {
    assert FullOk(l, th.oldHead) && NodeOk(cfg, l.nodes[th.oldHead]);
  }

  lemma CopyStep(cfg: Config, t: Tid, l: List, th: Thread, l': List, th': Thread, any: int)
    requires ListInv(cfg, l) && ThreadInv(cfg, t, l, th) && Evolve(t, l, l') && th.pc.GCopy?
    requires th.oldHead < |l.nodes| && l' == l.(nodes := l.nodes + [CopiedHead(l, th.oldHead, th.height, any, t)])
    requires NodeOk(cfg, l'.nodes[|l.nodes|]) && !l'.nodes[|l.nodes|].full
    requires th' == th.(pc := GCas, newHead := |l.nodes|)
    ensures ThreadInv(cfg, t, l', th')
  {
    hide SearchInv, GuardInv, OwnerInv, AddInv, RemoveInv, GrowInv, FindInv;
    QuietStable(cfg, t, l, l', th, th');
    NoGuards(t, l', th');
    UntouchedOwner(t, l, l', th);
    SameOwner(t, l', th, th');
    AllocKeeps(cfg, t, l, l'.nodes[|l.nodes|]);
    CopyGrow(cfg, t, l, th, l', th', any);
    NoRemove(l', th');
    Idles(cfg, t, l', th');
  }

  lemma SwapGrow(cfg: Config, t: Tid, l: List, th: Thread, l': List, th': Thread)
    requires ListInv(cfg, l) && GrowInv(cfg, t, l, th) && OwnerInv(t, l, th) && FlowInv(th) && th.pc.GCas?
    requires Evolve(t, l, l') && CanSwap(cfg, l, t, th.oldHead, th.newHead)
             && l' == SwapHead(l, th.oldHead, th.newHead, t)
    requires th' == Go(th, GUnlock)
    ensures GrowInv(cfg, t, l', th') && OwnerInv(t, l', th')
  {
    SwapFacts(cfg, l, t, th.oldHead, th.newHead);
    assert NodeOk(cfg, l.nodes[th.oldHead]);
    RegStable(t, l, l', th.win, 0, th.oldHead);
    forall x: nat ensures LockedBy(l', x, t) <==> LockedBy(l, x, t) {
    }
  }

  lemma SwapStep(cfg: Config, t: Tid, l: List, th: Thread, l': List, th': Thread)
    requires ListInv(cfg, l) && ThreadInv(cfg, t, l, th) && Evolve(t, l, l') && th.pc.GCas?
    requires CanSwap(cfg, l, t, th.oldHead, th.newHead) && l' == SwapHead(l, th.oldHead, th.newHead, t)
    requires th' == Go(th, GUnlock)
    ensures ThreadInv(cfg, t, l', th')
  {
    hide SearchInv, GuardInv, OwnerInv, AddInv, RemoveInv, GrowInv, FindInv;
    QuietStable(cfg, t, l, l', th, th');
    NoGuards(t, l', th');
    SwapGrow(cfg, t, l, th, l', th');
    NoRemove(l', th');
    Idles(cfg, t, l', th');
  }

  lemma LostCasGrow(cfg: Config, t: Tid, l: List, th: Thread, th': Thread)
    requires GrowInv(cfg, t, l, th) && th.pc.GCas? && th' == Go(th, GDestroy)
    ensures GrowInv(cfg, t, l, th')
  {
  }

  lemma LostCasStep(cfg: Config, t: Tid, l: List, th: Thread, th': Thread)
    requires ThreadInv(cfg, t, l, th) && th.pc.GCas? && th' == Go(th, GDestroy)
    ensures ThreadInv(cfg, t, l, th')
  {
    hide SearchInv, GuardInv, OwnerInv, AddInv, RemoveInv, GrowInv, FindInv;
    QuietFrom(cfg, l, th, th');
    NoGuards(t, l, th');
    SameOwner(t, l, th, th');
    LostCasGrow(cfg, t, l, th, th');
    NoRemove(l, th');
    Idles(cfg, t, l, th');
  }

  // ---------- all writes ----------

  lemma AddWrites(cfg: Config, t: Tid, l: List, rec: Recycler, th: Thread, l': List, th': Thread)
    requires ListInv(cfg, l) && ThreadInv(cfg, t, l, th) && SafeAccess(cfg, l, rec, th)
             && WriteStep(cfg, t, l, rec, th, l', th')
    requires Evolve(t, l, l') && (th.pc.ACreate? || Adding(th.pc))
    ensures ThreadInv(cfg, t, l', th')
  {
    hide OwnerInv, AddInv, RemoveInv, GrowInv, FindInv;
    if th.pc.ACreate? {
      CreateStep(cfg, t, l, th, l', th');
    } else if th.pc.ALink? {
      AddCanLink(cfg, t, l, th);
      LinkStep(cfg, t, l, th, l', th');
    } else {
      CountedStep(cfg, t, l, th, l', th');
    }
  }

  lemma RemoveWrites(cfg: Config, t: Tid, l: List, rec: Recycler, th: Thread, l': List, th': Thread)
    requires ListInv(cfg, l) && ThreadInv(cfg, t, l, th) && SafeAccess(cfg, l, rec, th)
             && WriteStep(cfg, t, l, rec, th, l', th')
    requires Evolve(t, l, l') && (th.pc.RMark? || th.pc.RUnlink? || th.pc.RCount?)
    ensures ThreadInv(cfg, t, l', th')
  {
    hide SearchInv, GuardInv, Evolve;
    hide OwnerInv, AddInv, GrowInv, FindInv;
    if th.pc.RMark? {
      assert NodeOk(cfg, l.nodes[th.target]);
      if Marked(l, th.target) {
        AlreadyMarkedStep(cfg, t, l, th, th');
      } else {
        MarkStep(cfg, t, l, th, l', th');
      }
    } else if th.pc.RUnlink? {
      RemoveCanUnlink(cfg, t, l, th);
      HeightBound(cfg, l, th.target);
      UnlinkStep(cfg, t, l, th, l', th');
    } else {
      UncountStep(cfg, t, l, th, l', th');
    }
  }

  lemma GrowWrites(cfg: Config, t: Tid, l: List, rec: Recycler, th: Thread, l': List, th': Thread)
    requires ListInv(cfg, l) && ThreadInv(cfg, t, l, th) && SafeAccess(cfg, l, rec, th)
             && WriteStep(cfg, t, l, rec, th, l', th')
    requires Evolve(t, l, l') && (th.pc.GCopy? || th.pc.GCas?)
    ensures ThreadInv(cfg, t, l', th')
  {
    hide SearchInv, GuardInv, OwnerInv, AddInv, RemoveInv, FindInv;
    if th.pc.GCopy? {
      assert FullOk(l, th.oldHead);
      var any :| l' == l.(nodes := l.nodes + [CopiedHead(l, th.oldHead, th.height, any, t)]) &&
                 th' == th.(pc := GCas, newHead := |l.nodes|);
      CopyStep(cfg, t, l, th, l', th', any);
    } else if l.head == th.oldHead {
      GrowCanSwap(cfg, t, l, th);
      SwapStep(cfg, t, l, th, l', th');
    } else {
      LostCasStep(cfg, t, l, th, th');
    }
  }

  lemma LockWrites(cfg: Config, t: Tid, l: List, rec: Recycler, th: Thread, l': List, th': Thread)
    requires ListInv(cfg, l) && ThreadInv(cfg, t, l, th) && SafeAccess(cfg, l, rec, th)
             && WriteStep(cfg, t, l, rec, th, l', th')
    requires Evolve(t, l, l') && (th.pc.RLock? || th.pc.Lk? || th.pc.GLock?)
    ensures ThreadInv(cfg, t, l', th')
  {
    hide SearchInv, GuardInv, OwnerInv, AddInv, RemoveInv, GrowInv, FindInv;
    if th.pc.RLock? {
      RLockStep(cfg, t, l, th, l', th');
    } else if th.pc.Lk? {
      LkStep(cfg, t, l, th, l', th');
    } else {
      GLockStep(cfg, t, l, th, l', th');
    }
  }

  lemma UnlockWrites(cfg: Config, t: Tid, l: List, rec: Recycler, th: Thread, l': List, th': Thread)
    requires ListInv(cfg, l) && ThreadInv(cfg, t, l, th) && SafeAccess(cfg, l, rec, th)
             && WriteStep(cfg, t, l, rec, th, l', th')
    requires Evolve(t, l, l') && (th.pc.Unlock? || th.pc.RUnlock? || th.pc.GUnlock?)
    ensures ThreadInv(cfg, t, l', th')
  {
    hide SearchInv, GuardInv, OwnerInv, AddInv, RemoveInv, GrowInv, FindInv;
    if th.pc.Unlock? {
      UnlockStep(cfg, t, l, th, l', th');
    } else if th.pc.RUnlock? {
      RUnlockStep(cfg, t, l, th, l', th');
    } else {
      GUnlockStep(cfg, t, l, th, l', th');
    }
  }

  lemma WriteStepThread(cfg: Config, t: Tid, l: List, rec: Recycler, th: Thread, l': List, th': Thread)
    requires ListInv(cfg, l) && ThreadInv(cfg, t, l, th) && SafeAccess(cfg, l, rec, th)
             && WriteStep(cfg, t, l, rec, th, l', th')
    requires Evolve(t, l, l')
    ensures ThreadInv(cfg, t, l', th')
  {
    hide SearchInv, GuardInv, OwnerInv, AddInv, RemoveInv, GrowInv, FindInv;
    if th.pc.RLock? || th.pc.Lk? || th.pc.GLock? {
      LockWrites(cfg, t, l, rec, th, l', th');
    } else if th.pc.Unlock? || th.pc.RUnlock? || th.pc.GUnlock? {
      UnlockWrites(cfg, t, l, rec, th, l', th');
    } else if th.pc.ACreate? || Adding(th.pc) {
      AddWrites(cfg, t, l, rec, th, l', th');
    } else if th.pc.RMark? || th.pc.RUnlink? || th.pc.RCount? {
      RemoveWrites(cfg, t, l, rec, th, l', th');
    } else {
      GrowWrites(cfg, t, l, rec, th, l', th');
    }
  }

  /** A step keeps the list's invariant and its own accessor's, within what others rely on. */
  lemma ThreadStepKeeps(cfg: Config, t: Tid, l: List, rec: Recycler, th: Thread, l': List, rec': Recycler, th': Thread)
    requires ListInv(cfg, l) && ThreadInv(cfg, t, l, th) && ThreadStep(cfg, t, l, rec, th, l', rec', th')
    ensures ListInv(cfg, l') && ThreadInv(cfg, t, l', th') && Evolve(t, l, l')
  {
    hide ListInv, ThreadInv, SafeAccess, CallStep, ReadStep, WriteStep, RecStep, Evolve;
    if rec' == rec && WriteStep(cfg, t, l, rec, th, l', th') {
      WriteStepList(cfg, t, l, rec, th, l', th');
      WriteStepThread(cfg, t, l, rec, th, l', th');
    } else {
      NoChangeEvolves(cfg, t, l);
      if rec' == rec && CallStep(cfg, th, th') {
        CallStepThread(cfg, t, l, th, th');
      } else if rec' == rec && ReadStep(cfg, l, rec, th, th') {
        ReadStepThread(cfg, t, l, rec, th, th');
      } else {
        RecStepThread(cfg, t, l, rec, th, rec', th');
      }
    }
  }

  lemma StepKeepsInv(cfg: Config, s: State, t: Tid, s': State)
    requires Inv(cfg, s) && StepBy(cfg, s, t, s')
    ensures Inv(cfg, s') && Evolve(t, s.l, s'.l)
  {
    hide ListInv, ThreadInv, Evolve, ThreadStep;
    ThreadStepKeeps(cfg, t, s.l, s.rec, s.threads[t], s'.l, s'.rec, s'.threads[t]);
    forall u | 0 <= u < |s'.threads| ensures ThreadInv(cfg, u, s'.l, s'.threads[u]) {
      if u != t {
        ThreadInvStable(cfg, t, u, s.l, s'.l, s.threads[u]);
      }
    }
  }

  lemma InitList(cfg: Config, s: State)
    requires Init(cfg, s)
    ensures ListInv(cfg, s.l)
  {
    forall k, x | 0 <= k < |s.l.lin| && x in s.l.lin[k] ensures NextOk(s.l, k, x) && LinOk(s.l, k, x) {
    }
  }

  lemma InitInv(cfg: Config, s: State)
    requires Init(cfg, s)
    ensures Inv(cfg, s)
  {
    InitList(cfg, s);
    forall t | 0 <= t < |s.threads| ensures ThreadInv(cfg, t, s.l, s.threads[t]) {
      InitThread(cfg, s, t);
    }
  }

  lemma InitThread(cfg: Config, s: State, t: Tid)
    requires Init(cfg, s) && t < |s.threads|
    ensures ThreadInv(cfg, t, s.l, s.threads[t])
  {
    hide SearchInv, GuardInv, AddInv, RemoveInv, GrowInv, FindInv;
    var th := s.threads[t];
    QuietSearch(cfg, s.l, th);
    NoGuards(t, s.l, th);
    NoRemove(s.l, th);
    Idles(cfg, t, s.l, th);
  }
}
