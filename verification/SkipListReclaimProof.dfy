/** Every step keeps what makes reclamation safe. */
module SkipListReclaimProof {

  import opened Common
  import opened SkipListState
  import opened SkipListInvariant
  import opened SkipListStability
  import opened SkipListLinks
  import opened SkipListProof
  import opened SkipListSteps
  import opened SkipListReads
  import opened SkipListWriters
  import opened SkipListReclaim

  // ---------- steps of the list ----------

  lemma GoneMonotone(t: Tid, a: List, b: List, x: nat)
    requires Evolve(t, a, b) && Gone(a, 0, x)
    ensures Gone(b, 0, x)
  {
    LinkOf(t, a, b, 0, x);
  }

  lemma DeadMonotone(t: Tid, a: List, b: List, rec: Recycler, x: nat)
    requires Evolve(t, a, b) && Dead(a, rec, x)
    ensures Dead(b, rec, x)
  {
    GoneMonotone(t, a, b, x);
  }

  /** A node that a write makes reachable for the first time is the thread's own. */
  lemma NewlyLinked(cfg: Config, t: Tid, l: List, rec: Recycler, th: Thread, l': List, th': Thread, x: nat)
    requires ListInv(cfg, l) && ThreadInv(cfg, t, l, th) && SafeAccess(cfg, l, rec, th)
             && WriteStep(cfg, t, l, rec, th, l', th')
    requires Ever(l', 0, x) && !Ever(l, 0, x)
    ensures (th.pc.ALink? && x == th.target) || (th.pc.GCas? && x == th.newHead)
  {
    hide ThreadInv;
    hide ListInv, SearchInv, GuardInv, OwnerInv, AddInv, RemoveInv, GrowInv, FindInv;
    if th.pc.RUnlink? {
      RemoveCanUnlink(cfg, t, l, th);
      UnlinkEver(cfg, l, t, th, x);
    } else if th.pc.GCas? && l.head == th.oldHead {
      GrowCanSwap(cfg, t, l, th);
      SwapEver(cfg, l, t, th.oldHead, th.newHead, 0, x);
    }
  }

  lemma UnlinkEver(cfg: Config, l: List, t: Tid, th: Thread, x: nat)
    requires ListInv(cfg, l) && th.layer < |th.preds| && CanUnlink(l, t, th.layer, th.preds[th.layer], th.target)
    ensures Ever(UnlinkNode(l, th.layer, th.preds[th.layer], th.target), 0, x) ==> Ever(l, 0, x)
  {
    UnlinkFacts(l, t, th.layer, th.preds[th.layer], th.target);
  }

  lemma BinMonotone(t: Tid, a: List, b: List, rec: Recycler)
    requires Evolve(t, a, b) && BinInv(a, rec)
    ensures BinInv(b, rec)
  {
    forall x | x in rec.binned ensures Gone(b, 0, x) {
      GoneMonotone(t, a, b, x);
    }
    forall x | x in rec.pending ensures Dead(b, rec, x) {
      DeadMonotone(t, a, b, rec, x);
    }
  }

  lemma FreedMonotone(t: Tid, a: List, b: List, rec: Recycler)
    requires Evolve(t, a, b) && FreedInv(a, rec)
    requires forall x :: Ever(b, 0, x) && !Ever(a, 0, x) ==> x !in rec.freed
    ensures FreedInv(b, rec)
  {
    forall x | x in rec.freed ensures IsNode(b, x) && (Ever(b, 0, x) ==> x in rec.binned && Dead(b, rec, x)) {
      if Ever(b, 0, x) {
        DeadMonotone(t, a, b, rec, x);
      }
    }
  }

  lemma RefMonotone(t: Tid, a: List, b: List, rec: Recycler)
    requires Order(a) && Evolve(t, a, b) && RefInv(a, rec)
    ensures RefInv(b, rec)
  {
    forall u | u in rec.eras ensures WinOk(b, rec.eras[u]) {
      WinStable(t, a, b, rec.eras[u]);
    }
  }

  lemma MarkedByStable(t: Tid, a: List, b: List, x: nat, u: Tid)
    requires Evolve(t, a, b) && MarkedBy(a, x, u)
    ensures MarkedBy(b, x, u)
  {
    assert NodeEvolve(t, a.nodes[x], b.nodes[x]);
  }

  /** A step of the list by thread t, seen by any accessor whose registers do not change. */
  lemma RecAfterWrite(t: Tid, u: Tid, a: List, b: List, rec: Recycler, th: Thread)
    requires Evolve(t, a, b) && ThreadRec(u, a, rec, th)
    ensures ThreadRec(u, b, rec, th)
  {
    if th.pc.LSwap? {
      forall x | x in rec.bin ensures Dead(b, rec, x) {
        DeadMonotone(t, a, b, rec, x);
      }
    }
    if th.isMarked && !th.pc.RUnlock? {
      MarkedByStable(t, a, b, th.target, u);
    }
    if (th.pc.GUnlock? && th.newHead != NIL) || (th.pc.Recycle? && th.op.Add?) {
      MarkedByStable(t, a, b, th.oldHead, u);
    }
  }

  lemma SameEra(u: Tid, rec: Recycler, th: Thread, th': Thread)
    requires EraInv(u, rec, th) && Inside(th.pc) && Inside(th'.pc) && th'.win == th.win
    requires UsesWin(th'.pc) ==> UsesWin(th.pc)
    ensures EraInv(u, rec, th')
  {
  }

  lemma SameCollect(u: Tid, l: List, l': List, rec: Recycler, th: Thread, th': Thread)
    requires CollectInv(u, l, rec, th) && Inside(th.pc) && Inside(th'.pc)
    ensures CollectInv(u, l', rec, th')
  {
  }

  /** What a write does to the registers. */
  ghost predicate WriteMove(t: Tid, l: List, th: Thread, l': List, th': Thread) {
    && Inside(th.pc) && Inside(th'.pc) && th'.win == th.win && (UsesWin(th'.pc) ==> UsesWin(th.pc))
    && th'.oldHead == th.oldHead && (!th.pc.RLock? && !th.pc.ACreate? ==> th'.target == th.target)
    && (th'.pc.ALink? || th'.pc.AFull? ==> th.pc.ACreate? || th.pc.ALink?)
    && (th'.pc.GCas? || th'.pc.GDestroy? ==> th.pc.GCopy? || (th.pc.GCas? && th'.newHead == th.newHead))
    && (th.pc.ACreate? ==> th'.target == |l.nodes|)
    && (th.pc.GCopy? ==> th'.newHead == |l.nodes|)
    && (th'.isMarked ==> th.isMarked || (th.pc.RMark? && !Marked(l, th.target) && MarkedBy(l', th.target, t)))
    && (th'.pc.Recycle? ==> th.pc.GUnlock? && th.newHead != NIL)
    && (th'.pc.GUnlock? ==> th.pc.GCas? && l.head == th.oldHead && MarkedBy(l', th.oldHead, t))
    && (th.pc.RUnlock? ==> !th'.isMarked)
  }

  lemma LockMoved(cfg: Config, t: Tid, l: List, rec: Recycler, th: Thread, l': List, th': Thread)
    requires SafeAccess(cfg, l, rec, th) && WriteStep(cfg, t, l, rec, th, l', th')
    requires th.pc.RLock? || th.pc.Lk? || th.pc.GLock?
    ensures WriteMove(t, l, th, l', th')
  {
    match th.pc
    case RLock => case Lk => case GLock =>
  }

  lemma UnlockMoved(cfg: Config, t: Tid, l: List, rec: Recycler, th: Thread, l': List, th': Thread)
    requires SafeAccess(cfg, l, rec, th) && WriteStep(cfg, t, l, rec, th, l', th')
    requires th.pc.Unlock? || th.pc.RUnlock? || th.pc.GUnlock?
    ensures WriteMove(t, l, th, l', th')
  {
    match th.pc
    case Unlock => case RUnlock => case GUnlock =>
  }

  lemma AddMoved(cfg: Config, t: Tid, l: List, rec: Recycler, th: Thread, l': List, th': Thread)
    requires SafeAccess(cfg, l, rec, th) && WriteStep(cfg, t, l, rec, th, l', th')
    requires th.pc.ACreate? || th.pc.ALink? || th.pc.AFull? || th.pc.ACount?
    ensures WriteMove(t, l, th, l', th')
  {
    match th.pc
    case ACreate => case ALink => case AFull => case ACount =>
  }

  lemma RemoveMoved(cfg: Config, t: Tid, l: List, rec: Recycler, th: Thread, l': List, th': Thread)
    requires SafeAccess(cfg, l, rec, th) && WriteStep(cfg, t, l, rec, th, l', th')
    requires th.pc.RMark? || th.pc.RUnlink? || th.pc.RCount?
    ensures WriteMove(t, l, th, l', th')
  {
    match th.pc
    case RMark => case RUnlink => case RCount =>
  }

  lemma GrowMoved(cfg: Config, t: Tid, l: List, rec: Recycler, th: Thread, l': List, th': Thread)
    requires SafeAccess(cfg, l, rec, th) && WriteStep(cfg, t, l, rec, th, l', th')
    requires th.pc.GCopy? || th.pc.GCas?
    ensures WriteMove(t, l, th, l', th')
  {
    match th.pc
    case GCopy => case GCas =>
  }

  lemma WriteInside(cfg: Config, t: Tid, l: List, rec: Recycler, th: Thread, l': List, th': Thread)
    requires SafeAccess(cfg, l, rec, th) && WriteStep(cfg, t, l, rec, th, l', th')
    ensures WriteMove(t, l, th, l', th')
  {
    hide SafeAccess, WriteMove;
    if th.pc.RLock? || th.pc.Lk? || th.pc.GLock? {
      LockMoved(cfg, t, l, rec, th, l', th');
    } else if th.pc.Unlock? || th.pc.RUnlock? || th.pc.GUnlock? {
      UnlockMoved(cfg, t, l, rec, th, l', th');
    } else if th.pc.ACreate? || Adding(th.pc) {
      AddMoved(cfg, t, l, rec, th, l', th');
    } else if th.pc.RMark? || th.pc.RUnlink? || th.pc.RCount? {
      RemoveMoved(cfg, t, l, rec, th, l', th');
    } else {
      GrowMoved(cfg, t, l, rec, th, l', th');
    }
  }

  lemma FreshNotFreed(l: List, rec: Recycler)
    requires FreedInv(l, rec)
    ensures |l.nodes| !in rec.freed
  {
    assert !IsNode(l, |l.nodes|);
  }

  lemma UnbinnedMark(cfg: Config, l: List, rec: Recycler, x: nat)
    requires ListInv(cfg, l) && BinInv(l, rec) && !Marked(l, x)
    ensures x !in rec.binned
  {
    assert Gone(l, 0, x) ==> GoneOk(l, 0, x);
  }

  lemma WriteOwnNodes(cfg: Config, t: Tid, l: List, rec: Recycler, th: Thread, l': List, th': Thread)
    requires ListInv(cfg, l) && BinInv(l, rec) && FreedInv(l, rec) && OwnNodesInv(t, l, rec, th) && Evolve(t, l, l')
    requires FlowInv(th) && SafeAccess(cfg, l, rec, th) && WriteStep(cfg, t, l, rec, th, l', th')
    ensures OwnNodesInv(t, l', rec, th')
  {
    hide ListInv, BinInv, FreedInv, SafeAccess, WriteStep, Evolve;
    WriteInside(cfg, t, l, rec, th, l', th');
    FreshNotFreed(l, rec);
    if th'.isMarked {
      if th.isMarked {
        MarkedByStable(t, l, l', th.target, t);
      } else {
        UnbinnedMark(cfg, l, rec, th.target);
      }
    }
    if th'.pc.GUnlock? {
      HeadUnmarked(cfg, l);
      UnbinnedMark(cfg, l, rec, th.oldHead);
    } else if th'.pc.Recycle? {
      MarkedByStable(t, l, l', th.oldHead, t);
    }
  }

  lemma HeadUnmarked(cfg: Config, l: List)
    requires ListInv(cfg, l)
    ensures IsNode(l, l.head) && !Marked(l, l.head)
  {
  }

  lemma WriteStepRec(cfg: Config, t: Tid, l: List, rec: Recycler, th: Thread, l': List, th': Thread)
    requires ListInv(cfg, l) && ThreadInv(cfg, t, l, th) && RecInv(l, rec) && ThreadRec(t, l, rec, th)
    requires SafeAccess(cfg, l, rec, th) && WriteStep(cfg, t, l, rec, th, l', th') && Evolve(t, l, l')
    ensures RecInv(l', rec) && ThreadRec(t, l', rec, th')
  {
    WriteRecInv(cfg, t, l, rec, th, l', th');
    hide ListInv, RecInv, SafeAccess, WriteStep, Evolve, EraInv, CollectInv, OwnNodesInv;
    hide SearchInv, GuardInv, OwnerInv, AddInv, RemoveInv, GrowInv, FindInv;
    WriteInside(cfg, t, l, rec, th, l', th');
    SameEra(t, rec, th, th');
    SameCollect(t, l, l', rec, th, th');
    RecParts(l, rec);
    WriteOwnNodes(cfg, t, l, rec, th, l', th');
  }

  lemma RecParts(l: List, rec: Recycler)
    requires RecInv(l, rec)
    ensures BinInv(l, rec) && FreedInv(l, rec) && RefInv(l, rec)
  {
  }

  lemma WriteRecInv(cfg: Config, t: Tid, l: List, rec: Recycler, th: Thread, l': List, th': Thread)
    requires ListInv(cfg, l) && ThreadInv(cfg, t, l, th) && RecInv(l, rec) && ThreadRec(t, l, rec, th)
    requires SafeAccess(cfg, l, rec, th) && WriteStep(cfg, t, l, rec, th, l', th') && Evolve(t, l, l')
    ensures RecInv(l', rec)
  {
    hide SearchInv, GuardInv, OwnerInv, AddInv, RemoveInv, GrowInv, FindInv, WriteStep, SafeAccess;
    hide BinInv, FreedInv, RefInv, Evolve, EraInv, CollectInv;
    forall x: nat | Ever(l', 0, x) && !Ever(l, 0, x) ensures x !in rec.freed {
      NewlyLinked(cfg, t, l, rec, th, l', th', x);
    }
    BinMonotone(t, l, l', rec);
    FreedMonotone(t, l, l', rec);
    RefMonotone(t, l, l', rec);
  }

  // ---------- reads and calls ----------

  /** What a read does to the registers. */
  ghost predicate ReadMove(l: List, th: Thread, th': Thread) {
    && Inside(th.pc) && Inside(th'.pc)
    && ((th'.win == th.win && (UsesWin(th'.pc) ==> UsesWin(th.pc))) || th'.win == l.gone)
    && th'.target == th.target && th'.isMarked == th.isMarked && th'.newHead == th.newHead
    && !th'.pc.ALink? && !th'.pc.AFull? && !th'.pc.GCas? && !th'.pc.GDestroy? && !th'.pc.GUnlock? && !th.pc.RUnlock?
    && (th'.pc.Recycle? ==> th'.op.Remove?)
    && !Adding(th.pc) && !th.pc.RCount? && !th'.pc.ACount? && !th'.pc.RCount?
  }

  lemma SearchMoved(cfg: Config, l: List, rec: Recycler, th: Thread, th': Thread)
    requires SafeAccess(cfg, l, rec, th) && ReadStep(cfg, l, rec, th, th') && FlowInv(th)
    requires th.pc.SMax? || th.pc.SHead? || th.pc.SNode?
    ensures ReadMove(l, th, th')
  {
    match th.pc
    case SMax => case SHead => case SNode =>
  }

  lemma CheckMoved(cfg: Config, l: List, rec: Recycler, th: Thread, th': Thread)
    requires SafeAccess(cfg, l, rec, th) && ReadStep(cfg, l, rec, th, th') && FlowInv(th)
    requires th.pc.AMarked? || th.pc.AWait? || th.pc.APick? || th.pc.RFull? || th.pc.RMarked?
    ensures ReadMove(l, th, th')
  {
    match th.pc
    case AMarked => case AWait => case APick => case RFull => case RMarked =>
  }

  lemma LockReadMoved(cfg: Config, l: List, rec: Recycler, th: Thread, th': Thread)
    requires SafeAccess(cfg, l, rec, th) && ReadStep(cfg, l, rec, th, th') && FlowInv(th)
    requires th.pc.Lk? || th.pc.LkCheck? || th.pc.LkSucc?
    ensures ReadMove(l, th, th')
  {
    hide SafeAccess;
    match th.pc
    case Lk => case LkCheck => case LkSucc =>
  }

  lemma FindMoved(cfg: Config, l: List, rec: Recycler, th: Thread, th': Thread)
    requires SafeAccess(cfg, l, rec, th) && ReadStep(cfg, l, rec, th, th') && FlowInv(th)
    requires th.pc.FHead? || th.pc.FDown? || th.pc.FRight? || th.pc.FMarked?
    ensures ReadMove(l, th, th')
  {
    match th.pc
    case FHead => case FDown => case FRight => case FMarked =>
  }

  lemma OtherMoved(cfg: Config, l: List, rec: Recycler, th: Thread, th': Thread)
    requires SafeAccess(cfg, l, rec, th) && ReadStep(cfg, l, rec, th, th') && FlowInv(th)
    requires th.pc.Returned? || th.pc.Unlock? || th.pc.AHeight? || th.pc.GHead?
    ensures ReadMove(l, th, th')
  {
    hide SafeAccess;
    match th.pc
    case Returned => case Unlock => case AHeight => case GHead =>
  }

  lemma ReadInside(cfg: Config, l: List, rec: Recycler, th: Thread, th': Thread)
    requires SafeAccess(cfg, l, rec, th) && ReadStep(cfg, l, rec, th, th') && FlowInv(th)
    ensures ReadMove(l, th, th')
  {
    hide SafeAccess, ReadMove;
    if Searching(th.pc) {
      SearchMoved(cfg, l, rec, th, th');
    } else if Checks(th.pc) {
      CheckMoved(cfg, l, rec, th, th');
    } else if Locking(th.pc) {
      LockReadMoved(cfg, l, rec, th, th');
    } else if th.pc.FHead? || Finding(th.pc) {
      FindMoved(cfg, l, rec, th, th');
    } else {
      OtherMoved(cfg, l, rec, th, th');
    }
  }

  lemma NewEra(u: Tid, l: List, rec: Recycler, th: Thread, th': Thread)
    requires EraInv(u, rec, th) && RefInv(l, rec) && Inside(th.pc) && Inside(th'.pc) && th'.win == l.gone
    ensures EraInv(u, rec, th')
  {
    assert u in rec.eras && WinOk(l, rec.eras[u]);
  }

  lemma ReadStepRec(cfg: Config, t: Tid, l: List, rec: Recycler, th: Thread, th': Thread)
    requires RecInv(l, rec) && ThreadRec(t, l, rec, th) && FlowInv(th)
    requires SafeAccess(cfg, l, rec, th) && ReadStep(cfg, l, rec, th, th')
    ensures ThreadRec(t, l, rec, th')
  {
    hide SafeAccess, ReadStep, EraInv, CollectInv, RefInv, BinInv, FreedInv;
    ReadInside(cfg, l, rec, th, th');
    if th'.win == th.win && (UsesWin(th'.pc) ==> UsesWin(th.pc)) {
      SameEra(t, rec, th, th');
    } else {
      NewEra(t, l, rec, th, th');
    }
    SameCollect(t, l, l, rec, th, th');
  }

  lemma CallStepRec(cfg: Config, t: Tid, l: List, rec: Recycler, th: Thread, th': Thread)
    requires ThreadRec(t, l, rec, th) && CallStep(cfg, th, th')
    ensures ThreadRec(t, l, rec, th')
  {
  }

  // ---------- steps of the recycler ----------

  /** What a recycler step of thread t may do, as far as others rely on it. */
  ghost predicate RecEvolve(t: Tid, l: List, a: Recycler, b: Recycler) {
    && (forall u :: u != t ==> (u in b.refset <==> u in a.refset) && (u in b.eras <==> u in a.eras))
    && (forall u :: u in b.eras && u in a.eras ==> b.eras[u] == a.eras[u])
    && (t in b.eras && t !in a.eras ==> b.eras[t] == l.gone)
    && (b.lock == a.lock || ((a.lock.None? || a.lock == Some(t)) && (b.lock.None? || b.lock == Some(t))))
    && (a.lock.Some? && a.lock != Some(t) ==> b.bin == a.bin)
    && (|| b.collector == a.collector
        || ((a.collector.None? || a.collector == Some(t)) && (b.collector.None? || b.collector == Some(t))))
    && (a.collector.Some? && a.collector != Some(t) ==> b.pending == a.pending)
    && (forall x :: x in b.freed && x !in a.freed ==> Gone(l, 0, x) || (MadeBy(l, x, t) && !Ever(l, 0, x)))
    && (forall x :: x in b.binned && x !in a.binned ==> MarkedBy(l, x, t))
  }

  lemma DeadLater(t: Tid, l: List, a: Recycler, b: Recycler, x: nat)
    requires RecEvolve(t, l, a, b) && Dead(l, a, x)
    ensures Dead(l, b, x)
  {
    forall u | u in b.eras ensures |b.eras[u]| > 0 && x in b.eras[u][0] {
      if u in a.eras {
        assert x in a.eras[u][0];
      }
    }
  }

  lemma OwnStable(cfg: Config, t: Tid, u: Tid, l: List, a: Recycler, b: Recycler, th: Thread)
    requires u != t && RecEvolve(t, l, a, b) && ListInv(cfg, l) && OwnNodesInv(u, l, a, th)
    requires AddInv(u, l, th) && GrowInv(cfg, u, l, th)
    ensures OwnNodesInv(u, l, b, th)
  {
    if th.pc.ALink? || th.pc.AFull? {
      assert Gone(l, 0, th.target) ==> GoneOk(l, 0, th.target);
    }
    if th.pc.GCas? || th.pc.GDestroy? {
      assert !Ever(l, 0, th.newHead);
    }
  }

  lemma CollectStable(t: Tid, u: Tid, l: List, a: Recycler, b: Recycler, th: Thread)
    requires u != t && RecEvolve(t, l, a, b) && CollectInv(u, l, a, th)
    ensures CollectInv(u, l, b, th)
  {
    if th.pc.LSwap? {
      forall x | x in b.bin ensures Dead(l, b, x) {
        DeadLater(t, l, a, b, x);
      }
    }
  }

  lemma EraStable(t: Tid, u: Tid, l: List, a: Recycler, b: Recycler, th: Thread)
    requires u != t && RecEvolve(t, l, a, b) && EraInv(u, a, th)
    ensures EraInv(u, b, th)
  {
  }

  lemma RecAfterRec(cfg: Config, t: Tid, u: Tid, l: List, a: Recycler, b: Recycler, th: Thread)
    requires u != t && RecEvolve(t, l, a, b) && ListInv(cfg, l) && ThreadInv(cfg, u, l, th) && ThreadRec(u, l, a, th)
    ensures ThreadRec(u, l, b, th)
  {
    hide ListInv, SearchInv, GuardInv, OwnerInv, AddInv, RemoveInv, GrowInv, FindInv, RecEvolve;
    hide EraInv, CollectInv, OwnNodesInv;
    EraStable(t, u, l, a, b, th);
    CollectStable(t, u, l, a, b, th);
    OwnStable(cfg, t, u, l, a, b, th);
  }

  /** What a recycler step owes: the shared invariant, its own, and what others rely on. */
  ghost predicate RecKept(t: Tid, l: List, rec: Recycler, rec': Recycler, th': Thread) {
    RecInv(l, rec') && ThreadRec(t, l, rec', th') && RecEvolve(t, l, rec, rec')
  }

  lemma DeadFewer(l: List, a: Recycler, b: Recycler, x: nat)
    requires Dead(l, a, x) && b.eras.Keys <= a.eras.Keys && forall u :: u in b.eras ==> b.eras[u] == a.eras[u]
    ensures Dead(l, b, x)
  {
  }

  lemma EnterBin(t: Tid, l: List, a: Recycler, b: Recycler)
    requires BinInv(l, a) && FreedInv(l, a) && RecEvolve(t, l, a, b)
    requires b == a.(refs := b.refs, refset := b.refset, eras := b.eras, lock := b.lock)
    ensures BinInv(l, b) && FreedInv(l, b)
  {
    forall x | x in b.pending ensures Dead(l, b, x) {
      DeadLater(t, l, a, b, x);
    }
    forall x | x in b.freed && Ever(l, 0, x) ensures Dead(l, b, x) {
      DeadLater(t, l, a, b, x);
    }
  }

  lemma EnterRefs(cfg: Config, t: Tid, l: List, rec: Recycler, rec': Recycler)
    requires ListInv(cfg, l) && RefInv(l, rec) && t !in rec.refset
    requires rec' == rec.(refs := rec.refs + 1, refset := rec.refset + {t}, eras := rec.eras[t := l.gone])
    ensures RefInv(l, rec') && RecEvolve(t, l, rec, rec')
  {
    WinStarts(cfg, l);
  }

  lemma EnterStep(cfg: Config, t: Tid, l: List, rec: Recycler, th: Thread, rec': Recycler, th': Thread)
    requires ListInv(cfg, l) && RecInv(l, rec) && ThreadRec(t, l, rec, th) && FlowInv(th) && th.pc.Outside?
    requires rec' == rec.(refs := rec.refs + 1, refset := rec.refset + {t}, eras := rec.eras[t := l.gone])
             && th' == Go(th, Idle)
    ensures RecKept(t, l, rec, rec', th')
  {
    hide ListInv, BinInv, FreedInv, RefInv, RecEvolve;
    EnterRefs(cfg, t, l, rec, rec');
    EnterBin(t, l, rec, rec');
  }

  lemma LeaveStep(t: Tid, l: List, rec: Recycler, th: Thread, rec': Recycler, th': Thread)
    requires RecInv(l, rec) && ThreadRec(t, l, rec, th) && FlowInv(th) && th.pc.Idle?
    requires rec' == rec.(eras := rec.eras - {t}) && th' == Go(th, LDirty)
    ensures RecKept(t, l, rec, rec', th')
  {
    hide BinInv, FreedInv;
    EnterBin(t, l, rec, rec');
  }

  lemma LooksThread(t: Tid, l: List, rec: Recycler, th: Thread, th': Thread)
    requires EraInv(t, rec, th) && CollectInv(t, l, rec, th) && FlowInv(th) && th' == Go(th, th'.pc)
    requires (th.pc.LDirty? && (th'.pc.LRefs? || th'.pc.LDec?)) || (th.pc.LRefs? && (th'.pc.LLock? || th'.pc.LDec?))
          || (th.pc.LTest? && th'.pc.LDecIn?)
    ensures ThreadRec(t, l, rec, th')
  {
  }

  lemma SameRec(t: Tid, l: List, rec: Recycler)
    ensures RecEvolve(t, l, rec, rec)
  {
  }

  lemma LooksStep(t: Tid, l: List, rec: Recycler, th: Thread, th': Thread)
    requires RecInv(l, rec) && ThreadRec(t, l, rec, th) && FlowInv(th) && th' == Go(th, th'.pc)
    requires (th.pc.LDirty? && (th'.pc.LRefs? || th'.pc.LDec?)) || (th.pc.LRefs? && (th'.pc.LLock? || th'.pc.LDec?))
          || (th.pc.LTest? && th'.pc.LDecIn?)
    ensures RecKept(t, l, rec, rec, th')
  {
    hide RecInv, RecEvolve;
    LooksThread(t, l, rec, th, th');
    SameRec(t, l, rec);
  }

  lemma LockStep(t: Tid, l: List, rec: Recycler, th: Thread, rec': Recycler, th': Thread)
    requires RecInv(l, rec) && ThreadRec(t, l, rec, th) && FlowInv(th) && th.pc.LLock? && rec.lock.None?
    requires rec' == rec.(lock := Some(t)) && th' == Go(th, LTest)
    ensures RecKept(t, l, rec, rec', th')
  {
    EnterBin(t, l, rec, rec');
  }

  lemma SoleMember(s: set<Tid>, t: Tid)
    requires t in s && |s| <= 1
    ensures s == {t}
  {
    assert |s - {t}| == 0;
  }

  /** refs() == 1 was seen under the lock: no other accessor may use nodes, so
      everything in the recycler is out of reach. */
  lemma CollectStep(t: Tid, l: List, rec: Recycler, th: Thread, rec': Recycler, th': Thread)
    requires RecInv(l, rec) && ThreadRec(t, l, rec, th) && FlowInv(th) && th.pc.LTest? && rec.refs <= 1
    requires rec' == rec.(collector := Some(t)) && th' == Go(th, LSwap)
    ensures RecKept(t, l, rec, rec', th')
  {
    SoleMember(rec.refset, t);
    assert rec.eras.Keys <= {t} && t !in rec.eras;
    forall x | x in rec.bin ensures Dead(l, rec', x) {
      assert Queued(rec, x) && x in rec.binned;
    }
    CollectBin(l, rec, rec');
  }

  lemma CollectBin(l: List, a: Recycler, b: Recycler)
    requires BinInv(l, a) && FreedInv(l, a) && a.collector.None? && b == a.(collector := b.collector)
    ensures BinInv(l, b) && FreedInv(l, b)
  {
    forall x | x in b.freed && Ever(l, 0, x) ensures Dead(l, b, x) {
      DeadFewer(l, a, b, x);
    }
    forall x | Queued(b, x) ensures x in b.binned && x !in b.freed {
      assert Queued(a, x);
    }
  }

  lemma SwapBin(t: Tid, l: List, a: Recycler, b: Recycler)
    requires BinInv(l, a) && FreedInv(l, a) && a.pending == [] && a.collector == Some(t)
    requires forall x :: x in a.bin ==> Dead(l, a, x)
    requires b == a.(bin := [], dirty := false, lock := None, pending := a.bin)
    ensures BinInv(l, b) && FreedInv(l, b)
  {
    forall x | Queued(b, x) ensures x in b.binned && x !in b.freed && Dead(l, b, x) {
      assert Queued(a, x) && Dead(l, a, x);
      DeadFewer(l, a, b, x);
    }
    forall x | x in b.freed && Ever(l, 0, x) ensures Dead(l, b, x) {
      DeadFewer(l, a, b, x);
    }
  }

  lemma SwapBinStep(t: Tid, l: List, rec: Recycler, th: Thread, rec': Recycler, th': Thread)
    requires RecInv(l, rec) && ThreadRec(t, l, rec, th) && FlowInv(th) && th.pc.LSwap?
    requires rec' == rec.(bin := [], dirty := false, lock := None, pending := rec.bin)
    requires th' == th.(pc := LDestroy, batch := rec.bin)
    ensures RecKept(t, l, rec, rec', th')
  {
    SwapBin(t, l, rec, rec');
  }

  lemma FreeBin(cfg: Config, t: Tid, l: List, a: Recycler, b: Recycler)
    requires ListInv(cfg, l) && BinInv(l, a) && FreedInv(l, a) && a.pending != [] && a.collector == Some(t)
    requires b == a.(freed := a.freed + {a.pending[0]}, pending := a.pending[1..])
    ensures BinInv(l, b) && FreedInv(l, b) && Gone(l, 0, a.pending[0])
  {
    var x0 := a.pending[0];
    assert Queued(a, x0) && Dead(l, a, x0) && GoneOk(l, 0, x0);
    assert a.pending == [x0] + b.pending;
    forall x | Queued(b, x) ensures x in b.binned && x !in b.freed {
      assert Queued(a, x);
    }
    forall x | x in b.pending ensures Dead(l, b, x) {
      DeadFewer(l, a, b, x);
    }
    forall x | x in b.freed && Ever(l, 0, x) ensures x in b.binned && Dead(l, b, x) {
      DeadFewer(l, a, b, x);
    }
  }

  lemma FreeStep(cfg: Config, t: Tid, l: List, rec: Recycler, th: Thread, rec': Recycler, th': Thread)
    requires ListInv(cfg, l) && RecInv(l, rec) && ThreadRec(t, l, rec, th) && FlowInv(th) && th.pc.LDestroy?
             && th.batch != []
    requires rec' == rec.(freed := rec.freed + {th.batch[0]},
                          pending := if rec.pending == [] then [] else rec.pending[1..])
    requires th' == th.(batch := th.batch[1..])
    ensures RecKept(t, l, rec, rec', th')
  {
    FreeBin(cfg, t, l, rec, rec');
  }

  lemma BatchDoneStep(t: Tid, l: List, rec: Recycler, th: Thread, rec': Recycler, th': Thread)
    requires RecInv(l, rec) && ThreadRec(t, l, rec, th) && FlowInv(th) && th.pc.LDestroy? && th.batch == []
    requires rec' == rec.(collector := None) && th' == Go(th, LDec)
    ensures RecKept(t, l, rec, rec', th')
  {
    EmptyBin(l, rec, rec');
  }

  lemma EmptyBin(l: List, a: Recycler, b: Recycler)
    requires BinInv(l, a) && FreedInv(l, a) && a.pending == [] && b == a.(collector := b.collector)
    ensures BinInv(l, b) && FreedInv(l, b)
  {
    forall x | x in b.freed && Ever(l, 0, x) ensures Dead(l, b, x) {
      DeadFewer(l, a, b, x);
    }
    forall x | Queued(b, x) ensures x in b.binned && x !in b.freed {
      assert Queued(a, x);
    }
  }

  lemma ExitStep(t: Tid, l: List, rec: Recycler, th: Thread, rec': Recycler, th': Thread)
    requires RecInv(l, rec) && ThreadRec(t, l, rec, th) && FlowInv(th) && (th.pc.LDec? || th.pc.LDecIn?)
    requires rec' == rec.(refs := rec.refs - 1, refset := rec.refset - {t},
                          lock := if th.pc.LDecIn? then None else rec.lock)
    requires th' == Go(th, Outside)
    ensures RecKept(t, l, rec, rec', th')
  {
    hide FlowInv, BinInv, FreedInv;
    EnterBin(t, l, rec, rec');
  }

  lemma RecycledBin(l: List, a: Recycler, b: Recycler, x: nat)
    requires BinInv(l, a) && FreedInv(l, a) && |l.lin| == |l.gone| && Gone(l, 0, x) && x !in a.binned
    requires b == a.(bin := a.bin + [x], dirty := true, binned := a.binned + {x})
    ensures BinInv(l, b) && FreedInv(l, b)
  {
    forall y | Queued(b, y) ensures y in b.binned && y !in b.freed {
      assert y != x ==> Queued(a, y);
    }
    forall y | y in b.pending ensures Dead(l, b, y) && y !in b.bin {
      assert Queued(a, y);
      DeadFewer(l, a, b, y);
    }
    forall y | y in b.freed && Ever(l, 0, y) ensures Dead(l, b, y) {
      DeadFewer(l, a, b, y);
    }
    assert NoDup(b.bin) by {
      forall i | 0 <= i < |a.bin| ensures a.bin[i] != x {
        assert Queued(a, a.bin[i]);
      }
    }
  }

  lemma RecycleStep(t: Tid, l: List, rec: Recycler, th: Thread, x: nat, rec': Recycler, th': Thread)
    requires RecInv(l, rec) && ThreadRec(t, l, rec, th) && FlowInv(th) && th.pc.Recycle? && rec.lock.None?
             && |l.lin| == |l.gone|
    requires x == (if th.op.Remove? then th.target else th.oldHead) && Gone(l, 0, x)
    requires rec' == rec.(bin := rec.bin + [x], dirty := true, binned := rec.binned + {x})
    requires th' == if th.op.Remove? then th.(pc := RUnlock, res := Removed) else Return(th, Added(th.target))
    ensures RecKept(t, l, rec, rec', th')
  {
    RecycledBin(l, rec, rec', x);
  }

  lemma LostHeadBin(l: List, a: Recycler, b: Recycler, x: nat)
    requires BinInv(l, a) && FreedInv(l, a) && |l.lin| == |l.gone| && IsNode(l, x) && !Ever(l, 0, x)
    requires b == a.(freed := a.freed + {x})
    ensures BinInv(l, b) && FreedInv(l, b)
  {
    forall y | Queued(b, y) ensures y in b.binned && y !in b.freed {
      assert Queued(a, y) && Gone(l, 0, y);
    }
    forall y | y in b.pending ensures Dead(l, b, y) {
      DeadFewer(l, a, b, y);
    }
    forall y | y in b.freed && Ever(l, 0, y) ensures y in b.binned && Dead(l, b, y) {
      DeadFewer(l, a, b, y);
    }
  }

  lemma LostHeadStep(t: Tid, l: List, rec: Recycler, th: Thread, rec': Recycler, th': Thread)
    requires RecInv(l, rec) && ThreadRec(t, l, rec, th) && FlowInv(th) && th.pc.GDestroy? && |l.lin| == |l.gone|
    requires IsNode(l, th.newHead) && MadeBy(l, th.newHead, t) && !Ever(l, 0, th.newHead)
    requires rec' == rec.(freed := rec.freed + {th.newHead}) && th' == th.(pc := GUnlock, newHead := NIL)
    ensures RecKept(t, l, rec, rec', th')
  {
    LostHeadBin(l, rec, rec', th.newHead);
  }

  lemma RetiredIsGone(cfg: Config, t: Tid, l: List, th: Thread)
    requires ListInv(cfg, l) && ThreadInv(cfg, t, l, th) && th.pc.Recycle?
    ensures Gone(l, 0, if th.op.Remove? then th.target else th.oldHead) && |l.lin| == |l.gone|
  {
    if th.op.Remove? {
      assert NodeOk(cfg, l.nodes[th.target]);
    }
  }

  lemma LostHeadIsPrivate(cfg: Config, t: Tid, l: List, th: Thread)
    requires ListInv(cfg, l) && GrowInv(cfg, t, l, th) && th.pc.GDestroy?
    ensures IsNode(l, th.newHead) && MadeBy(l, th.newHead, t) && !Ever(l, 0, th.newHead) && |l.lin| == |l.gone|
  {
  }

  lemma RecStepRec(cfg: Config, t: Tid, l: List, rec: Recycler, th: Thread, rec': Recycler, th': Thread)
    requires ListInv(cfg, l) && ThreadInv(cfg, t, l, th) && RecInv(l, rec) && ThreadRec(t, l, rec, th)
    requires RecStep(t, l, rec, th, rec', th')
    ensures RecKept(t, l, rec, rec', th')
  {
    hide ListInv, RecInv, ThreadRec, RecKept, SearchInv, GuardInv, OwnerInv, AddInv, RemoveInv, GrowInv, FindInv;
    if th.pc.Outside? {
      EnterStep(cfg, t, l, rec, th, rec', th');
    } else if th.pc.Idle? {
      LeaveStep(t, l, rec, th, rec', th');
    } else if th.pc.Recycle? {
      RetiredIsGone(cfg, t, l, th);
      RecycleStep(t, l, rec, th, if th.op.Remove? then th.target else th.oldHead, rec', th');
    } else if th.pc.GDestroy? {
      LostHeadIsPrivate(cfg, t, l, th);
      LostHeadStep(t, l, rec, th, rec', th');
    } else {
      ReleaseStepRec(cfg, t, l, rec, th, rec', th');
    }
  }

  lemma ReleaseStepRec(cfg: Config, t: Tid, l: List, rec: Recycler, th: Thread, rec': Recycler, th': Thread)
    requires ListInv(cfg, l) && FlowInv(th) && RecInv(l, rec) && ThreadRec(t, l, rec, th)
    requires RecStep(t, l, rec, th, rec', th')
    requires !th.pc.Outside? && !th.pc.Idle? && !th.pc.Recycle? && !th.pc.GDestroy?
    ensures RecKept(t, l, rec, rec', th')
  {
    hide ListInv, RecInv, ThreadRec, RecKept, FlowInv;
    if th.pc.LDirty? || th.pc.LRefs? || (th.pc.LTest? && (rec.bin == [] || rec.refs > 1)) {
      LooksStep(t, l, rec, th, th');
    } else if th.pc.LLock? {
      LockStep(t, l, rec, th, rec', th');
    } else if th.pc.LTest? {
      CollectStep(t, l, rec, th, rec', th');
    } else if th.pc.LSwap? {
      SwapBinStep(t, l, rec, th, rec', th');
    } else if th.pc.LDestroy? && th.batch != [] {
      FreeStep(cfg, t, l, rec, th, rec', th');
    } else if th.pc.LDestroy? {
      BatchDoneStep(t, l, rec, th, rec', th');
    } else {
      ExitStep(t, l, rec, th, rec', th');
    }
  }

  // ---------- all steps ----------

  lemma ThreadStepKeepsRec(cfg: Config, t: Tid, l: List, rec: Recycler, th: Thread, l': List, rec': Recycler,
      th': Thread)
    requires ListInv(cfg, l) && ThreadInv(cfg, t, l, th) && RecInv(l, rec) && ThreadRec(t, l, rec, th)
    requires ThreadStep(cfg, t, l, rec, th, l', rec', th') && Evolve(t, l, l')
    ensures RecInv(l', rec') && ThreadRec(t, l', rec', th')
    ensures rec' == rec || (l' == l && RecEvolve(t, l, rec, rec'))
  {
    hide ListInv, ThreadInv, RecInv, ThreadRec, Evolve, SafeAccess, CallStep, ReadStep, WriteStep, RecStep, RecEvolve;
    if rec' == rec && WriteStep(cfg, t, l, rec, th, l', th') {
      WriteStepRec(cfg, t, l, rec, th, l', th');
    } else if rec' == rec && ReadStep(cfg, l, rec, th, th') {
      FlowOf(cfg, t, l, th);
      ReadStepRec(cfg, t, l, rec, th, th');
    } else if rec' == rec && CallStep(cfg, th, th') {
      CallStepRec(cfg, t, l, rec, th, th');
    } else {
      RecStepRec(cfg, t, l, rec, th, rec', th');
    }
  }

  lemma StepKeepsRec(cfg: Config, s: State, t: Tid, s': State)
    requires FullInv(cfg, s) && StepBy(cfg, s, t, s') && Evolve(t, s.l, s'.l)
    ensures RecInv(s'.l, s'.rec)
    ensures forall u :: 0 <= u < |s'.threads| ==> ThreadRec(u, s'.l, s'.rec, s'.threads[u])
  {
    hide ListInv, ThreadInv, RecInv, ThreadRec, Evolve, ThreadStep, RecEvolve;
    ThreadStepKeepsRec(cfg, t, s.l, s.rec, s.threads[t], s'.l, s'.rec, s'.threads[t]);
    forall u | 0 <= u < |s'.threads| && u != t ensures ThreadRec(u, s'.l, s'.rec, s'.threads[u]) {
      if s'.rec == s.rec {
        RecAfterWrite(t, u, s.l, s'.l, s.rec, s.threads[u]);
      } else {
        RecAfterRec(cfg, t, u, s.l, s.rec, s'.rec, s.threads[u]);
      }
    }
  }

  lemma FlowOf(cfg: Config, t: Tid, l: List, th: Thread)
    requires ThreadInv(cfg, t, l, th)
    ensures FlowInv(th)
  {
  }

  lemma StepKeepsFull(cfg: Config, s: State, t: Tid, s': State)
    requires FullInv(cfg, s) && StepBy(cfg, s, t, s')
    ensures FullInv(cfg, s') && Evolve(t, s.l, s'.l)
  {
    hide Inv, RecInv, ThreadRec, Evolve, StepBy;
    StepKeepsInv(cfg, s, t, s');
    StepKeepsRec(cfg, s, t, s');
  }

  lemma InitFull(cfg: Config, s: State)
    requires Init(cfg, s)
    ensures FullInv(cfg, s)
  {
    InitInv(cfg, s);
    hide Inv;
  }
}
