/** Safe reclamation: no accessor ever dereferences a destroyed node, and no node
    is destroyed twice. */
module SkipListReclaim {

  import opened Common
  import opened SkipListState
  import opened SkipListInvariant
  import opened SkipListProof
  import opened SkipListSteps

  // ---------- invariant ----------

  /** x had left the list before any accessor that may still use nodes began. */
  ghost predicate Dead(l: List, rec: Recycler, x: nat) {
    Gone(l, 0, x) && forall u :: u in rec.eras ==> |rec.eras[u]| > 0 && x in rec.eras[u][0]
  }

  predicate NoDup(s: seq<nat>) {
    forall i, j :: 0 <= i < j < |s| ==> s[i] != s[j]
  }

  predicate Queued(rec: Recycler, x: nat) {
    x in rec.bin || x in rec.pending
  }

  ghost predicate BinInv(l: List, rec: Recycler) {
    && (forall x :: x in rec.binned ==> Gone(l, 0, x))
    && NoDup(rec.bin) && NoDup(rec.pending)
    && (forall x :: x in rec.bin ==> x !in rec.pending)
    && (forall x :: Queued(rec, x) ==> x in rec.binned && x !in rec.freed)
    && (forall x :: x in rec.pending ==> Dead(l, rec, x))
    && (rec.collector.None? ==> rec.pending == [])
  }

  ghost predicate FreedInv(l: List, rec: Recycler) {
    forall x :: x in rec.freed ==> IsNode(l, x) && (Ever(l, 0, x) ==> x in rec.binned && Dead(l, rec, x))
  }

  ghost predicate RefInv(l: List, rec: Recycler) {
    && rec.refs == |rec.refset| && rec.eras.Keys <= rec.refset
    && (forall u :: u in rec.eras ==> WinOk(l, rec.eras[u]))
    && (rec.collector.Some? ==> rec.collector.value in rec.refset)
  }

  ghost predicate RecInv(l: List, rec: Recycler) {
    BinInv(l, rec) && FreedInv(l, rec) && RefInv(l, rec)
  }

  /** The accessor may use nodes. */
  predicate Inside(pc: Pc) {
    && !pc.Outside? && !pc.LDirty? && !pc.LRefs? && !pc.LLock? && !pc.LTest? && !pc.LSwap? && !pc.LDestroy?
    && !pc.LDec? && !pc.LDecIn?
  }

  ghost predicate EraInv(u: Tid, rec: Recycler, th: Thread) {
    && (th.pc.Outside? <==> u !in rec.refset)
    && (Inside(th.pc) <==> u in rec.eras)
    && (UsesWin(th.pc) ==> |rec.eras[u]| == |th.win| && forall k :: 0 <= k < |th.win| ==> rec.eras[u][k] <= th.win[k])
  }

  ghost predicate CollectInv(u: Tid, l: List, rec: Recycler, th: Thread) {
    && (rec.lock == Some(u) <==> th.pc.LTest? || th.pc.LSwap? || th.pc.LDecIn?)
    && (rec.collector == Some(u) <==> th.pc.LSwap? || th.pc.LDestroy?)
    && (th.pc.LSwap? ==> rec.pending == [] && forall x :: x in rec.bin ==> Dead(l, rec, x))
    && (th.pc.LDestroy? ==> th.batch == rec.pending)
  }

  predicate MarkedBy(l: List, x: nat, t: Tid) {
    x < |l.nodes| && l.nodes[x].marked && l.nodes[x].marker == t
  }

  ghost predicate OwnNodesInv(u: Tid, l: List, rec: Recycler, th: Thread) {
    && (th.pc.ALink? || th.pc.AFull? ==> th.target !in rec.freed)
    && (th.pc.GCas? || th.pc.GDestroy? ==> th.newHead !in rec.freed)
    && (th.isMarked && !th.pc.RUnlock? ==> th.target !in rec.binned && MarkedBy(l, th.target, u))
    && ((th.pc.GUnlock? && th.newHead != NIL) || (th.pc.Recycle? && th.op.Add?) ==>
          th.oldHead !in rec.binned && MarkedBy(l, th.oldHead, u))
  }

  ghost predicate ThreadRec(u: Tid, l: List, rec: Recycler, th: Thread) {
    EraInv(u, rec, th) && CollectInv(u, l, rec, th) && OwnNodesInv(u, l, rec, th)
  }

  ghost predicate FullInv(cfg: Config, s: State) {
    && Inv(cfg, s) && RecInv(s.l, s.rec)
    && forall t :: 0 <= t < |s.threads| ==> ThreadRec(t, s.l, s.rec, s.threads[t])
  }

  // ---------- every step is safe ----------

  lemma RegUsable(cfg: Config, u: Tid, l: List, rec: Recycler, win: seq<set<nat>>, k: nat, x: nat)
    requires ListInv(cfg, l) && RecInv(l, rec) && u in rec.eras && Reg(l, win, k, x)
    requires |rec.eras[u]| == |win| && rec.eras[u][k] <= win[k]
    ensures Usable(l, rec.freed, x)
  {
    EverAtBottom(cfg, l, k, x);
    assert WinOk(l, rec.eras[u]) && k < Height(l, x);
    assert x in rec.freed ==> Dead(l, rec, x);
  }

  lemma HeadUsable(cfg: Config, u: Tid, l: List, rec: Recycler)
    requires ListInv(cfg, l) && RecInv(l, rec) && u in rec.eras
    ensures Usable(l, rec.freed, l.head) && Height(l, l.head) > 0
  {
    assert NodeOk(cfg, l.nodes[l.head]) && WinOk(l, rec.eras[u]);
    HeadReg(cfg, l, rec.eras[u], 0);
    RegUsable(cfg, u, l, rec, rec.eras[u], 0, l.head);
  }

  /** Both a node of the search and the node its link leads to may be dereferenced. */
  lemma FollowUsable(cfg: Config, u: Tid, l: List, rec: Recycler, th: Thread, k: nat, x: nat)
    requires ListInv(cfg, l) && RecInv(l, rec) && EraInv(u, rec, th) && UsesWin(th.pc) && WinOk(l, th.win)
    requires Reg(l, th.win, k, x)
    ensures CanFollow(l, rec.freed, k, x)
  {
    hide ListInv, RecInv, WinOk;
    RegNext(cfg, l, th.win, k, x);
    RegUsable(cfg, u, l, rec, th.win, k, x);
    if Skip(l, k, x) != NIL {
      RegUsable(cfg, u, l, rec, th.win, k, Skip(l, k, x));
    }
  }

  lemma SearchSafe(cfg: Config, u: Tid, l: List, rec: Recycler, th: Thread)
    requires ListInv(cfg, l) && RecInv(l, rec) && SearchInv(cfg, l, th) && FindInv(l, th) && EraInv(u, rec, th)
    requires Searching(th.pc) || th.pc.FHead? || Finding(th.pc) || th.pc.AHeight? || th.pc.GHead?
    ensures SafeAccess(cfg, l, rec, th)
  {
    if th.pc.SNode? {
      FollowUsable(cfg, u, l, rec, th, th.layer, th.pred);
    } else if th.pc.FDown? {
      FollowUsable(cfg, u, l, rec, th, th.layer - 1, th.pred);
    } else if th.pc.FRight? {
      FollowUsable(cfg, u, l, rec, th, th.layer, th.pred);
    } else if th.pc.FMarked? {
      RegUsable(cfg, u, l, rec, th.win, 0, th.foundNode);
    } else {
      HeadUsable(cfg, u, l, rec);
    }
  }

  lemma FoundSafe(cfg: Config, u: Tid, l: List, rec: Recycler, th: Thread)
    requires ListInv(cfg, l) && RecInv(l, rec) && SearchInv(cfg, l, th) && EraInv(u, rec, th)
    requires th.pc.AMarked? || th.pc.AWait? || th.pc.RFull? || th.pc.RMarked? || th.pc.RLock?
    ensures SafeAccess(cfg, l, rec, th)
  {
    RegUsable(cfg, u, l, rec, th.win, th.foundLayer, th.foundNode);
  }

  lemma LockSafe(cfg: Config, u: Tid, l: List, rec: Recycler, th: Thread)
    requires ListInv(cfg, l) && RecInv(l, rec) && SearchInv(cfg, l, th) && GuardInv(u, l, th) && EraInv(u, rec, th)
    requires Locking(th.pc) && (th.pc.LkSucc? ==> th.succs[th.layer] != NIL)
    ensures SafeAccess(cfg, l, rec, th)
  {
    var j := th.layer;
    assert Entry(l, th, j);
    RegUsable(cfg, u, l, rec, th.win, j, th.preds[j]);
    RegNext(cfg, l, th.win, j, th.preds[j]);
    if th.pc.LkSucc? {
      RegUsable(cfg, u, l, rec, th.win, j, th.succs[j]);
    }
  }

  lemma TargetSafe(cfg: Config, u: Tid, l: List, rec: Recycler, th: Thread)
    requires ListInv(cfg, l) && RecInv(l, rec) && SearchInv(cfg, l, th) && OwnerInv(u, l, th) && EraInv(u, rec, th)
    requires th.pc.RMark? || th.pc.RUnlock? || th.pc.GLock? || th.pc.GCopy? || th.pc.GUnlock?
    ensures SafeAccess(cfg, l, rec, th)
  {
    if th.pc.RMark? || th.pc.RUnlock? {
      RegUsable(cfg, u, l, rec, th.win, 0, th.target);
    } else {
      RegUsable(cfg, u, l, rec, th.win, 0, th.oldHead);
    }
  }

  lemma CasSafe(cfg: Config, u: Tid, l: List, rec: Recycler, th: Thread)
    requires ListInv(cfg, l) && RecInv(l, rec) && SearchInv(cfg, l, th) && OwnerInv(u, l, th) && GrowInv(cfg, u, l, th)
    requires EraInv(u, rec, th) && OwnNodesInv(u, l, rec, th) && th.pc.GCas?
    ensures SafeAccess(cfg, l, rec, th)
  {
    RegUsable(cfg, u, l, rec, th.win, 0, th.oldHead);
  }

  lemma UnlockSafe(cfg: Config, u: Tid, l: List, rec: Recycler, th: Thread)
    requires ListInv(cfg, l) && RecInv(l, rec) && SearchInv(cfg, l, th) && GuardInv(u, l, th) && EraInv(u, rec, th)
    requires th.pc.Unlock?
    ensures SafeAccess(cfg, l, rec, th)
  {
    if th.guards != [] {
      RegUsable(cfg, u, l, rec, th.win, 0, th.guards[|th.guards| - 1]);
    }
  }

  lemma LinkSafe(cfg: Config, u: Tid, l: List, rec: Recycler, th: Thread)
    requires ListInv(cfg, l) && RecInv(l, rec) && ThreadInv(cfg, u, l, th) && EraInv(u, rec, th)
    requires OwnNodesInv(u, l, rec, th) && (th.pc.ALink? || th.pc.AFull?)
    ensures SafeAccess(cfg, l, rec, th)
  {
    assert NodeOk(cfg, l.nodes[th.target]);
    if th.pc.ALink? {
      AddCanLink(cfg, u, l, th);
      assert Entry(l, th, th.layer);
      RegUsable(cfg, u, l, rec, th.win, th.layer, th.preds[th.layer]);
    }
  }

  lemma UnlinkSafe(cfg: Config, u: Tid, l: List, rec: Recycler, th: Thread)
    requires ListInv(cfg, l) && RecInv(l, rec) && ThreadInv(cfg, u, l, th) && EraInv(u, rec, th) && th.pc.RUnlink?
    ensures SafeAccess(cfg, l, rec, th)
  {
    RemoveCanUnlink(cfg, u, l, th);
    assert Entry(l, th, th.layer);
    RegUsable(cfg, u, l, rec, th.win, th.layer, th.preds[th.layer]);
    RegUsable(cfg, u, l, rec, th.win, 0, th.target);
  }

  lemma CollectSafe(cfg: Config, u: Tid, l: List, rec: Recycler, th: Thread)
    requires ListInv(cfg, l) && BinInv(l, rec) && CollectInv(u, l, rec, th) && SearchInv(cfg, l, th) && th.pc.LDestroy?
    ensures SafeAccess(cfg, l, rec, th)
  {
    if th.batch != [] {
      var x := th.batch[0];
      assert Queued(rec, x) && Dead(l, rec, x) && GoneOk(l, 0, x);
    }
  }

  lemma RestSafe(cfg: Config, l: List, rec: Recycler, th: Thread)
    requires ListInv(cfg, l) && SearchInv(cfg, l, th)
    requires !Searching(th.pc) && !th.pc.FHead? && !Finding(th.pc) && !th.pc.AHeight? && !Growing(th.pc)
    requires !th.pc.AMarked? && !th.pc.AWait? && !th.pc.RFull? && !th.pc.RMarked? && !th.pc.RLock? && !th.pc.RMark?
    requires !Locking(th.pc) && !th.pc.ALink? && !th.pc.AFull? && !th.pc.RUnlink? && !th.pc.RUnlock? && !th.pc.Unlock?
    requires !th.pc.LDestroy?
    ensures SafeAccess(cfg, l, rec, th)
  {
  }

  lemma DestroySafe(cfg: Config, l: List, rec: Recycler, th: Thread)
    requires ListInv(cfg, l) && SearchInv(cfg, l, th) && th.pc.GDestroy?
    ensures SafeAccess(cfg, l, rec, th)
  {
  }

  /** Every pointer an accessor is about to dereference leads to a node that is not destroyed. */
  lemma SafeFromInv(cfg: Config, u: Tid, l: List, rec: Recycler, th: Thread)
    requires ListInv(cfg, l) && RecInv(l, rec) && ThreadInv(cfg, u, l, th) && ThreadRec(u, l, rec, th)
    ensures SafeAccess(cfg, l, rec, th)
  {
    hide SafeAccess, ListInv, SearchInv, GuardInv, OwnerInv, AddInv, RemoveInv, GrowInv, FindInv, FlowInv;
    hide BinInv, FreedInv, RefInv, EraInv, CollectInv, OwnNodesInv;
    if Searching(th.pc) || th.pc.FHead? || Finding(th.pc) || th.pc.AHeight? || th.pc.GHead? {
      SearchSafe(cfg, u, l, rec, th);
    } else if th.pc.AMarked? || th.pc.AWait? || th.pc.RFull? || th.pc.RMarked? || th.pc.RLock? {
      FoundSafe(cfg, u, l, rec, th);
    } else if Locking(th.pc) {
      SuccIsNode(cfg, u, l, th);
      LockSafe(cfg, u, l, rec, th);
    } else if th.pc.RMark? || th.pc.RUnlock? || th.pc.GLock? || th.pc.GCopy? || th.pc.GUnlock? {
      TargetSafe(cfg, u, l, rec, th);
    } else if th.pc.GCas? {
      CasSafe(cfg, u, l, rec, th);
    } else if th.pc.GDestroy? {
      DestroySafe(cfg, l, rec, th);
    } else if th.pc.Unlock? {
      UnlockSafe(cfg, u, l, rec, th);
    } else if th.pc.ALink? || th.pc.AFull? {
      LinkSafe(cfg, u, l, rec, th);
    } else if th.pc.RUnlink? {
      UnlinkSafe(cfg, u, l, rec, th);
    } else if th.pc.LDestroy? {
      CollectSafe(cfg, u, l, rec, th);
    } else {
      RestSafe(cfg, l, rec, th);
    }
  }

  lemma SuccIsNode(cfg: Config, u: Tid, l: List, th: Thread)
    requires ThreadInv(cfg, u, l, th) && Locking(th.pc)
    ensures th.pc.LkSucc? ==> th.layer < |th.succs| && th.succs[th.layer] != NIL
  {
  }
}
