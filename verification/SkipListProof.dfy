/** Every step of the skip list keeps its invariant. */
module SkipListProof {

  import opened Common
  import opened SkipListState
  import opened SkipListInvariant
  import opened SkipListStability
  import opened SkipListWrites
  import opened SkipListLinks

  // ---------- the list after a write ----------

  lemma EverAtBottom(cfg: Config, l: List, k: nat, x: nat)
    requires ListInv(cfg, l) && Ever(l, k, x)
    ensures IsNode(l, x) && Ever(l, 0, x) && k < l.nodes[x].height == |l.nodes[x].skip|
  {
    EverIsNode(l, k, x);
    assert DownOk(l, 0, k, x) && NodeOk(cfg, l.nodes[x]);
  }

  /** A validated predecessor is linked: nodes leave a layer only after they are marked. */
  lemma ValidatedIsLinked(cfg: Config, u: Tid, l: List, th: Thread, j: nat)
    requires ListInv(cfg, l) && Validated(l, u, th, j) && Entry(l, th, j)
    ensures th.preds[j] in l.lin[j] && IsNode(l, th.preds[j])
    ensures j < l.nodes[th.preds[j]].height == |l.nodes[th.preds[j]].skip|
  {
    EverAtBottom(cfg, l, j, th.preds[j]);
    assert th.preds[j] !in l.gone[j];
  }

  lemma AddCanLink(cfg: Config, t: Tid, l: List, th: Thread)
    requires ListInv(cfg, l) && ThreadInv(cfg, t, l, th) && th.pc.ALink?
    ensures th.layer < |th.preds| == |th.succs| && CanLink(l, t, th.layer, th.preds[th.layer], th.target)
    ensures Skip(l, th.layer, th.preds[th.layer]) == th.succs[th.layer]
  {
    var k := th.layer;
    assert Validated(l, t, th, k) && Entry(l, th, k);
    ValidatedIsLinked(cfg, t, l, th, k);
    HeightBound(cfg, l, th.target);
    assert !Ever(l, k, th.target);
  }

  /** The link a remover found at a validated predecessor leads to its node. */
  lemma PredOfTarget(cfg: Config, t: Tid, l: List, th: Thread, k: nat)
    requires ListInv(cfg, l) && Entry(l, th, k) && Validated(l, t, th, k)
    requires IsItem(l, th.target) && l.nodes[th.target].key == th.key && k < |l.lin| && th.target in l.lin[k]
    ensures Skip(l, k, th.preds[k]) == th.target
  {
    ValidatedIsLinked(cfg, t, l, th, k);
    assert NextOk(l, k, th.preds[k]) && Precedes(l, th.preds[k], th.target);
  }

  lemma RemoveCanUnlink(cfg: Config, t: Tid, l: List, th: Thread)
    requires ListInv(cfg, l) && ThreadInv(cfg, t, l, th) && th.pc.RUnlink?
    ensures th.layer < |th.preds| == |th.succs| && CanUnlink(l, t, th.layer, th.preds[th.layer], th.target)
  {
    var k := th.layer;
    assert Validated(l, t, th, k) && Entry(l, th, k);
    ValidatedIsLinked(cfg, t, l, th, k);
    assert Ever(l, k, th.target) && !Gone(l, k, th.target);
    EverAtBottom(cfg, l, k, th.target);
    PredOfTarget(cfg, t, l, th, k);
    forall j | k < j < |l.lin| && j < l.nodes[th.target].height ensures th.target in l.gone[j] {
      assert Gone(l, j, th.target);
    }
  }

  lemma GrowCanSwap(cfg: Config, t: Tid, l: List, th: Thread)
    requires ListInv(cfg, l) && ThreadInv(cfg, t, l, th) && th.pc.GCas? && l.head == th.oldHead
    ensures CanSwap(cfg, l, t, th.oldHead, th.newHead)
  {
    assert !Ever(l, 0, th.newHead) && l.head in l.lin[0];
  }

  lemma LockSteps(cfg: Config, t: Tid, l: List, rec: Recycler, th: Thread, l': List, th': Thread)
    requires ListInv(cfg, l) && ThreadInv(cfg, t, l, th) && SafeAccess(cfg, l, rec, th)
             && WriteStep(cfg, t, l, rec, th, l', th')
    requires th.pc.RLock? || th.pc.Lk? || th.pc.GLock?
    ensures ListInv(cfg, l') && Evolve(t, l, l')
  {
    if th.pc.RLock? {
      EverAtBottom(cfg, l, th.foundLayer, th.foundNode);
      LockKeeps(cfg, t, l, th.foundNode, Some(t));
    } else if th.pc.Lk? {
      assert Entry(l, th, th.layer);
      EverAtBottom(cfg, l, th.layer, th.preds[th.layer]);
      LockKeeps(cfg, t, l, th.preds[th.layer], Some(t));
    } else {
      LockKeeps(cfg, t, l, th.oldHead, Some(t));
    }
  }

  lemma UnlockSteps(cfg: Config, t: Tid, l: List, rec: Recycler, th: Thread, l': List, th': Thread)
    requires ListInv(cfg, l) && ThreadInv(cfg, t, l, th) && SafeAccess(cfg, l, rec, th)
             && WriteStep(cfg, t, l, rec, th, l', th')
    requires th.pc.Unlock? || th.pc.RUnlock? || th.pc.GUnlock?
    ensures ListInv(cfg, l') && Evolve(t, l, l')
  {
    LockKeeps(cfg, t, l, if th.pc.Unlock? then th.guards[|th.guards| - 1]
                         else if th.pc.RUnlock? then th.target else th.oldHead, None);
  }

  lemma AddSteps(cfg: Config, t: Tid, l: List, rec: Recycler, th: Thread, l': List, th': Thread)
    requires ListInv(cfg, l) && ThreadInv(cfg, t, l, th) && SafeAccess(cfg, l, rec, th)
             && WriteStep(cfg, t, l, rec, th, l', th')
    requires th.pc.ACreate? || Adding(th.pc)
    ensures ListInv(cfg, l') && Evolve(t, l, l')
  {
    if th.pc.ACreate? {
      AllocKeeps(cfg, t, l, NewNode(th.height, th.key, t));
    } else if th.pc.ALink? {
      AddCanLink(cfg, t, l, th);
      LinkKeeps(cfg, l, t, th.layer, th.preds[th.layer], th.target);
    } else if th.pc.AFull? {
      FullKeeps(cfg, t, l, th.target);
    } else {
      CountKeeps(cfg, t, l, l'.size, l'.counted);
    }
  }

  lemma RemoveSteps(cfg: Config, t: Tid, l: List, rec: Recycler, th: Thread, l': List, th': Thread)
    requires ListInv(cfg, l) && ThreadInv(cfg, t, l, th) && SafeAccess(cfg, l, rec, th)
             && WriteStep(cfg, t, l, rec, th, l', th')
    requires th.pc.RMark? || th.pc.RUnlink? || th.pc.RCount?
    ensures ListInv(cfg, l') && Evolve(t, l, l')
  {
    if th.pc.RMark? {
      if Marked(l, th.target) {
        NoChangeEvolves(cfg, t, l);
      } else {
        MarkKeeps(cfg, t, l, th.target);
      }
    } else if th.pc.RUnlink? {
      RemoveCanUnlink(cfg, t, l, th);
      UnlinkKeeps(cfg, l, t, th.layer, th.preds[th.layer], th.target);
    } else {
      CountKeeps(cfg, t, l, l'.size, l'.counted);
    }
  }

  lemma GrowSteps(cfg: Config, t: Tid, l: List, rec: Recycler, th: Thread, l': List, th': Thread)
    requires ListInv(cfg, l) && ThreadInv(cfg, t, l, th) && SafeAccess(cfg, l, rec, th)
             && WriteStep(cfg, t, l, rec, th, l', th')
    requires th.pc.GCopy? || th.pc.GCas?
    ensures ListInv(cfg, l') && Evolve(t, l, l')
  {
    if th.pc.GCopy? {
      assert FullOk(l, th.oldHead);
      AllocKeeps(cfg, t, l, l'.nodes[|l.nodes|]);
    } else if l.head == th.oldHead {
      GrowCanSwap(cfg, t, l, th);
      SwapKeeps(cfg, l, t, th.oldHead, th.newHead);
    } else {
      NoChangeEvolves(cfg, t, l);
    }
  }

  lemma WriteStepList(cfg: Config, t: Tid, l: List, rec: Recycler, th: Thread, l': List, th': Thread)
    requires ListInv(cfg, l) && ThreadInv(cfg, t, l, th) && SafeAccess(cfg, l, rec, th)
             && WriteStep(cfg, t, l, rec, th, l', th')
    ensures ListInv(cfg, l') && Evolve(t, l, l')
  {
    if th.pc.RLock? || th.pc.Lk? || th.pc.GLock? {
      LockSteps(cfg, t, l, rec, th, l', th');
    } else if th.pc.Unlock? || th.pc.RUnlock? || th.pc.GUnlock? {
      UnlockSteps(cfg, t, l, rec, th, l', th');
    } else if th.pc.ACreate? || Adding(th.pc) {
      AddSteps(cfg, t, l, rec, th, l', th');
    } else if th.pc.RMark? || th.pc.RUnlink? || th.pc.RCount? {
      RemoveSteps(cfg, t, l, rec, th, l', th');
    } else {
      GrowSteps(cfg, t, l, rec, th, l', th');
    }
  }
}
