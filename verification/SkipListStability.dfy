/** A step of one thread keeps the invariant of every other thread. */
module SkipListStability {

  import opened Common
  import opened SkipListState
  import opened SkipListInvariant

  lemma LinkOf(t: Tid, a: List, b: List, k: nat, x: nat)
    requires Evolve(t, a, b) && k < |a.lin|
    ensures LinkEvolve(t, a, b, k, x)
  {
  }

  lemma RegStable(t: Tid, a: List, b: List, win: seq<set<nat>>, k: nat, x: nat)
    requires Evolve(t, a, b) && Reg(a, win, k, x)
    ensures Reg(b, win, k, x)
  {
    LinkOf(t, a, b, k, x);
  }

  lemma WinStable(t: Tid, a: List, b: List, win: seq<set<nat>>)
    requires Order(a) && Evolve(t, a, b) && WinOk(a, win)
    ensures WinOk(b, win)
  {
    forall k, x | 0 <= k < |win| && x in win[k] ensures x in b.gone[k] {
      LinkOf(t, a, b, k, x);
    }
    forall k, x | 0 <= k < |win| && Reg(b, win, k, x) ensures Skip(b, k, x) == NIL || Skip(b, k, x) !in win[k] {
      LinkOf(t, a, b, k, x);
    }
    forall j, k, x | 0 <= j <= k < |win| && x in win[j] && k < Height(b, x) ensures x in win[k] {
      EverIsNode(a, j, x);
      assert NodeEvolve(t, a.nodes[x], b.nodes[x]) && Height(a, x) == Height(b, x);
      assert x in win[j] && k < Height(a, x);
    }
  }

  lemma EntryStable(t: Tid, a: List, b: List, th: Thread, j: nat)
    requires Evolve(t, a, b) && Entry(a, th, j)
    ensures Entry(b, th, j)
  {
    RegStable(t, a, b, th.win, j, th.preds[j]);
    assert NodeEvolve(t, a.nodes[th.preds[j]], b.nodes[th.preds[j]]);
    if th.succs[j] != NIL {
      RegStable(t, a, b, th.win, j, th.succs[j]);
      assert NodeEvolve(t, a.nodes[th.succs[j]], b.nodes[th.succs[j]]);
    }
  }

  lemma PrecedesStable(t: Tid, a: List, b: List, x: nat, y: nat)
    requires Evolve(t, a, b) && Precedes(a, x, y)
    ensures Precedes(b, x, y)
  {
    assert NodeEvolve(t, a.nodes[x], b.nodes[x]) && NodeEvolve(t, a.nodes[y], b.nodes[y]);
  }

  lemma EntriesStable(t: Tid, a: List, b: List, th: Thread, lo: nat)
    requires Evolve(t, a, b) && Entries(a, th, lo)
    ensures Entries(b, th, lo)
  {
    forall j | lo <= j <= th.max ensures Entry(b, th, j) {
      EntryStable(t, a, b, th, j);
    }
    forall i, j | lo <= i < j <= th.max ensures th.preds[j] == th.preds[i] || Precedes(b, th.preds[j], th.preds[i]) {
      if th.preds[j] != th.preds[i] {
        PrecedesStable(t, a, b, th.preds[j], th.preds[i]);
      }
    }
    if th.foundLayer >= 0 {
      RegStable(t, a, b, th.win, th.foundLayer, th.foundNode);
      assert NodeEvolve(t, a.nodes[th.foundNode], b.nodes[th.foundNode]);
    }
  }

  /** Holds for the acting thread too. */
  lemma SearchStable(cfg: Config, t: Tid, a: List, b: List, th: Thread)
    requires Order(a) && Evolve(t, a, b) && SearchInv(cfg, a, th)
    ensures SearchInv(cfg, b, th)
  {
    if UsesWin(th.pc) {
      WinStable(t, a, b, th.win);
    }
    if Searched(th.pc) {
      EntriesStable(t, a, b, th, 0);
    }
    if th.pc.SNode? {
      EntriesStable(t, a, b, th, th.layer + 1);
      RegStable(t, a, b, th.win, th.layer, th.pred);
      assert NodeEvolve(t, a.nodes[th.pred], b.nodes[th.pred]);
      forall j | th.layer < j <= th.max ensures th.preds[j] == th.pred || Precedes(b, th.preds[j], th.pred) {
        if th.preds[j] != th.pred {
          PrecedesStable(t, a, b, th.preds[j], th.pred);
        }
      }
    }
  }

  lemma ValidatedStable(t: Tid, u: Tid, a: List, b: List, th: Thread, j: nat)
    requires u != t && Evolve(t, a, b) && Validated(a, u, th, j) && Ever(a, j, th.preds[j])
    ensures Validated(b, u, th, j)
  {
    LinkOf(t, a, b, j, th.preds[j]);
    assert NodeEvolve(t, a.nodes[th.preds[j]], b.nodes[th.preds[j]]);
  }

  lemma GuardsStable(t: Tid, u: Tid, a: List, b: List, th: Thread)
    requires u != t && Evolve(t, a, b) && GuardsOk(u, a, th)
    ensures GuardsOk(u, b, th)
  {
    forall i | 0 <= i < |th.guards|
      ensures LockedBy(b, th.guards[i], u) && Reg(b, th.win, 0, th.guards[i]) && Before(b, th.guards[i], th.key)
    {
      RegStable(t, a, b, th.win, 0, th.guards[i]);
      assert NodeEvolve(t, a.nodes[th.guards[i]], b.nodes[th.guards[i]]);
    }
    forall i, j | 0 <= i < j < |th.guards| ensures Precedes(b, th.guards[j], th.guards[i]) {
      PrecedesStable(t, a, b, th.guards[j], th.guards[i]);
    }
  }

  lemma CheckedRange(u: Tid, l: List, th: Thread, j: nat)
    requires LockPosition(u, l, th) && CheckedFrom(th) <= j < CheckedTo(th)
    ensures Searched(th.pc) && j <= th.max
  {
  }

  lemma LockPositionStable(t: Tid, u: Tid, a: List, b: List, th: Thread)
    requires u != t && Evolve(t, a, b) && LockPosition(u, a, th)
    ensures LockPosition(u, b, th)
  {
    if th.pc.LkCheck? || th.pc.LkSucc? {
      LockStable(t, u, a, b, th.preds[th.layer]);
    }
  }

  lemma GuardStable(t: Tid, u: Tid, a: List, b: List, th: Thread)
    requires u != t && Evolve(t, a, b) && GuardInv(u, a, th)
    requires Searched(th.pc) ==> Entries(a, th, 0)
    ensures GuardInv(u, b, th)
  {
    GuardsStable(t, u, a, b, th);
    LockPositionStable(t, u, a, b, th);
    forall j | CheckedFrom(th) <= j < CheckedTo(th) ensures Validated(b, u, th, j) {
      CheckedRange(u, a, th, j);
      assert Entry(a, th, j);
      ValidatedStable(t, u, a, b, th, j);
    }
  }

  lemma LockStable(t: Tid, u: Tid, a: List, b: List, x: nat)
    requires u != t && Evolve(t, a, b)
    ensures LockedBy(b, x, u) <==> LockedBy(a, x, u)
  {
    if x < |a.nodes| {
      assert NodeEvolve(t, a.nodes[x], b.nodes[x]);
    }
  }

  lemma OwnerStable(t: Tid, u: Tid, a: List, b: List, th: Thread)
    requires u != t && Evolve(t, a, b) && OwnerInv(u, a, th)
    ensures OwnerInv(u, b, th)
  {
    forall x: nat ensures LockedBy(b, x, u) <==> LockedBy(a, x, u) {
      LockStable(t, u, a, b, x);
    }
    if HoldsTarget(th) {
      assert NodeEvolve(t, a.nodes[th.target], b.nodes[th.target]);
      if UsesWin(th.pc) {
        RegStable(t, a, b, th.win, 0, th.target);
      }
    }
    if th.pc.GLock? || HoldsOldHead(th.pc) {
      RegStable(t, a, b, th.win, 0, th.oldHead);
    }
  }

  lemma AddStable(t: Tid, u: Tid, a: List, b: List, th: Thread)
    requires u != t && Evolve(t, a, b) && AddInv(u, a, th) && (Adding(th.pc) ==> th.height <= |a.lin|)
    ensures AddInv(u, b, th)
  {
    if Adding(th.pc) {
      assert NodeEvolve(t, a.nodes[th.target], b.nodes[th.target]);
      forall k | 0 <= k < th.height ensures Ever(b, k, th.target) <==> Ever(a, k, th.target) {
        LinkOf(t, a, b, k, th.target);
      }
    }
  }

  lemma GoneStable(t: Tid, u: Tid, a: List, b: List, k: nat, x: nat)
    requires u != t && Evolve(t, a, b) && k < |a.lin|
    ensures Gone(a, k, x) ==> Gone(b, k, x)
    ensures LockedBy(a, x, u) ==> (Gone(b, k, x) <==> Gone(a, k, x))
    ensures Ever(a, k, x) ==> Ever(b, k, x)
  {
    LinkOf(t, a, b, k, x);
  }

  lemma RemoveStable(t: Tid, u: Tid, a: List, b: List, th: Thread)
    requires u != t && Evolve(t, a, b) && RemoveInv(a, th) && OwnerInv(u, a, th) && FlowInv(th)
    requires th.isMarked ==> th.height <= |a.lin|
    ensures RemoveInv(b, th)
  {
    if th.isMarked {
      forall k | 0 <= k < th.height
        ensures (Gone(b, k, th.target) <==> Gone(a, k, th.target)) && (Ever(a, k, th.target) ==> Ever(b, k, th.target))
      {
        GoneStable(t, u, a, b, k, th.target);
      }
    }
    if th.isMarked || th.pc.RMark? {
      assert NodeEvolve(t, a.nodes[th.target], b.nodes[th.target]);
    }
    if th.pc.RMarked? || th.pc.RLock? {
      assert NodeEvolve(t, a.nodes[th.foundNode], b.nodes[th.foundNode]);
    }
  }

  /** A head was linked on all its layers, if it was linked at all. */
  lemma HeadEver(cfg: Config, l: List, x: nat, k: nat)
    requires ListInv(cfg, l) && Ever(l, 0, x) && IsNode(l, x) && l.nodes[x].isHead && k < l.nodes[x].height
    ensures Ever(l, k, x)
  {
    if x in l.gone[0] {
      assert DownOk(l, 0, k, x);
    } else {
      assert LinOk(l, 0, x);
    }
  }

  lemma NewHeadStable(cfg: Config, t: Tid, u: Tid, a: List, b: List, th: Thread, k: nat)
    requires u != t && Evolve(t, a, b) && ListInv(cfg, a) && GrowInv(cfg, u, a, th) && OwnerInv(u, a, th)
    requires th.pc.GCas? && k < |a.lin|
    ensures Skip(b, k, th.newHead) == Skip(b, k, th.oldHead)
  {
    LinkOf(t, a, b, k, th.newHead);
    LinkOf(t, a, b, k, th.oldHead);
    assert NodeEvolve(t, a.nodes[th.oldHead], b.nodes[th.oldHead]);
    assert NodeEvolve(t, a.nodes[th.newHead], b.nodes[th.newHead]);
    if k < a.nodes[th.oldHead].height {
      HeadEver(cfg, a, th.oldHead, k);
    } else {
      assert Skip(b, k, th.oldHead) == Skip(a, k, th.oldHead) == NIL;
    }
  }

  lemma NewHeadPrivate(cfg: Config, t: Tid, u: Tid, a: List, b: List, th: Thread)
    requires u != t && Evolve(t, a, b) && GrowInv(cfg, u, a, th)
    requires th.pc.GCas? || th.pc.GDestroy?
    ensures IsNode(b, th.newHead) && b.nodes[th.newHead].lock == None
    ensures b.nodes[th.newHead].marked == a.nodes[th.newHead].marked
    ensures b.nodes[th.newHead].full == a.nodes[th.newHead].full
    ensures forall k :: 0 <= k < |b.lin| ==> !Ever(b, k, th.newHead)
  {
    var n := th.newHead;
    assert NodeEvolve(t, a.nodes[n], b.nodes[n]);
    assert !Ever(a, 0, n);
    assert !LockedBy(b, n, t);
    forall k | 0 <= k < |b.lin| ensures !Ever(b, k, n) {
      LinkOf(t, a, b, k, n);
    }
  }

  lemma GrowStable(cfg: Config, t: Tid, u: Tid, a: List, b: List, th: Thread)
    requires u != t && Evolve(t, a, b) && ListInv(cfg, a) && GrowInv(cfg, u, a, th) && OwnerInv(u, a, th)
    ensures GrowInv(cfg, u, b, th)
  {
    if th.pc.GLock? || th.pc.GCopy? || th.pc.GCas? {
      assert NodeEvolve(t, a.nodes[th.oldHead], b.nodes[th.oldHead]);
    }
    if th.pc.GCas? || th.pc.GDestroy? {
      NewHeadPrivate(cfg, t, u, a, b, th);
      assert NodeEvolve(t, a.nodes[th.newHead], b.nodes[th.newHead]);
    }
    if th.pc.GCas? {
      forall k | 0 <= k < |b.lin| ensures Skip(b, k, th.newHead) == Skip(b, k, th.oldHead) {
        NewHeadStable(cfg, t, u, a, b, th, k);
      }
    }
    LinkOf(t, a, b, 0, th.oldHead);
  }

  lemma FindStable(t: Tid, a: List, b: List, th: Thread)
    requires Evolve(t, a, b) && FindInv(a, th)
    ensures FindInv(b, th)
  {
    if th.pc.FDown? {
      RegStable(t, a, b, th.win, th.layer - 1, th.pred);
      assert NodeEvolve(t, a.nodes[th.pred], b.nodes[th.pred]);
    } else if th.pc.FRight? {
      RegStable(t, a, b, th.win, th.layer, th.pred);
      assert NodeEvolve(t, a.nodes[th.pred], b.nodes[th.pred]);
    } else if th.pc.FMarked? {
      RegStable(t, a, b, th.win, 0, th.foundNode);
      assert NodeEvolve(t, a.nodes[th.foundNode], b.nodes[th.foundNode]);
    }
  }

  lemma HeightBound(cfg: Config, l: List, x: nat)
    requires ListInv(cfg, l) && IsNode(l, x)
    ensures l.nodes[x].height <= |l.lin|
  {
    assert NodeOk(cfg, l.nodes[x]);
  }

  lemma ThreadInvStable(cfg: Config, t: Tid, u: Tid, a: List, b: List, th: Thread)
    requires u != t && Evolve(t, a, b) && ListInv(cfg, a) && ThreadInv(cfg, u, a, th)
    ensures ThreadInv(cfg, u, b, th)
  {
    SearchStable(cfg, t, a, b, th);
    GuardStable(t, u, a, b, th);
    OwnerStable(t, u, a, b, th);
    if Adding(th.pc) || th.isMarked {
      HeightBound(cfg, a, th.target);
    }
    AddStable(t, u, a, b, th);
    RemoveStable(t, u, a, b, th);
    GrowStable(cfg, t, u, a, b, th);
    FindStable(t, a, b, th);
  }
}
