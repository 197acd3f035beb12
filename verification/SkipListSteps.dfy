/** The invariant of the accessor that makes a step. */
module SkipListSteps {

  import opened SkipListState
  import opened SkipListInvariant
  import opened SkipListLinks
  import opened SkipListProof

  // ---------- following links ----------

  /** Where a link leads, from a node that was linked since the search began. */
  lemma RegNext(cfg: Config, l: List, win: seq<set<nat>>, k: nat, x: nat)
    requires ListInv(cfg, l) && WinOk(l, win) && Reg(l, win, k, x)
    ensures IsNode(l, x) && k < l.nodes[x].height == |l.nodes[x].skip|
    ensures var s := Skip(l, k, x); s == NIL || (Reg(l, win, k, s) && IsItem(l, s) && Precedes(l, x, s))
  {
    EverAtBottom(cfg, l, k, x);
    if x in l.lin[k] {
      assert NextOk(l, k, x);
    } else {
      assert GoneOk(l, k, x);
    }
    if Skip(l, k, x) != NIL {
      EverIsNode(l, k, Skip(l, k, x));
    }
  }

  lemma RegDown(cfg: Config, l: List, win: seq<set<nat>>, j: nat, k: nat, x: nat)
    requires ListInv(cfg, l) && WinOk(l, win) && Reg(l, win, k, x) && j <= k
    ensures Reg(l, win, j, x)
  {
    EverIsNode(l, k, x);
    assert DownOk(l, j, k, x);
    assert k < Height(l, x);
  }

  lemma WinStarts(cfg: Config, l: List)
    requires ListInv(cfg, l)
    ensures WinOk(l, l.gone)
  {
    forall k, x | 0 <= k < |l.gone| && Reg(l, l.gone, k, x)
      ensures Skip(l, k, x) == NIL || Skip(l, k, x) !in l.gone[k]
    {
      assert x in l.lin[k] && NextOk(l, k, x);
      assert forall y :: y in l.lin[k] ==> LinOk(l, k, y);
    }
    forall j, k, x | 0 <= j <= k < |l.gone| && x in l.gone[j] && k < Height(l, x) ensures x in l.gone[k] {
      assert GoneOk(l, j, x) && DownOk(l, j, k, x);
    }
  }

  lemma HeadReg(cfg: Config, l: List, win: seq<set<nat>>, k: nat)
    requires ListInv(cfg, l) && WinOk(l, win) && k < Height(l, l.head)
    ensures Reg(l, win, k, l.head) && forall d :: Before(l, l.head, d)
  {
    assert l.head in l.lin[k] && LinOk(l, k, l.head);
  }

  // ---------- findInsertionPoint ----------

  lemma WalkRight(cfg: Config, l: List, th: Thread)
    requires ListInv(cfg, l) && SearchInv(cfg, l, th) && th.pc.SNode? && Greater(l, th.key, Skip(l, th.layer, th.pred))
    ensures SearchInv(cfg, l, th.(pred := Skip(l, th.layer, th.pred)))
  {
    var x := Skip(l, th.layer, th.pred);
    var th' := th.(pred := x);
    RegNext(cfg, l, th.win, th.layer, th.pred);
    EntriesSame(l, th, th', th.layer + 1);
    forall j | th.layer < j <= th.max ensures th.preds[j] == x || Precedes(l, th.preds[j], x) {
      if th.preds[j] != th.pred {
        PrecedesTransitive(l, th.preds[j], th.pred, x);
      }
    }
  }

  predicate SameSearch(a: Thread, b: Thread) {
    && b.preds == a.preds && b.succs == a.succs && b.max == a.max && b.key == a.key && b.win == a.win
    && b.foundLayer == a.foundLayer && b.foundNode == a.foundNode
  }

  lemma EntriesSame(l: List, a: Thread, b: Thread, lo: nat)
    requires Entries(l, a, lo) && SameSearch(a, b)
    ensures Entries(l, b, lo)
  {
    forall j | lo <= j <= b.max ensures Entry(l, b, j) {
      assert Entry(l, a, j);
    }
  }

  /** What is known of the node found so far, and of the node x the search stopped at. */
  predicate FoundOk(l: List, th: Thread) {
    th.foundLayer < 0 ||
    (th.layer <= th.foundLayer <= th.max && IsItem(l, th.foundNode) && l.nodes[th.foundNode].key == th.key &&
     Reg(l, th.win, th.layer, th.foundNode) && Reg(l, th.win, th.foundLayer, th.foundNode))
  }

  predicate StopOk(l: List, th: Thread, x: nat) {
    && (x == NIL || (Reg(l, th.win, th.layer, x) && IsItem(l, x)))
    && !Greater(l, th.key, x) && th.layer <= th.max < |th.preds| == |th.succs|
    && Reg(l, th.win, th.layer, th.pred) && Before(l, th.pred, th.key) && th.foundLayer >= -1
  }

  lemma FoundAt(l: List, th: Thread, x: nat, th1: Thread)
    requires FoundOk(l, th) && StopOk(l, th, x) && th1 == LayerDone(l, th, x)
    ensures th1.foundLayer < 0 ==> th.foundLayer < 0 && Less(l, th.key, x)
    ensures FoundOk(l, th1.(layer := th.layer)) && th1.win == th.win && th1.key == th.key && th1.max == th.max
    ensures th1.preds == th.preds[th.layer := th.pred]
    ensures th1.succs == th.succs[th.layer := if th1.foundLayer >= 0 then th1.foundNode else x]
  {
    hide Reg, Before;
  }

  lemma EntryDone(l: List, th: Thread, x: nat, th1: Thread)
    requires FoundOk(l, th) && StopOk(l, th, x) && th1 == LayerDone(l, th, x)
    ensures Entry(l, th1, th.layer)
  {
    FoundAt(l, th, x, th1);
  }

  lemma EntryKept(l: List, th: Thread, x: nat, th1: Thread, j: nat)
    requires FoundOk(l, th) && StopOk(l, th, x) && th1 == LayerDone(l, th, x)
    requires th.layer < j && Entry(l, th, j)
    ensures Entry(l, th1, j)
  {
    FoundAt(l, th, x, th1);
  }

  lemma LayerEntries(l: List, th: Thread, x: nat, th1: Thread)
    requires FoundOk(l, th) && StopOk(l, th, x) && th1 == LayerDone(l, th, x)
    requires Entries(l, th, th.layer + 1)
    requires forall j :: th.layer < j <= th.max ==> th.preds[j] == th.pred || Precedes(l, th.preds[j], th.pred)
    ensures Entries(l, th1, th.layer)
    ensures forall j :: th.layer <= j <= th.max ==> th1.preds[j] == th.pred || Precedes(l, th1.preds[j], th.pred)
  {
    FoundAt(l, th, x, th1);
    forall j | th.layer <= j <= th1.max ensures Entry(l, th1, j) {
      if j == th.layer {
        EntryDone(l, th, x, th1);
      } else {
        EntryKept(l, th, x, th1, j);
      }
    }
  }

  lemma StopFacts(cfg: Config, l: List, th: Thread, x: nat)
    requires ListInv(cfg, l) && SearchInv(cfg, l, th) && th.pc.SNode? && x == Skip(l, th.layer, th.pred)
    requires !Greater(l, th.key, x) && th.foundLayer >= -1
    ensures FoundOk(l, th) && StopOk(l, th, x)
  {
    RegNext(cfg, l, th.win, th.layer, th.pred);
    if th.foundLayer >= 0 {
      RegDown(cfg, l, th.win, th.layer, th.foundLayer, th.foundNode);
    }
  }

  lemma LeftSearch(cfg: Config, l: List, th: Thread, th1: Thread)
    requires th.pc.SNode? && th.layer <= th.max < cfg.maxHeight == |l.lin| && WinOk(l, th.win)
    requires th.max < Height(l, l.head) && !th.op.Find? && |th.preds| == |th.succs| == cfg.maxHeight
    requires th1 == LayerDone(l, th, Skip(l, th.layer, th.pred))
    requires Entries(l, th1, th.layer) && (th.layer > 0 ==> Reg(l, th.win, th.layer - 1, th.pred))
             && Before(l, th.pred, th.key)
    requires forall j :: th.layer <= j <= th.max ==> th1.preds[j] == th.pred || Precedes(l, th1.preds[j], th.pred)
    requires (th.isMarked ==> th.op.Remove?) && th.foundLayer >= -1
    ensures SearchInv(cfg, l, th1)
  {
  }

  lemma DownALayer(cfg: Config, l: List, th: Thread)
    requires ListInv(cfg, l) && SearchInv(cfg, l, th) && th.pc.SNode? && cfg.maxHeight == |l.lin|
    ensures Reg(l, th.win, th.layer, th.pred) && Before(l, th.pred, th.key) && Entries(l, th, th.layer + 1)
    ensures th.layer > 0 ==> Reg(l, th.win, th.layer - 1, th.pred)
    ensures th.layer <= th.max < cfg.maxHeight == |l.lin| && WinOk(l, th.win) && th.max < Height(l, l.head)
    ensures |th.preds| == |th.succs| == cfg.maxHeight && !th.op.Find? && th.foundLayer >= -1
    ensures forall j :: th.layer < j <= th.max ==> th.preds[j] == th.pred || Precedes(l, th.preds[j], th.pred)
  {
    hide ListInv, WinOk, Entries;
    if th.layer > 0 {
      RegDown(cfg, l, th.win, th.layer - 1, th.layer, th.pred);
    }
  }

  lemma LeaveLayer(cfg: Config, l: List, th: Thread, th1: Thread)
    requires ListInv(cfg, l) && SearchInv(cfg, l, th) && th.pc.SNode? && (th.isMarked ==> th.op.Remove?)
    requires th.layer < |th.preds| == |th.succs| && cfg.maxHeight == |l.lin|
    requires !Greater(l, th.key, Skip(l, th.layer, th.pred)) && th1 == LayerDone(l, th, Skip(l, th.layer, th.pred))
    ensures SearchInv(cfg, l, th1)
  {
    hide ListInv, SearchInv, Entries, WinOk, FoundOk, StopOk;
    DownALayer(cfg, l, th);
    StopFacts(cfg, l, th, Skip(l, th.layer, th.pred));
    LayerEntries(l, th, Skip(l, th.layer, th.pred), th1);
    LeftSearch(cfg, l, th, th1);
  }

  lemma SearchStarts(cfg: Config, l: List, rec: Recycler, th: Thread, th': Thread)
    requires ListInv(cfg, l) && |th.preds| == |th.succs| == cfg.maxHeight && SafeAccess(cfg, l, rec, th)
    requires ReadStep(cfg, l, rec, th, th') && th.pc.SMax? && !th.op.Find?
    ensures SearchInv(cfg, l, th')
  {
    WinStarts(cfg, l);
  }

  lemma HeadLoaded(cfg: Config, l: List, rec: Recycler, th: Thread, th': Thread)
    requires ListInv(cfg, l) && SearchInv(cfg, l, th) && SafeAccess(cfg, l, rec, th)
    requires ReadStep(cfg, l, rec, th, th') && th.pc.SHead?
    ensures SearchInv(cfg, l, th')
  {
    HeadReg(cfg, l, th.win, th.max);
  }

  lemma SearchReads(cfg: Config, l: List, rec: Recycler, th: Thread, th': Thread)
    requires ListInv(cfg, l) && SearchInv(cfg, l, th) && SafeAccess(cfg, l, rec, th)
    requires ReadStep(cfg, l, rec, th, th') && th.pc.SNode? && (th.isMarked ==> th.op.Remove?)
    ensures SearchInv(cfg, l, th')
  {
    if Greater(l, th.key, Skip(l, th.layer, th.pred)) {
      WalkRight(cfg, l, th);
    } else {
      LeaveLayer(cfg, l, th, th');
    }
  }

  /** After the search, the registers it filled stay as they are. */
  lemma MovedSearch(cfg: Config, l: List, th: Thread, th': Thread)
    requires SearchInv(cfg, l, th) && SameSearch(th, th') && th'.op == th.op
    requires UsesWin(th'.pc) ==> UsesWin(th.pc)
    requires Searched(th'.pc) ==> Searched(th.pc)
    requires !th'.pc.SHead? && !th'.pc.SNode?
    requires th'.pc.AWait? || th'.pc.RMarked? || th'.pc.RLock? ==> th.foundLayer >= 0
    requires !th'.pc.AMarked? && !th'.pc.RFull?
    requires th.op.Add? && (Locking(th'.pc) || th'.pc.ACreate? || th'.pc.ALink?) ==> th.foundLayer < 0
    requires !th'.pc.APick?
    ensures SearchInv(cfg, l, th')
  {
    if Searched(th'.pc) {
      EntriesSame(l, th, th', 0);
    }
  }

  // ---------- findNodeDownRight ----------

  lemma FindStarts(cfg: Config, l: List, rec: Recycler, th: Thread, th': Thread)
    requires ListInv(cfg, l) && |th.preds| == |th.succs| == cfg.maxHeight && SafeAccess(cfg, l, rec, th)
    requires ReadStep(cfg, l, rec, th, th') && th.pc.FHead? && th.op.Find? && !th.isMarked
    ensures SearchInv(cfg, l, th') && FindInv(l, th')
  {
    WinStarts(cfg, l);
    HeadReg(cfg, l, l.gone, Height(l, l.head) - 1);
  }

  /** The registers of a walk after it read x at layer k from a node before the key. */
  predicate Ahead(l: List, th: Thread, k: nat, x: nat) {
    && Reg(l, th.win, k, th.pred) && (k > 0 ==> Reg(l, th.win, k - 1, th.pred)) && Before(l, th.pred, th.key)
    && (x == NIL || (Reg(l, th.win, k, x) && Reg(l, th.win, 0, x) && IsItem(l, x)))
  }

  lemma AheadOf(cfg: Config, l: List, th: Thread, k: nat)
    requires ListInv(cfg, l) && WinOk(l, th.win) && Reg(l, th.win, k, th.pred) && Before(l, th.pred, th.key)
    ensures Ahead(l, th, k, Skip(l, k, th.pred))
  {
    RegNext(cfg, l, th.win, k, th.pred);
    if k > 0 {
      RegDown(cfg, l, th.win, k - 1, k, th.pred);
    }
    if Skip(l, k, th.pred) != NIL {
      RegDown(cfg, l, th.win, 0, k, Skip(l, k, th.pred));
    }
  }

  lemma FindDown(cfg: Config, l: List, rec: Recycler, th: Thread, th': Thread)
    requires SafeAccess(cfg, l, rec, th) && ReadStep(cfg, l, rec, th, th') && th.op.Find? && !th.isMarked
    requires th.pc.FDown? && Ahead(l, th, th.layer - 1, Skip(l, th.layer - 1, th.pred))
    ensures FindInv(l, th')
  {
  }

  lemma FindRight(cfg: Config, l: List, rec: Recycler, th: Thread, th': Thread)
    requires SafeAccess(cfg, l, rec, th) && ReadStep(cfg, l, rec, th, th') && th.op.Find? && !th.isMarked
    requires th.pc.FRight? && Ahead(l, th, th.layer, Skip(l, th.layer, th.pred))
    ensures FindInv(l, th')
  {
  }

  lemma FindReads(cfg: Config, l: List, rec: Recycler, th: Thread, th': Thread)
    requires ListInv(cfg, l) && SearchInv(cfg, l, th) && FindInv(l, th) && SafeAccess(cfg, l, rec, th)
    requires ReadStep(cfg, l, rec, th, th') && (th.pc.FDown? || th.pc.FRight?) && th.op.Find? && !th.isMarked
    ensures FindInv(l, th')
  {
    var k := if th.pc.FDown? then th.layer - 1 else th.layer;
    AheadAt(cfg, l, th, k);
    if th.pc.FDown? {
      FindDown(cfg, l, rec, th, th');
    } else {
      FindRight(cfg, l, rec, th, th');
    }
  }

  lemma AheadAt(cfg: Config, l: List, th: Thread, k: nat)
    requires ListInv(cfg, l) && SearchInv(cfg, l, th) && FindInv(l, th)
    requires (th.pc.FDown? && k + 1 == th.layer) || (th.pc.FRight? && k == th.layer)
    ensures Ahead(l, th, k, Skip(l, k, th.pred))
  {
    AheadOf(cfg, l, th, k);
  }

  ghost predicate FindMove(th: Thread, th': Thread) {
    && Finding(th.pc) && (th'.pc.Returned? || Finding(th'.pc))
    && th' == th.(pc := th'.pc, res := th'.res, pred := th'.pred, layer := th'.layer, foundNode := th'.foundNode)
  }

  lemma FindShape(cfg: Config, l: List, rec: Recycler, th: Thread, th': Thread)
    requires SafeAccess(cfg, l, rec, th) && ReadStep(cfg, l, rec, th, th') && Finding(th.pc)
    ensures FindMove(th, th')
  {
    match th.pc
    case FDown => case FRight => case FMarked =>
  }

  /** Outside of a search, only the snapshot win matters. */
  lemma QuietSearch(cfg: Config, l: List, th: Thread)
    requires |th.preds| == |th.succs| == cfg.maxHeight && (UsesWin(th.pc) ==> WinOk(l, th.win))
    requires !th.pc.SHead? && !th.pc.SNode? && !Searched(th.pc)
    ensures SearchInv(cfg, l, th)
  {
  }

  /** A step out of a search keeps the snapshot. */
  lemma QuietFrom(cfg: Config, l: List, th: Thread, th': Thread)
    requires SearchInv(cfg, l, th) && |th'.preds| == |th.preds| && |th'.succs| == |th.succs| && th'.win == th.win
    requires UsesWin(th'.pc) ==> UsesWin(th.pc)
    requires !th'.pc.SHead? && !th'.pc.SNode? && !Searched(th'.pc)
    ensures SearchInv(cfg, l, th')
  {
  }

  lemma FindSearch(cfg: Config, l: List, rec: Recycler, th: Thread, th': Thread)
    requires SearchInv(cfg, l, th) && SafeAccess(cfg, l, rec, th) && ReadStep(cfg, l, rec, th, th') && Finding(th.pc)
    ensures SearchInv(cfg, l, th') && FindMove(th, th')
  {
    FindShape(cfg, l, rec, th, th');
    QuietFrom(cfg, l, th, th');
  }
}
