/** Searches do not miss: a key that stays in the set from the head load of a search
    to its end is found, although nodes are linked and unlinked meanwhile. */
module SkipListSearch {

  import opened Common
  import opened SkipListState
  import opened SkipListInvariant
  import opened SkipListStability
  import opened SkipListSteps
  import opened SkipListWriters
  import opened SkipListReclaim
  import opened SkipListTheorems

  // ---------- what links skip ----------

  /** The link of m at layer k skips no node of base that is still linked there. */
  ghost predicate CoverAt(l: List, base: seq<set<nat>>, k: nat, m: nat)
    requires k < |l.lin| == |base|
  {
    forall n :: n in base[k] && n in l.lin[k] && Precedes(l, m, n) ==>
      Skip(l, k, m) != NIL && (n == Skip(l, k, m) || Precedes(l, Skip(l, k, m), n))
  }

  ghost predicate Cover(l: List, win: seq<set<nat>>, base: seq<set<nat>>) {
    && |win| == |base| == |l.lin|
    && forall k, m :: 0 <= k < |win| && Reg(l, win, k, m) ==> CoverAt(l, base, k, m)
  }

  ghost predicate BaseOk(l: List, base: seq<set<nat>>) {
    |base| == |l.lin| == |l.gone| && forall k, n :: 0 <= k < |base| && n in base[k] ==> Ever(l, k, n)
  }

  lemma CoverStarts(cfg: Config, l: List)
    requires ListInv(cfg, l)
    ensures Cover(l, l.gone, l.lin) && BaseOk(l, l.lin) && WinOk(l, l.gone)
  {
    WinStarts(cfg, l);
    forall k, m | 0 <= k < |l.gone| && Reg(l, l.gone, k, m) ensures CoverAt(l, l.lin, k, m) {
      assert NextOk(l, k, m);
    }
  }

  lemma CoverAtLinked(l: List, base: seq<set<nat>>, k: nat, m: nat)
    requires k < |l.lin| == |base| && NextOk(l, k, m)
    ensures CoverAt(l, base, k, m)
  {
  }

  /** A node that had left before the step keeps its link, and no node comes back. */
  lemma CoverAtGone(cfg: Config, t: Tid, a: List, b: List, base: seq<set<nat>>, k: nat, m: nat)
    requires ListInv(cfg, a) && ListInv(cfg, b) && Evolve(t, a, b) && BaseOk(a, base) && k < |base|
    requires Ever(a, k, m) && CoverAt(a, base, k, m) && Skip(b, k, m) == Skip(a, k, m) && m < |a.nodes|
    requires Skip(a, k, m) < |a.nodes|
    ensures CoverAt(b, base, k, m)
  {
    forall n | n in base[k] && n in b.lin[k] && Precedes(b, m, n)
      ensures Skip(b, k, m) != NIL && (n == Skip(b, k, m) || Precedes(b, Skip(b, k, m), n))
    {
      StillLinked(cfg, t, a, b, k, n);
      assert NodeEvolve(t, a.nodes[n], b.nodes[n]) && NodeEvolve(t, a.nodes[m], b.nodes[m]);
      var s := Skip(a, k, m);
      assert NodeEvolve(t, a.nodes[s], b.nodes[s]);
    }
  }

  lemma StillLinked(cfg: Config, t: Tid, a: List, b: List, k: nat, n: nat)
    requires ListInv(cfg, a) && ListInv(cfg, b) && Evolve(t, a, b) && k < |a.lin| && Ever(a, k, n) && n in b.lin[k]
    ensures n in a.lin[k] && n < |a.nodes|
  {
    EverIsNode(a, k, n);
    LinkOf(t, a, b, k, n);
    assert LinOk(b, k, n);
  }

  /** A node gone by now either had left already, or was linked with this same link. */
  lemma GoneBefore(cfg: Config, t: Tid, a: List, b: List, k: nat, m: nat)
    requires ListInv(cfg, a) && Evolve(t, a, b) && k < |a.lin| && m in b.gone[k]
    ensures Ever(a, k, m) && Skip(b, k, m) == Skip(a, k, m) && m < |a.nodes| && Skip(a, k, m) < |a.nodes|
  {
    LinkOf(t, a, b, k, m);
    assert m in a.gone[k] ==> GoneOk(a, k, m);
    assert m in a.lin[k] ==> LinOk(a, k, m) && NextOk(a, k, m);
    EverIsNode(a, k, m);
    if Skip(a, k, m) != NIL {
      EverIsNode(a, k, Skip(a, k, m));
    }
  }

  lemma CoverStep(cfg: Config, t: Tid, a: List, b: List, win: seq<set<nat>>, base: seq<set<nat>>)
    requires ListInv(cfg, a) && ListInv(cfg, b) && Evolve(t, a, b) && BaseOk(a, base) && Cover(a, win, base)
    ensures Cover(b, win, base)
  {
    forall k, m | 0 <= k < |win| && Reg(b, win, k, m) ensures CoverAt(b, base, k, m) {
      if m in b.lin[k] {
        assert NextOk(b, k, m);
        CoverAtLinked(b, base, k, m);
      } else {
        GoneBefore(cfg, t, a, b, k, m);
        assert Reg(a, win, k, m);
        CoverAtGone(cfg, t, a, b, base, k, m);
      }
    }
  }

  lemma BaseStep(t: Tid, a: List, b: List, base: seq<set<nat>>)
    requires Evolve(t, a, b) && BaseOk(a, base)
    ensures BaseOk(b, base)
  {
    forall k, n | 0 <= k < |base| && n in base[k] ensures Ever(b, k, n) {
      LinkOf(t, a, b, k, n);
    }
  }

  lemma {:induction false} WindowCover(cfg: Config, r: seq<State>, i: nat, x: nat)
    requires Run(cfg, r) && i <= x < |r|
    ensures BaseOk(r[x].l, r[i].l.lin) && Cover(r[x].l, r[i].l.gone, r[i].l.lin) && WinOk(r[x].l, r[i].l.gone)
    decreases x - i
  {
    hide Run, ListInv, Cover, BaseOk, WinOk, Evolve, RecInv, ThreadInv;
    RunList(cfg, r, x);
    if x == i {
      CoverStarts(cfg, r[i].l);
    } else {
      WindowCover(cfg, r, i, x - 1);
      var t := RunStep(cfg, r, x - 1);
      RunList(cfg, r, x - 1);
      CoverStep(cfg, t, r[x - 1].l, r[x].l, r[i].l.gone, r[i].l.lin);
      BaseStep(t, r[x - 1].l, r[x].l, r[i].l.lin);
      OrderOf(cfg, r[x - 1].l);
      WinStable(t, r[x - 1].l, r[x].l, r[i].l.gone);
    }
  }

  lemma OrderOf(cfg: Config, l: List)
    requires ListInv(cfg, l)
    ensures Order(l)
  {
  }

  // ---------- a key that stays in the set ----------

  ghost predicate LiveThrough(r: seq<State>, i: nat, j: nat, d: int) {
    j < |r| && forall x :: i <= x <= j ==> Live(r[x].l, d)
  }

  ghost predicate HoldsLive(l: List, d: int, n: nat) {
    Holds(l, d, n) && !Marked(l, n)
  }

  /** All nodes with key d that a search with snapshot win can meet are n. */
  ghost predicate OnlyOne(l: List, win: seq<set<nat>>, d: int, n: nat) {
    forall m: nat :: Reg(l, win, 0, m) && IsItem(l, m) && l.nodes[m].key == d ==> m == n
  }

  lemma StaysOrLeaves(cfg: Config, t: Tid, a: List, b: List, d: int, n: nat)
    requires ListInv(cfg, a) && ListInv(cfg, b) && Evolve(t, a, b) && HoldsLive(a, d, n) && Live(b, d)
    ensures HoldsLive(b, d, n)
  {
    LinkOf(t, a, b, 0, n);
    assert LinOk(a, 0, n) && NodeEvolve(t, a.nodes[n], b.nodes[n]);
    assert n in b.lin[0];
    var m :| Holds(b, d, m) && !Marked(b, m);
    OneHolder(cfg, b, d, m, n);
  }

  lemma OnlyOneStarts(cfg: Config, l: List, d: int, n: nat)
    requires ListInv(cfg, l) && Holds(l, d, n)
    ensures OnlyOne(l, l.gone, d, n)
  {
    forall m: nat | Reg(l, l.gone, 0, m) && IsItem(l, m) && l.nodes[m].key == d ensures m == n {
      OneHolder(cfg, l, d, m, n);
    }
  }

  lemma OnlyOneStep(cfg: Config, t: Tid, a: List, b: List, win: seq<set<nat>>, d: int, n: nat)
    requires ListInv(cfg, a) && ListInv(cfg, b) && Evolve(t, a, b) && OnlyOne(a, win, d, n) && Holds(b, d, n)
    ensures OnlyOne(b, win, d, n)
  {
    forall m: nat | Reg(b, win, 0, m) && IsItem(b, m) && b.nodes[m].key == d ensures m == n {
      if m in b.lin[0] {
        OneHolder(cfg, b, d, m, n);
      } else {
        GoneBefore(cfg, t, a, b, 0, m);
        EverIsNode(a, 0, m);
        assert NodeEvolve(t, a.nodes[m], b.nodes[m]);
        assert Reg(a, win, 0, m);
      }
    }
  }

  /** While the key stays in the set, its node stays the same, and is the only one to meet. */
  lemma {:induction false} WindowNode(cfg: Config, r: seq<State>, i: nat, x: nat, d: int, n: nat)
    requires Run(cfg, r) && i <= x < |r| && LiveThrough(r, i, x, d) && HoldsLive(r[i].l, d, n)
    ensures HoldsLive(r[x].l, d, n) && OnlyOne(r[x].l, r[i].l.gone, d, n)
    decreases x - i
  {
    hide Run, ListInv, Evolve, RecInv, ThreadInv, OnlyOne, Live;
    RunList(cfg, r, x);
    if x == i {
      OnlyOneStarts(cfg, r[i].l, d, n);
    } else {
      assert LiveThrough(r, i, x - 1, d);
      WindowNode(cfg, r, i, x - 1, d, n);
      var t := RunStep(cfg, r, x - 1);
      RunList(cfg, r, x - 1);
      StaysOrLeaves(cfg, t, r[x - 1].l, r[x].l, d, n);
      OnlyOneStep(cfg, t, r[x - 1].l, r[x].l, r[i].l.gone, d, n);
    }
  }

  // ---------- find ----------

  /** From its head load at step i until state j, accessor t is in one find. */
  ghost predicate InFind(r: seq<State>, t: Tid, i: nat, j: nat) {
    && i + 1 < j < |r|
    && (forall x :: i <= x <= j ==> t < |r[x].threads|)
    && r[i].threads[t].pc.FHead?
    && (forall x :: i < x < j ==> Finding(r[x].threads[t].pc))
  }

  lemma HeadLoads(cfg: Config, r: seq<State>, t: Tid, i: nat)
    requires Run(cfg, r) && i + 1 < |r| && t < |r[i].threads| && t < |r[i + 1].threads|
    requires r[i].threads[t].pc.FHead? && Finding(r[i + 1].threads[t].pc)
    ensures r[i + 1].threads[t].win == r[i].l.gone && r[i + 1].threads[t].key == r[i].threads[t].key
  {
    hide Init;
    assert StepAt(cfg, r, i);
    var u: Tid :| StepBy(cfg, r[i], u, r[i + 1]);
    hide SafeAccess, Run, StepAt;
    assert u == t;
    HeadLoadRegs(cfg, t, r[i].l, r[i].rec, r[i].threads[t], r[i + 1].l, r[i + 1].rec, r[i + 1].threads[t]);
  }

  lemma HeadLoadRegs(cfg: Config, t: Tid, l: List, rec: Recycler, th: Thread, l': List, rec': Recycler, th': Thread)
    requires ThreadStep(cfg, t, l, rec, th, l', rec', th') && th.pc.FHead?
    ensures th'.win == l.gone && th'.key == th.key
  {
  }

  lemma FindKeeps(cfg: Config, r: seq<State>, t: Tid, x: nat)
    requires Run(cfg, r) && x + 1 < |r| && t < |r[x].threads| && t < |r[x + 1].threads|
    requires Finding(r[x].threads[t].pc) && Finding(r[x + 1].threads[t].pc)
    ensures r[x + 1].threads[t].win == r[x].threads[t].win && r[x + 1].threads[t].key == r[x].threads[t].key
  {
    hide Init, SafeAccess;
    assert StepAt(cfg, r, x);
    var u: Tid :| StepBy(cfg, r[x], u, r[x + 1]);
    if u == t {
      FindKeepsRegs(cfg, r[x].l, r[x].rec, r[x].threads[t], r[x + 1].l, r[x + 1].rec, r[x + 1].threads[t], t);
    }
  }

  lemma FindKeepsRegs(cfg: Config, l: List, rec: Recycler, th: Thread, l': List, rec': Recycler, th': Thread, t: Tid)
    requires ThreadStep(cfg, t, l, rec, th, l', rec', th') && Finding(th.pc)
    ensures th'.win == th.win && th'.key == th.key && l' == l && rec' == rec && ReadStep(cfg, l, rec, th, th')
  {
    FindOnlyReads(cfg, t, l, rec, th, l', rec', th');
    hide WriteStep, RecStep, CallStep, ThreadStep;
  }

  lemma FindOnlyReads(cfg: Config, t: Tid, l: List, rec: Recycler, th: Thread, l': List, rec': Recycler, th': Thread)
    requires ThreadStep(cfg, t, l, rec, th, l', rec', th') && Finding(th.pc)
    ensures l' == l && rec' == rec && ReadStep(cfg, l, rec, th, th')
  {
    hide ReadStep;
  }

  lemma {:induction false} FindRemembers(cfg: Config, r: seq<State>, t: Tid, i: nat, x: nat, j: nat)
    requires Run(cfg, r) && InFind(r, t, i, j) && i < x < j
    ensures r[x].threads[t].win == r[i].l.gone && r[x].threads[t].key == r[i].threads[t].key
    decreases x
  {
    hide Run;
    if x == i + 1 {
      HeadLoads(cfg, r, t, i);
    } else {
      FindRemembers(cfg, r, t, i, x - 1, j);
      FindKeeps(cfg, r, t, x - 1);
    }
  }

  /** A search that stands before the key at layer k cannot step over its node. */
  lemma NotSkipped(cfg: Config, l: List, win: seq<set<nat>>, base: seq<set<nat>>, k: nat, pred: nat, d: int, n: nat)
    requires ListInv(cfg, l) && Cover(l, win, base) && Reg(l, win, k, pred) && Before(l, pred, d)
    requires n in base[k] && k < |l.lin| && n in l.lin[k] && IsItem(l, n) && l.nodes[n].key == d
    ensures !Less(l, d, Skip(l, k, pred))
    ensures !Greater(l, d, Skip(l, k, pred)) ==> Skip(l, k, pred) == n
  {
    assert CoverAt(l, base, k, pred) && Precedes(l, pred, n);
  }

  lemma MissReasons(cfg: Config, l: List, rec: Recycler, th: Thread, th': Thread)
    requires SafeAccess(cfg, l, rec, th) && ReadStep(cfg, l, rec, th, th') && Finding(th.pc)
    requires th'.pc.Returned? && th'.res.Missing?
    ensures || (th.pc.FDown? && th.layer == 1 && Less(l, th.key, Skip(l, 0, th.pred)))
            || (th.pc.FRight? && th.layer == 0 && Less(l, th.key, Skip(l, 0, th.pred)))
            || (th.pc.FMarked? && Marked(l, th.foundNode))
  {
    match th.pc
    case FDown => case FRight => case FMarked =>
  }

  lemma CannotMiss(cfg: Config, l: List, rec: Recycler, th: Thread, th': Thread, base: seq<set<nat>>, n: nat)
    requires ListInv(cfg, l) && FindInv(l, th) && Finding(th.pc) && Cover(l, th.win, base)
             && OnlyOne(l, th.win, th.key, n)
    requires HoldsLive(l, th.key, n) && |base| > 0 && n in base[0]
    requires SafeAccess(cfg, l, rec, th) && ReadStep(cfg, l, rec, th, th')
    ensures !(th'.pc.Returned? && th'.res.Missing?)
  {
    hide ListInv, Cover, SafeAccess, ReadStep;
    assert th.pc.FMarked? ==> th.foundNode == n;
    if th'.pc.Returned? && th'.res.Missing? {
      MissReasons(cfg, l, rec, th, th');
      if !th.pc.FMarked? {
        NotSkipped(cfg, l, th.win, base, 0, th.pred, th.key, n);
      }
    }
  }

  /** A find that misses is right: at some moment between its head load and its return
      the key was not in the set. With HitsAreTruthful and KeySetChanges, find takes
      effect at one instant. */
  lemma FindMissesAreTruthful(cfg: Config, r: seq<State>, t: Tid, i: nat, j: nat)
    requires Run(cfg, r) && InFind(r, t, i, j) && r[j].threads[t].pc.Returned? && r[j].threads[t].res.Missing?
    ensures exists x :: i <= x < j && !Live(r[x].l, r[i].threads[t].key)
  {
    var d := r[i].threads[t].key;
    if forall x :: i <= x < j ==> Live(r[x].l, d) {
      assert LiveThrough(r, i, j - 1, d);
      LiveFindHits(cfg, r, t, i, j, d);
    }
  }

  lemma LiveFindHits(cfg: Config, r: seq<State>, t: Tid, i: nat, j: nat, d: int)
    requires Run(cfg, r) && InFind(r, t, i, j) && r[j].threads[t].pc.Returned? && d == r[i].threads[t].key
    requires LiveThrough(r, i, j - 1, d)
    ensures !r[j].threads[t].res.Missing?
  {
    hide Run, FullInv, StepBy, Cover, OnlyOne, ListInv, FindInv, WinOk, BaseOk, SafeAccess, ReadStep;
    assert Live(r[i].l, d);
    var n :| Holds(r[i].l, d, n) && !Marked(r[i].l, n);
    WindowCover(cfg, r, i, j - 1);
    WindowNode(cfg, r, i, j - 1, d, n);
    FindRemembers(cfg, r, t, i, j - 1, j);
    LastFindStep(cfg, r, t, j - 1);
    RunFind(cfg, r, j - 1, t);
    CannotMiss(cfg, r[j - 1].l, r[j - 1].rec, r[j - 1].threads[t], r[j].threads[t], r[i].l.lin, n);
  }

  lemma RunFind(cfg: Config, r: seq<State>, x: nat, t: Tid)
    requires Run(cfg, r) && x < |r| && t < |r[x].threads|
    ensures ListInv(cfg, r[x].l) && FindInv(r[x].l, r[x].threads[t])
  {
    hide Run, ListInv, SafeAccess;
    RunThread(cfg, r, x, t);
  }

  lemma RunThread(cfg: Config, r: seq<State>, x: nat, t: Tid)
    requires Run(cfg, r) && x < |r| && t < |r[x].threads|
    ensures ListInv(cfg, r[x].l) && ThreadInv(cfg, t, r[x].l, r[x].threads[t])
    ensures SafeAccess(cfg, r[x].l, r[x].rec, r[x].threads[t])
  {
    hide Run, ListInv, ThreadInv, SafeAccess, RecInv, ThreadRec;
    RunKeepsInv(cfg, r, x);
    AccessesAreSafe(cfg, r, x, t);
  }

  lemma LastFindStep(cfg: Config, r: seq<State>, t: Tid, x: nat)
    requires Run(cfg, r) && x + 1 < |r| && t < |r[x].threads| && t < |r[x + 1].threads|
    requires Finding(r[x].threads[t].pc) && r[x + 1].threads[t].pc.Returned?
    ensures SafeAccess(cfg, r[x].l, r[x].rec, r[x].threads[t])
    ensures ReadStep(cfg, r[x].l, r[x].rec, r[x].threads[t], r[x + 1].threads[t])
  {
    hide Init, SafeAccess;
    assert StepAt(cfg, r, x);
    var u: Tid :| StepBy(cfg, r[x], u, r[x + 1]);
    FindKeepsRegs(cfg, r[x].l, r[x].rec, r[x].threads[u], r[x + 1].l, r[x + 1].rec, r[x + 1].threads[u], u);
  }

  // ---------- remove ----------

  /** Key d is in the set, and its node is fully linked: remove may take it. */
  ghost predicate Committed(l: List, d: int) {
    exists x :: Holds(l, d, x) && !Marked(l, x) && Full(l, x)
  }

  ghost predicate CommittedThrough(r: seq<State>, i: nat, j: nat, d: int) {
    j < |r| && forall x :: i <= x <= j ==> Committed(r[x].l, d)
  }

  lemma CommittedIsLive(r: seq<State>, i: nat, j: nat, d: int)
    requires CommittedThrough(r, i, j, d)
    ensures LiveThrough(r, i, j, d)
  {
    forall x | i <= x <= j ensures Live(r[x].l, d) {
      var n :| Holds(r[x].l, d, n) && !Marked(r[x].l, n) && Full(r[x].l, n);
    }
  }

  predicate Attempting(pc: Pc) {
    pc.SHead? || pc.SNode? || pc.RFull? || pc.RMarked? || pc.RLock? || pc.RMark?
  }

  /** A search of remove with snapshot win that is bound to find n, on its top layer. */
  predicate OnTrack(l: List, win: seq<set<nat>>, d: int, n: nat, th: Thread) {
    && th.op.Remove? && !th.isMarked && th.win == win && th.key == d && Attempting(th.pc)
    && (th.pc.SHead? || th.pc.SNode? ==> Height(l, n) <= th.max + 1)
    && (th.pc.SHead? ==> th.foundLayer == -1)
    && (th.pc.SNode? ==> if th.layer + 1 >= Height(l, n) then th.foundLayer == -1
                         else th.foundLayer == Height(l, n) - 1 && th.foundNode == n)
    && (th.pc.RFull? || th.pc.RMarked? || th.pc.RLock? ==> th.foundLayer == Height(l, n) - 1 && th.foundNode == n)
    && (th.pc.RMark? ==> th.target == n)
  }

  /** What the search may rely on while the key stays committed. */
  ghost predicate Track(l: List, win: seq<set<nat>>, base: seq<set<nat>>, d: int, n: nat) {
    && HoldsLive(l, d, n) && Full(l, n) && OnlyOne(l, win, d, n) && Cover(l, win, base)
    && |base| == |l.lin| && (forall k :: 0 <= k < |l.lin| && k < Height(l, n) ==> n in base[k] && n in l.lin[k])
  }

  lemma HitIsNode(cfg: Config, l: List, th: Thread, base: seq<set<nat>>, d: int, n: nat)
    requires ListInv(cfg, l) && SearchInv(cfg, l, th) && th.pc.SNode? && Track(l, th.win, base, d, n) && d == th.key
    requires !Greater(l, d, Skip(l, th.layer, th.pred))
    ensures th.layer + 1 > Height(l, n) ==> Less(l, d, Skip(l, th.layer, th.pred))
    ensures th.layer + 1 == Height(l, n) ==> Skip(l, th.layer, th.pred) == n && !Less(l, d, n)
  {
    var k := th.layer;
    var x := Skip(l, k, th.pred);
    if k + 1 == Height(l, n) {
      NotSkipped(cfg, l, th.win, base, k, th.pred, d, n);
    } else if k + 1 > Height(l, n) && !Less(l, d, x) {
      RegNext(cfg, l, th.win, k, th.pred);
      RegDown(cfg, l, th.win, 0, k, x);
      EverIsNode(l, k, x);
    }
  }

  lemma SearchOnTrack(cfg: Config, l: List, rec: Recycler, th: Thread, th': Thread, base: seq<set<nat>>, d: int, n: nat)
    requires ListInv(cfg, l) && SearchInv(cfg, l, th) && th.pc.SNode? && Track(l, th.win, base, d, n)
    requires OnTrack(l, th.win, d, n, th) && SafeAccess(cfg, l, rec, th) && ReadStep(cfg, l, rec, th, th')
    ensures OnTrack(l, th.win, d, n, th')
  {
    var x := Skip(l, th.layer, th.pred);
    if !Greater(l, d, x) {
      HitIsNode(cfg, l, th, base, d, n);
    }
    TopLayer(cfg, l, n);
    hide ListInv, SearchInv, Track;
  }

  lemma TopLayer(cfg: Config, l: List, n: nat)
    requires ListInv(cfg, l) && IsNode(l, n)
    ensures Height(l, n) > 0
  {
    assert NodeOk(cfg, l.nodes[n]);
  }

  lemma CheckOnTrack(cfg: Config, t: Tid, l: List, rec: Recycler, th: Thread, l': List, rec': Recycler, th': Thread,
      d: int, n: nat)
    requires !th.pc.SNode? && Full(l, n) && !Marked(l, n) && Height(l', n) == Height(l, n) > 0
    requires OnTrack(l, th.win, d, n, th) && ThreadStep(cfg, t, l, rec, th, l', rec', th')
    ensures OnTrack(l', th.win, d, n, th') || (th'.pc.Lk? && th'.isMarked)
  {
    match th.pc
    case SHead => case RFull => case RMarked => case RLock => case RMark =>
  }

  lemma SnodeIsRead(cfg: Config, t: Tid, l: List, rec: Recycler, th: Thread, l': List, rec': Recycler, th': Thread)
    requires th.pc.SNode? && ThreadStep(cfg, t, l, rec, th, l', rec', th')
    ensures SafeAccess(cfg, l, rec, th) && ReadStep(cfg, l, rec, th, th') && l' == l
  {
  }

  lemma StepOnTrack(cfg: Config, t: Tid, l: List, rec: Recycler, th: Thread, l': List, rec': Recycler, th': Thread,
                    base: seq<set<nat>>, d: int, n: nat)
    requires ListInv(cfg, l) && SearchInv(cfg, l, th) && Evolve(t, l, l') && Track(l, th.win, base, d, n)
    requires OnTrack(l, th.win, d, n, th) && ThreadStep(cfg, t, l, rec, th, l', rec', th')
    ensures OnTrack(l', th.win, d, n, th') || (th'.pc.Lk? && th'.isMarked)
  {
    TopLayer(cfg, l, n);
    assert NodeEvolve(t, l.nodes[n], l'.nodes[n]);
    if th.pc.SNode? {
      SnodeIsRead(cfg, t, l, rec, th, l', rec', th');
      hide ThreadStep, ReadStep, SafeAccess, Track, ListInv, SearchInv, OnTrack;
      SearchOnTrack(cfg, l, rec, th, th', base, d, n);
    } else {
      hide ThreadStep, Cover, ListInv, SearchInv, OnTrack, OnlyOne;
      CheckOnTrack(cfg, t, l, rec, th, l', rec', th', d, n);
    }
  }

  lemma OthersOnTrack(t: Tid, l: List, l': List, win: seq<set<nat>>, d: int, n: nat, th: Thread)
    requires Evolve(t, l, l') && IsNode(l, n) && OnTrack(l, win, d, n, th)
    ensures OnTrack(l', win, d, n, th)
  {
    assert NodeEvolve(t, l.nodes[n], l'.nodes[n]);
  }

  /** From its maxLayer load at step i until state j, accessor t is in the first attempt of one remove. */
  ghost predicate InRemove(r: seq<State>, t: Tid, i: nat, j: nat) {
    && i + 1 < j < |r|
    && (forall x :: i <= x <= j ==> t < |r[x].threads|)
    && r[i].threads[t].pc.SMax? && r[i].threads[t].op.Remove? && !r[i].threads[t].isMarked
    && (forall x :: i < x < j ==> Attempting(r[x].threads[t].pc))
  }

  lemma WindowTrack(cfg: Config, r: seq<State>, i: nat, x: nat, d: int, n: nat)
    requires Run(cfg, r) && i <= x < |r| && CommittedThrough(r, i, x, d) && HoldsLive(r[i].l, d, n)
    ensures Track(r[x].l, r[i].l.gone, r[i].l.lin, d, n)
  {
    hide Run, ListInv, Cover, OnlyOne, WinOk, BaseOk;
    CommittedIsLive(r, i, x, d);
    WindowCover(cfg, r, i, x);
    WindowNode(cfg, r, i, x, d, n);
    assert CommittedThrough(r, i, i, d) && LiveThrough(r, i, i, d);
    RunList(cfg, r, i);
    RunList(cfg, r, x);
    NodeIsFull(cfg, r[i].l, d, n);
    NodeIsFull(cfg, r[x].l, d, n);
    SameHeight(cfg, r, i, x, n);
    forall k | 0 <= k < |r[x].l.lin| && k < Height(r[x].l, n) ensures n in r[i].l.lin[k] && n in r[x].l.lin[k] {
      FullIsLinked(cfg, r[i].l, n, k);
      FullIsLinked(cfg, r[x].l, n, k);
    }
  }

  lemma NodeIsFull(cfg: Config, l: List, d: int, n: nat)
    requires ListInv(cfg, l) && Committed(l, d) && HoldsLive(l, d, n)
    ensures Full(l, n)
  {
    var m :| Holds(l, d, m) && !Marked(l, m) && Full(l, m);
    OneHolder(cfg, l, d, m, n);
  }

  lemma {:induction false} SameHeight(cfg: Config, r: seq<State>, i: nat, x: nat, n: nat)
    requires Run(cfg, r) && i <= x < |r| && IsNode(r[i].l, n)
    ensures IsNode(r[x].l, n) && Height(r[x].l, n) == Height(r[i].l, n) && |r[x].l.lin| == |r[i].l.lin|
    decreases x - i
  {
    hide Run, FullInv;
    if i < x {
      SameHeight(cfg, r, i, x - 1, n);
      var t := RunStep(cfg, r, x - 1);
      assert NodeEvolve(t, r[x - 1].l.nodes[n], r[x].l.nodes[n]);
    }
  }

  lemma {:induction false} StaysOnTrack(cfg: Config, r: seq<State>, t: Tid, i: nat, x: nat, j: nat, d: int, n: nat)
    requires Run(cfg, r) && InRemove(r, t, i, j) && i < x < j && d == r[i].threads[t].key
    requires CommittedThrough(r, i, j - 1, d) && HoldsLive(r[i].l, d, n)
    ensures OnTrack(r[x].l, r[i].l.gone, d, n, r[x].threads[t])
    decreases x
  {
    hide Run, OnTrack, Track, ListInv, SearchInv;
    if x == i + 1 {
      RemoveStarts(cfg, r, t, i, d, n);
    } else {
      StaysOnTrack(cfg, r, t, i, x - 1, j, d, n);
      assert CommittedThrough(r, i, x - 1, d);
      WindowTrack(cfg, r, i, x - 1, d, n);
      TrackStep(cfg, r, t, x - 1, r[i].l.gone, r[i].l.lin, d, n);
    }
  }

  lemma TrackStep(cfg: Config, r: seq<State>, t: Tid, x: nat, win: seq<set<nat>>, base: seq<set<nat>>, d: int, n: nat)
    requires Run(cfg, r) && x + 1 < |r| && t < |r[x].threads| && t < |r[x + 1].threads|
    requires Track(r[x].l, win, base, d, n) && OnTrack(r[x].l, win, d, n, r[x].threads[t])
    ensures OnTrack(r[x + 1].l, win, d, n, r[x + 1].threads[t])
            || (r[x + 1].threads[t].pc.Lk? && r[x + 1].threads[t].isMarked)
    ensures !(r[x + 1].threads[t].res.NotRemoved?
              && (r[x + 1].threads[t].pc.Returned? || r[x + 1].threads[t].pc.RUnlock?))
            || r[x + 1].threads[t].isMarked
  {
    var u := RunStep(cfg, r, x);
    RunSearch(cfg, r, x, t);
    TrackIsNode(r[x].l, win, base, d, n);
    TrackWin(r[x].l, win, d, n, r[x].threads[t]);
    hide Run, FullInv, ListInv, SearchInv, Track, Evolve, ThreadStep;
    if u == t {
      hide OnTrack;
      StepOnTrack(cfg, t, r[x].l, r[x].rec, r[x].threads[t], r[x + 1].l, r[x + 1].rec, r[x + 1].threads[t], base, d, n);
    } else {
      hide OnTrack;
      OthersOnTrack(u, r[x].l, r[x + 1].l, win, d, n, r[x].threads[t]);
    }
    TrackAttempts(r[x + 1].l, win, d, n, r[x + 1].threads[t]);
  }

  lemma TrackWin(l: List, win: seq<set<nat>>, d: int, n: nat, th: Thread)
    requires OnTrack(l, win, d, n, th)
    ensures th.win == win
  {
  }

  lemma TrackIsNode(l: List, win: seq<set<nat>>, base: seq<set<nat>>, d: int, n: nat)
    requires Track(l, win, base, d, n)
    ensures IsNode(l, n)
  {
  }

  lemma TrackAttempts(l: List, win: seq<set<nat>>, d: int, n: nat, th: Thread)
    ensures OnTrack(l, win, d, n, th) ==> Attempting(th.pc) && !th.pc.Returned? && !th.pc.RUnlock?
  {
  }

  lemma RunSearch(cfg: Config, r: seq<State>, x: nat, t: Tid)
    requires Run(cfg, r) && x < |r| && t < |r[x].threads|
    ensures ListInv(cfg, r[x].l) && SearchInv(cfg, r[x].l, r[x].threads[t])
  {
    hide Run, ListInv, SafeAccess;
    RunThread(cfg, r, x, t);
  }

  lemma MaxLoadRegs(cfg: Config, t: Tid, l: List, rec: Recycler, th: Thread, l': List, rec': Recycler, th': Thread)
    requires ThreadStep(cfg, t, l, rec, th, l', rec', th') && th.pc.SMax?
    ensures l' == l && th' == th.(pc := SHead, max := th'.max, foundLayer := -1, foundNode := NIL, win := l.gone)
    ensures th'.max + 1 == Height(l, l.head)
  {
  }

  lemma RemoveStarts(cfg: Config, r: seq<State>, t: Tid, i: nat, d: int, n: nat)
    requires Run(cfg, r) && i + 1 < |r| && t < |r[i].threads| && t < |r[i + 1].threads|
    requires r[i].threads[t].pc.SMax? && r[i].threads[t].op.Remove? && !r[i].threads[t].isMarked
    requires Attempting(r[i + 1].threads[t].pc) && d == r[i].threads[t].key && HoldsLive(r[i].l, d, n)
             && Committed(r[i].l, d)
    ensures OnTrack(r[i + 1].l, r[i].l.gone, d, n, r[i + 1].threads[t])
  {
    RunList(cfg, r, i);
    NodeIsFull(cfg, r[i].l, d, n);
    NodeBelowHead(cfg, r[i].l, n);
    assert StepAt(cfg, r, i);
    var u: Tid :| StepBy(cfg, r[i], u, r[i + 1]);
    hide SafeAccess, Run, StepAt, ListInv, ThreadStep;
    assert u == t;
    MaxLoadRegs(cfg, t, r[i].l, r[i].rec, r[i].threads[t], r[i + 1].l, r[i + 1].rec, r[i + 1].threads[t]);
  }

  lemma NodeBelowHead(cfg: Config, l: List, n: nat)
    requires ListInv(cfg, l) && Full(l, n) && !Marked(l, n) && IsNode(l, n)
    ensures 0 < Height(l, n) <= Height(l, l.head)
  {
    assert NodeOk(cfg, l.nodes[n]);
    FullIsLinked(cfg, l, n, Height(l, n) - 1);
    assert LinOk(l, Height(l, n) - 1, n);
  }

  /** A remove that returns false is right about fully linked nodes: at some moment of its
      first attempt no fully linked, unmarked node had the key. (It may return false for a
      key whose node is still being linked, which find already sees.) */
  lemma RemoveFailsTruthfully(cfg: Config, r: seq<State>, t: Tid, i: nat, j: nat)
    requires Run(cfg, r) && InRemove(r, t, i, j) && r[j].threads[t].res.NotRemoved?
    requires r[j].threads[t].pc.Returned? || (r[j].threads[t].pc.RUnlock? && !r[j].threads[t].isMarked)
    ensures exists x :: i <= x < j && !Committed(r[x].l, r[i].threads[t].key)
  {
    var d := r[i].threads[t].key;
    if forall x :: i <= x < j ==> Committed(r[x].l, d) {
      assert CommittedThrough(r, i, j - 1, d);
      CommittedRemoveSucceeds(cfg, r, t, i, j, d);
    }
  }

  lemma CommittedRemoveSucceeds(cfg: Config, r: seq<State>, t: Tid, i: nat, j: nat, d: int)
    requires Run(cfg, r) && InRemove(r, t, i, j) && d == r[i].threads[t].key && CommittedThrough(r, i, j - 1, d)
    requires r[j].threads[t].pc.Returned? || (r[j].threads[t].pc.RUnlock? && !r[j].threads[t].isMarked)
    ensures !r[j].threads[t].res.NotRemoved?
  {
    hide Run, OnTrack, Track, ListInv;
    var n :| Holds(r[i].l, d, n) && !Marked(r[i].l, n) && Full(r[i].l, n);
    StaysOnTrack(cfg, r, t, i, j - 1, j, d, n);
    WindowTrack(cfg, r, i, j - 1, d, n);
    TrackStep(cfg, r, t, j - 1, r[i].l.gone, r[i].l.lin, d, n);
    if r[j].threads[t].pc.Returned? {
      ReturnedUnmarked(cfg, r, j, t);
    }
  }

  lemma ReturnedUnmarked(cfg: Config, r: seq<State>, x: nat, t: Tid)
    requires Run(cfg, r) && x < |r| && t < |r[x].threads| && r[x].threads[t].pc.Returned?
    ensures !r[x].threads[t].isMarked
  {
    hide Run, ListInv, SafeAccess;
    RunThread(cfg, r, x, t);
  }
}
