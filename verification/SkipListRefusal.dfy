/** remove may refuse a key that find sees: a run that shows it, and exactly which
    reads make the first attempt of remove return false. */
module SkipListRefusal {

  import opened Common
  import opened SkipListState
  import opened SkipListTheorems
  import opened SkipListSearch

  // ---------- when the first attempt returns false ----------

  /** The reads that make remove give up: the search found nothing, okToDelete failed, or
      the node was marked when it was looked at again under its lock. */
  predicate Gives(l: List, th: Thread) {
    match th.pc
    case SNode =>
      th.layer == 0 && th.foundLayer < 0 && Less(l, th.key, Skip(l, 0, th.pred))
        && !Greater(l, th.key, Skip(l, 0, th.pred))
    case RFull => !Full(l, th.foundNode) || Height(l, th.foundNode) - 1 != th.foundLayer
    case RMarked => Marked(l, th.foundNode)
    case RMark => Marked(l, th.target)
    case _ => false
  }

  predicate Refused(th: Thread) {
    (th.pc.Returned? || th.pc.RUnlock?) && th.res.NotRemoved?
  }

  lemma FoundLayerBound(cfg: Config, r: seq<State>, i: nat, t: Tid)
    requires Run(cfg, r) && i < |r| && t < |r[i].threads| && Attempting(r[i].threads[t].pc)
    ensures r[i].threads[t].pc.SNode? ==> r[i].threads[t].foundLayer >= -1
  {
    hide Run;
    RunSearch(cfg, r, i, t);
  }

  lemma AttemptStep(cfg: Config, t: Tid, l: List, rec: Recycler, th: Thread, l': List, rec': Recycler, th': Thread)
    requires ThreadStep(cfg, t, l, rec, th, l', rec', th') && Attempting(th.pc) && th.op.Remove? && !th.isMarked
    requires th.pc.SNode? ==> th.foundLayer >= -1
    ensures Refused(th') <==> Gives(l, th)
  {
    hide SafeAccess;
    match th.pc
    case SHead => case SNode => case RFull => case RMarked => case RLock => case RMark =>
  }

  /** A step of a first attempt ends it with false exactly when one of those reads failed. */
  lemma RefusedExactlyWhen(cfg: Config, r: seq<State>, i: nat, t: Tid)
    requires Run(cfg, r) && i + 1 < |r| && StepBy(cfg, r[i], t, r[i + 1])
    requires Attempting(r[i].threads[t].pc) && r[i].threads[t].op.Remove? && !r[i].threads[t].isMarked
    ensures Refused(r[i + 1].threads[t]) <==> Gives(r[i].l, r[i].threads[t])
  {
    FoundLayerBound(cfg, r, i, t);
    hide Run, ThreadStep, Gives;
    AttemptStep(cfg, t, r[i].l, r[i].rec, r[i].threads[t], r[i + 1].l, r[i + 1].rec, r[i + 1].threads[t]);
  }

  // ---------- a run ----------

  const KEY: int := 5

  function Cfg(): Config {
    Config(2)
  }

  function Gone0(): seq<set<nat>> {
    [{}, {}]
  }

  function Head(next: nat, lock: Option<Tid>): Node {
    Node(1, 0, true, false, false, [next], lock, 0, 0)
  }

  function Item(): Node {
    Node(1, KEY, false, false, false, [NIL], None, 0, 0)
  }

  function Dummy(): Node {
    Node(1, 0, false, false, false, [NIL], None, 0, 0)
  }

  /** The empty list; its head locked; a node made; the node linked, not fully linked. */
  function Empty(): List {
    List([Dummy(), Head(NIL, None)], 1, 0, [{1}, {}], Gone0(), {})
  }

  function HeadLocked(): List {
    List([Dummy(), Head(NIL, Some(0))], 1, 0, [{1}, {}], Gone0(), {})
  }

  function Made(): List {
    List([Dummy(), Head(NIL, Some(0)), Item()], 1, 0, [{1}, {}], Gone0(), {})
  }

  function Linked(): List {
    List([Dummy(), Head(2, Some(0)), Item()], 1, 0, [{1, 2}, {}], Gone0(), {})
  }

  function Rec0(): Recycler {
    Recycler([], false, 0, None, {}, {}, map[], {}, None, [])
  }

  function Rec1(): Recycler {
    Recycler([], false, 1, None, {}, {0}, map[0 := Gone0()], {}, None, [])
  }

  function Rec2(): Recycler {
    Recycler([], false, 2, None, {}, {0, 1}, map[0 := Gone0(), 1 := Gone0()], {}, None, [])
  }

  /** An accessor in a call of op for the key. */
  function Caller(pc: Pc, op: Op): Thread {
    Thread(pc, op, KEY, NoResult, 0, 0, NIL, -1, NIL, [NIL, NIL], [NIL, NIL], 0, [], false, NIL, false, NIL, NIL, [],
      Gone0())
  }

  function Adder(pc: Pc): Thread {
    Caller(pc, Add).(pred := 1, preds := [1, NIL], height := 1)
  }

  function Finder(pc: Pc): Thread {
    Caller(pc, Find).(pred := 1, layer := 1)
  }

  function Remover(pc: Pc): Thread {
    Caller(pc, Remove).(pred := 1, preds := [1, NIL], succs := [2, NIL], foundLayer := 0, foundNode := 2)
  }

  /** The registers of the adding accessor after k steps. */
  function AdderAt(k: nat): Thread {
    if k == 0 then Caller(Outside, Add)
    else if k == 1 then Caller(Idle, Add)
    else if k == 2 then Caller(SMax, Add)
    else if k == 3 then Caller(SHead, Add)
    else if k == 4 then Caller(SNode, Add).(pred := 1)
    else if k == 5 then Adder(APick).(height := 0)
    else if k == 6 then Adder(Lk)
    else if k == 7 then Adder(LkCheck).(guards := [1])
    else if k == 8 then Adder(ACreate).(guards := [1])
    else if k == 9 then Adder(ALink).(guards := [1], target := 2)
    else Adder(AFull).(guards := [1], target := 2)
  }

  /** The registers of the other accessor after k steps: a find, then a remove. */
  function Refusing(k: nat): Thread {
    if k == 0 then Caller(Outside, Find)
    else if k == 1 then Caller(Idle, Find)
    else if k == 2 then Caller(FHead, Find)
    else if k == 3 then Finder(FDown)
    else if k == 4 then Finder(FMarked).(foundNode := 2)
    else if k == 5 then Finder(Returned).(foundNode := 2, res := Found(2))
    else if k == 6 then Finder(Idle).(foundNode := 2, res := Found(2))
    else if k == 7 then Caller(SMax, Remove)
    else if k == 8 then Caller(SHead, Remove)
    else if k == 9 then Caller(SNode, Remove).(pred := 1)
    else if k == 10 then Remover(RFull)
    else Remover(Returned).(res := NotRemoved)
  }

  function AddList(k: nat): List {
    if k < 7 then Empty() else if k < 9 then HeadLocked() else if k < 10 then Made() else Linked()
  }

  function AddRec(k: nat): Recycler {
    if k == 0 then Rec0() else Rec1()
  }

  function RefuseRec(k: nat): Recycler {
    if k == 0 then Rec1() else Rec2()
  }

  ghost predicate AddsOn(k: nat) {
    ThreadStep(Cfg(), 0, AddList(k), AddRec(k), AdderAt(k), AddList(k + 1), AddRec(k + 1), AdderAt(k + 1))
  }

  ghost predicate RefusesOn(k: nat) {
    ThreadStep(Cfg(), 1, Linked(), RefuseRec(k), Refusing(k), Linked(), RefuseRec(k + 1), Refusing(k + 1))
  }

  /** The add enters, and searches an empty list. */
  lemma AddSearches(k: nat)
    requires k < 5
    ensures AddsOn(k)
  {
    if k < 3 {
    } else if k == 3 {
    } else {
    }
  }

  /** It chooses a height. */
  lemma AddPicks()
    ensures AddsOn(5)
  {
  }

  /** It locks the head. */
  lemma AddLocks()
    ensures AddsOn(6)
  {
    assert SetLock(Empty(), 1, Some(0)) == HeadLocked();
  }

  /** It checks the link. */
  lemma AddChecks()
    ensures AddsOn(7)
  {
  }

  /** It makes its node. */
  lemma AddMakes()
    ensures AddsOn(8)
  {
    assert NewNode(1, KEY, 0) == Item();
    assert HeadLocked().(nodes := HeadLocked().nodes + [Item()]) == Made();
  }

  lemma LinkMade()
    ensures LinkNode(Made(), 0, 1, 2, NIL) == Linked()
  {
    assert [NIL][0 := NIL] == [NIL] && [NIL][0 := 2] == [2] && {1} + {2} == {1, 2};
    assert SetSkip(Made(), 0, 2, NIL).nodes == Made().nodes;
    assert LinkNode(Made(), 0, 1, 2, NIL).nodes == Linked().nodes;
    assert LinkNode(Made(), 0, 1, 2, NIL).lin == Linked().lin;
  }

  /** It links the node. */
  lemma AddLinks()
    ensures AddsOn(9)
  {
    LinkMade();
  }

  /** The other accessor enters, and calls find. */
  lemma Enters(k: nat)
    requires k < 3
    ensures RefusesOn(k)
  {
  }

  /** The find sees the node, not marked. */
  lemma Finds(k: nat)
    requires 3 <= k < 5
    ensures RefusesOn(k)
  {
    assert Skip(Linked(), 0, 1) == 2;
  }

  /** It returns, and remove is called. */
  lemma Removes(k: nat)
    requires 5 <= k < 9
    ensures RefusesOn(k)
  {
    if k < 7 {
    } else {
    }
  }

  /** The remove finds the same node, not fully linked. */
  lemma GivesUp(k: nat)
    requires 9 <= k < 11
    ensures RefusesOn(k)
  {
    assert Skip(Linked(), 0, 1) == 2;
  }

  /** State n of the run: the adder's steps, then the other accessor's. */
  function StateAt(n: nat): State {
    if n <= 10 then State(AddList(n), AddRec(n), [AdderAt(n), Refusing(0)])
    else State(Linked(), Rec2(), [AdderAt(10), Refusing(n - 10)])
  }

  function TheRun(): seq<State> {
    seq(22, n requires 0 <= n => StateAt(n))
  }

  lemma StartsRight()
    ensures Init(Cfg(), StateAt(0))
  {
  }

  lemma StateStep(n: nat)
    requires n < 21
    ensures StepBy(Cfg(), StateAt(n), if n < 10 then 0 else 1, StateAt(n + 1))
  {
    hide ThreadStep, AdderAt, Refusing;
    if n < 5 {
      AddSearches(n);
    } else if n < 6 {
      AddPicks();
    } else if n < 7 {
      AddLocks();
    } else if n < 8 {
      AddChecks();
    } else if n < 9 {
      AddMakes();
    } else if n < 10 {
      AddLinks();
    } else if n < 13 {
      Enters(n - 10);
    } else if n < 15 {
      Finds(n - 10);
    } else if n < 19 {
      Removes(n - 10);
    } else {
      GivesUp(n - 10);
    }
  }

  lemma TheRunIsRun()
    ensures Run(Cfg(), TheRun())
  {
    StartsRight();
    hide Init, StepBy, StateAt;
    forall n: nat ensures StepAt(Cfg(), TheRun(), n) {
      if n + 1 < 22 {
        StateStep(n);
        assert Next(Cfg(), StateAt(n), StateAt(n + 1));
      }
    }
  }

  lemma KeyIsLive(n: nat)
    requires 10 <= n <= 21
    ensures Live(StateAt(n).l, KEY) && !Committed(StateAt(n).l, KEY)
  {
    var l := Linked();
    assert StateAt(n).l == l;
    hide StateAt;
    assert Holds(l, KEY, 2) && !Marked(l, 2);
  }

  lemma Calls()
    ensures InFind(TheRun(), 1, 12, 15) && TheRun()[15].threads[1].res == Found(2) && TheRun()[15].threads[1].key == KEY
    ensures InRemove(TheRun(), 1, 17, 21) && Refused(TheRun()[21].threads[1]) && TheRun()[17].threads[1].key == KEY
  {
    var r := TheRun();
    forall n: nat | n < 22 ensures |r[n].threads| == 2 && (n >= 10 ==> r[n].threads[1] == Refusing(n - 10)) {
      assert r[n] == StateAt(n);
    }
    hide StateAt, TheRun;
  }

  /** A find of the key returns its node; then a remove of the key by the same accessor
      returns false, though the key is in the set in every state of both calls. The node
      is linked on the bottom layer, and its maker has not set fullyLinked yet. So remove
      does not take effect at one instant together with find, unlike find and add. */
  lemma RemoveRefusesLiveKey() returns (cfg: Config, r: seq<State>, i: nat, j: nat)
    ensures Run(cfg, r) && InRemove(r, 1, i, j) && Refused(r[j].threads[1])
    ensures InFind(r, 1, 12, 15) && r[15].threads[1].res == Found(2) && r[15].threads[1].key == r[i].threads[1].key
    ensures 15 <= i < j
    ensures forall x :: 12 <= x <= j ==> Live(r[x].l, r[i].threads[1].key)
  {
    cfg, r, i, j := Cfg(), TheRun(), 17, 21;
    TheRunIsRun();
    Calls();
    hide Run, InFind, InRemove;
    forall x | 12 <= x <= j ensures Live(r[x].l, KEY) {
      KeyIsLive(x);
    }
  }
}
