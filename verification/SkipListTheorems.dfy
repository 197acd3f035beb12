/** What the skip list promises, for every run of any number of accessors. */
module SkipListTheorems {

  import opened Common
  import opened SkipListState
  import opened SkipListInvariant
  import opened SkipListLinks
  import opened SkipListProof
  import opened SkipListSteps
  import opened SkipListReclaim
  import opened SkipListReclaimProof

  lemma StepAtKeepsInv(cfg: Config, r: seq<State>, i: nat) returns (t: Tid)
    requires StepAt(cfg, r, i) && i + 1 < |r| && FullInv(cfg, r[i])
    ensures StepBy(cfg, r[i], t, r[i + 1]) && Evolve(t, r[i].l, r[i + 1].l) && FullInv(cfg, r[i + 1])
  {
    hide FullInv, Evolve, StepBy;
    t :| StepBy(cfg, r[i], t, r[i + 1]);
    StepKeepsFull(cfg, r[i], t, r[i + 1]);
  }

  lemma {:induction false} RunKeepsInv(cfg: Config, r: seq<State>, i: nat)
    requires Run(cfg, r) && i < |r|
    ensures FullInv(cfg, r[i])
  {
    hide FullInv, Init, StepBy, Evolve;
    if i == 0 {
      InitFull(cfg, r[0]);
    } else {
      RunKeepsInv(cfg, r, i - 1);
      assert StepAt(cfg, r, i - 1);
      var t := StepAtKeepsInv(cfg, r, i - 1);
    }
  }

  /** The accessor that makes step i, with what its step did to the list. */
  lemma RunStep(cfg: Config, r: seq<State>, i: nat) returns (t: Tid)
    requires Run(cfg, r) && i + 1 < |r|
    ensures StepBy(cfg, r[i], t, r[i + 1]) && Evolve(t, r[i].l, r[i + 1].l)
    ensures FullInv(cfg, r[i]) && FullInv(cfg, r[i + 1])
  {
    hide FullInv, Init, StepBy, Evolve;
    RunKeepsInv(cfg, r, i);
    assert StepAt(cfg, r, i);
    t := StepAtKeepsInv(cfg, r, i);
  }

  lemma RunList(cfg: Config, r: seq<State>, i: nat)
    requires Run(cfg, r) && i < |r|
    ensures ListInv(cfg, r[i].l)
  {
    hide Run;
    RunKeepsInv(cfg, r, i);
  }

  // ---------- the shape of the list ----------

  /** p is the walk along the links of layer k, from x to the end. */
  ghost predicate Walk(l: List, k: nat, x: nat, p: seq<nat>) {
    && |p| > 0 && p[0] == x && Skip(l, k, p[|p| - 1]) == NIL
    && forall i :: 0 <= i < |p| - 1 ==> Skip(l, k, p[i]) == p[i + 1]
  }

  ghost predicate Sorted(l: List, p: seq<nat>) {
    forall i, j :: 0 <= i < j < |p| ==> Precedes(l, p[i], p[j])
  }

  ghost function After(l: List, k: nat, x: nat): set<nat>
    requires k < |l.lin|
  {
    set y | y in l.lin[k] && Precedes(l, x, y)
  }

  lemma NextIsFirst(cfg: Config, l: List, k: nat, x: nat)
    requires ListInv(cfg, l) && k < |l.lin| && x in l.lin[k]
    ensures var s := Skip(l, k, x);
            if s == NIL then After(l, k, x) == {}
            else s in l.lin[k] && Precedes(l, x, s) && After(l, k, x) == After(l, k, s) + {s} && s !in After(l, k, s)
  {
    assert NextOk(l, k, x);
    var s := Skip(l, k, x);
    if s != NIL {
      forall y | y in After(l, k, s) ensures y in After(l, k, x) {
        PrecedesTransitive(l, x, s, y);
      }
    }
  }

  lemma {:induction false} WalkFrom(cfg: Config, l: List, k: nat, x: nat) returns (p: seq<nat>)
    requires ListInv(cfg, l) && k < |l.lin| && x in l.lin[k]
    ensures Walk(l, k, x, p) && Sorted(l, p)
    ensures forall y :: y in p <==> y == x || y in After(l, k, x)
    decreases |After(l, k, x)|
  {
    hide ListInv, Precedes;
    NextIsFirst(cfg, l, k, x);
    var s := Skip(l, k, x);
    if s == NIL {
      p := [x];
    } else {
      var rest := WalkFrom(cfg, l, k, s);
      p := [x] + rest;
      SortedCons(l, x, s, rest);
      assert Skip(l, k, p[|p| - 1]) == NIL;
      forall i | 0 <= i < |p| - 1 ensures Skip(l, k, p[i]) == p[i + 1] {
        if i > 0 {
          assert Skip(l, k, rest[i - 1]) == rest[i];
        }
      }
    }
  }

  lemma SortedCons(l: List, x: nat, s: nat, rest: seq<nat>)
    requires Sorted(l, rest) && |rest| > 0 && rest[0] == s && Precedes(l, x, s)
    ensures Sorted(l, [x] + rest)
  {
    var p := [x] + rest;
    forall i, j | 0 <= i < j < |p| ensures Precedes(l, p[i], p[j]) {
      if i > 0 {
        assert Precedes(l, rest[i - 1], rest[j - 1]);
      } else if j > 1 {
        PrecedesTransitive(l, x, s, rest[j - 1]);
      }
    }
  }

  /** From the head, the links of each layer lead through strictly increasing keys to the
      end, visiting exactly the nodes linked there; layer k + 1 has some of the nodes of layer k. */
  lemma LayersAreSorted(cfg: Config, r: seq<State>, i: nat, k: nat) returns (p: seq<nat>)
    requires Run(cfg, r) && i < |r| && k < Height(r[i].l, r[i].l.head)
    ensures Walk(r[i].l, k, r[i].l.head, p) && Sorted(r[i].l, p)
    ensures k < |r[i].l.lin| && forall x :: x in p <==> x in r[i].l.lin[k]
    ensures k + 1 < |r[i].l.lin| ==> forall x :: x in r[i].l.lin[k + 1] ==> x in p
  {
    RunList(cfg, r, i);
    var l := r[i].l;
    p := WalkFrom(cfg, l, k, l.head);
    forall x ensures x in p <==> x in l.lin[k] {
      assert x in l.lin[k] ==> LinOk(l, k, x);
    }
    if k + 1 < |l.lin| {
      forall x | x in l.lin[k + 1] ensures x in p {
        LinkedBelow(l, k, k + 1, x);
      }
    }
  }

  /** No two linked nodes share a key. */
  lemma NoTwoNodesShareAKey(cfg: Config, r: seq<State>, i: nat, k: nat, x: nat, y: nat)
    requires Run(cfg, r) && i < |r| && k < |r[i].l.lin| && x in r[i].l.lin[k] && y in r[i].l.lin[k]
    requires IsItem(r[i].l, x) && IsItem(r[i].l, y) && r[i].l.nodes[x].key == r[i].l.nodes[y].key
    ensures x == y
  {
    RunList(cfg, r, i);
    if x != y {
      TotalAt(r[i].l, k, x, y);
    }
  }

  /** A fully linked, unmarked node is linked on all its layers, and reached from the current head on each. */
  lemma FullyLinkedEverywhere(cfg: Config, r: seq<State>, i: nat, x: nat, k: nat) returns (p: seq<nat>)
    requires Run(cfg, r) && i < |r| && Full(r[i].l, x) && !Marked(r[i].l, x) && k < Height(r[i].l, x)
    ensures k < |r[i].l.lin| && x in r[i].l.lin[k]
    ensures Walk(r[i].l, k, r[i].l.head, p) && x in p
  {
    RunList(cfg, r, i);
    var l := r[i].l;
    assert FullOk(l, x) && Ever(l, k, x);
    assert x in l.gone[k] ==> GoneOk(l, k, x);
    assert LinOk(l, k, x);
    p := LayersAreSorted(cfg, r, i, k);
  }

  // ---------- memory safety ----------

  /** No step dereferences null, a destroyed node, or a link above a node's height, and the
      recycler destroys no node twice. */
  lemma AccessesAreSafe(cfg: Config, r: seq<State>, i: nat, t: Tid)
    requires Run(cfg, r) && i < |r| && t < |r[i].threads|
    ensures SafeAccess(cfg, r[i].l, r[i].rec, r[i].threads[t])
  {
    hide Run, SafeAccess;
    RunKeepsInv(cfg, r, i);
    assert ThreadInv(cfg, t, r[i].l, r[i].threads[t]) && ThreadRec(t, r[i].l, r[i].rec, r[i].threads[t]);
    SafeFromInv(cfg, t, r[i].l, r[i].rec, r[i].threads[t]);
  }

  /** Node x was linked at layer k some time since accessor t began. */
  ghost predicate Reachable(s: State, t: Tid, k: nat, x: nat) {
    t in s.rec.eras && k < |s.rec.eras[t]| && Ever(s.l, k, x) && x !in s.rec.eras[t][k]
  }

  lemma RegIsClosed(cfg: Config, l: List, rec: Recycler, t: Tid, k: nat, x: nat)
    requires ListInv(cfg, l) && RecInv(l, rec) && t in rec.eras && Reg(l, rec.eras[t], k, x)
    ensures Usable(l, rec.freed, x)
    ensures var y := Skip(l, k, x); y == NIL || (Reg(l, rec.eras[t], k, y) && Usable(l, rec.freed, y))
  {
    EraIsWin(l, rec, t);
    hide ListInv, RecInv, WinOk, Usable;
    RegUsable(cfg, t, l, rec, rec.eras[t], k, x);
    RegNext(cfg, l, rec.eras[t], k, x);
    if Skip(l, k, x) != NIL {
      RegUsable(cfg, t, l, rec, rec.eras[t], k, Skip(l, k, x));
    }
  }

  lemma EraIsWin(l: List, rec: Recycler, t: Tid)
    requires RecInv(l, rec) && t in rec.eras
    ensures WinOk(l, rec.eras[t])
  {
  }

  /** Whatever a live accessor can reach by following links from such a node is again
      such a node, and none is destroyed, though addRef takes no lock. */
  lemma ReachableIsClosed(cfg: Config, r: seq<State>, i: nat, t: Tid, k: nat, x: nat)
    requires Run(cfg, r) && i < |r| && Reachable(r[i], t, k, x)
    ensures x !in r[i].rec.freed
    ensures var y := Skip(r[i].l, k, x); y == NIL || (Reachable(r[i], t, k, y) && y !in r[i].rec.freed)
    ensures k > 0 ==> Reachable(r[i], t, k - 1, x)
  {
    RunKeepsInv(cfg, r, i);
    hide Run, RecInv, ListInv, WinOk;
    RegIsClosed(cfg, r[i].l, r[i].rec, t, k, x);
    if k > 0 {
      EraIsWin(r[i].l, r[i].rec, t);
      RegDown(cfg, r[i].l, r[i].rec.eras[t], k - 1, k, x);
    }
  }

  /** refs counts the live accessors: it is never negative, and positive while one exists. */
  lemma RefsCountAccessors(cfg: Config, r: seq<State>, i: nat, t: Tid)
    requires Run(cfg, r) && i < |r| && t < |r[i].threads|
    ensures r[i].rec.refs == |r[i].rec.refset|
    ensures t in r[i].rec.refset <==> !r[i].threads[t].pc.Outside?
    ensures !r[i].threads[t].pc.Outside? ==> r[i].rec.refs > 0
  {
    RunKeepsInv(cfg, r, i);
    assert ThreadRec(t, r[i].l, r[i].rec, r[i].threads[t]);
  }

  // ---------- the abstract set ----------

  ghost predicate Holds(l: List, d: int, x: nat) {
    |l.lin| > 0 && x in l.lin[0] && IsItem(l, x) && l.nodes[x].key == d
  }

  /** Key d is in the set: an unmarked node with key d is linked on the bottom layer. */
  ghost predicate Live(l: List, d: int) {
    exists x :: Holds(l, d, x) && !Marked(l, x)
  }

  ghost predicate Present(l: List, d: int) {
    exists x :: Holds(l, d, x)
  }

  /** The step links a new node on the bottom layer. */
  predicate Adds(th: Thread) {
    th.pc.ALink? && th.layer == 0
  }

  /** The step marks a node. */
  predicate Marks(l: List, th: Thread) {
    th.pc.RMark? && !Marked(l, th.target)
  }

  lemma OneHolder(cfg: Config, l: List, d: int, x: nat, y: nat)
    requires ListInv(cfg, l) && Holds(l, d, x) && Holds(l, d, y)
    ensures x == y
  {
    if x != y {
      TotalAt(l, 0, x, y);
    }
  }

  /** Just before its node is linked on the bottom layer, an add's key is absent. */
  lemma AddIsAbsent(cfg: Config, t: Tid, l: List, th: Thread)
    requires ListInv(cfg, l) && ThreadInv(cfg, t, l, th) && Adds(th)
    ensures !Present(l, th.key)
  {
    AddCanLink(cfg, t, l, th);
    forall y ensures !Holds(l, th.key, y) {
      if Holds(l, th.key, y) {
        LinkTotal(l, t, 0, th.preds[0], th.target, y);
      }
    }
  }

  lemma SameLive(a: List, b: List, d: int)
    requires forall x :: Holds(b, d, x) && !Marked(b, x) <==> Holds(a, d, x) && !Marked(a, x)
    ensures Live(b, d) <==> Live(a, d)
  {
  }

  /** The same nodes are linked, with the same keys and marks. */
  ghost predicate SameHeld(a: List, b: List) {
    && b.lin == a.lin && |a.nodes| <= |b.nodes|
    && forall x :: 0 <= x < |a.nodes| ==>
         b.nodes[x].key == a.nodes[x].key && b.nodes[x].isHead == a.nodes[x].isHead
         && b.nodes[x].marked == a.nodes[x].marked
  }

  lemma HeldSame(a: List, b: List, d: int)
    requires |a.lin| > 0 && SameHeld(a, b)
    requires forall x :: x in a.lin[0] ==> x < |a.nodes|
    ensures Live(b, d) <==> Live(a, d)
  {
    forall x ensures Holds(b, d, x) && !Marked(b, x) <==> Holds(a, d, x) && !Marked(a, x) {
    }
    SameLive(a, b, d);
  }

  lemma LinkEffect(t: Tid, l: List, k: nat, p: nat, x: nat, d: int)
    requires Order(l) && CanLink(l, t, k, p, x)
    ensures Live(LinkedList(l, k, p, x), d) <==> Live(l, d) || (k == 0 && d == l.nodes[x].key)
  {
    var b := LinkedList(l, k, p, x);
    LinkFacts(l, t, k, p, x);
    hide Order, CanLink, LinkedList;
    forall y: nat
      ensures Holds(b, d, y) && !Marked(b, y) <==>
              (Holds(l, d, y) && !Marked(l, y)) || (k == 0 && y == x && d == l.nodes[x].key)
    {
    }
    assert k == 0 && d == l.nodes[x].key ==> Holds(b, d, x) && !Marked(b, x);
  }

  lemma UnlinkEffect(t: Tid, l: List, k: nat, p: nat, x: nat, d: int)
    requires Order(l) && CanUnlink(l, t, k, p, x)
    ensures Live(UnlinkNode(l, k, p, x), d) <==> Live(l, d)
  {
    var b := UnlinkNode(l, k, p, x);
    UnlinkFacts(l, t, k, p, x);
    assert Marked(l, x);
    hide Order, CanUnlink, UnlinkNode;
    forall y: nat ensures Holds(b, d, y) && !Marked(b, y) <==> Holds(l, d, y) && !Marked(l, y) {
    }
    SameLive(l, b, d);
  }

  lemma SwapEffect(cfg: Config, t: Tid, l: List, from: nat, to: nat, d: int)
    requires CanSwap(cfg, l, t, from, to)
    ensures Live(SwapHead(l, from, to, t), d) <==> Live(l, d)
  {
    var b := SwapHead(l, from, to, t);
    SwapFacts(cfg, l, t, from, to);
    assert l.nodes[from].isHead && l.nodes[to].isHead;
    hide CanSwap, SwapHead;
    forall y: nat ensures Holds(b, d, y) && !Marked(b, y) <==> Holds(l, d, y) && !Marked(l, y) {
    }
    SameLive(l, b, d);
  }

  lemma WasLive(cfg: Config, l: List, x: nat)
    requires ListInv(cfg, l) && Full(l, x) && !Marked(l, x) && IsItem(l, x)
    ensures Holds(l, l.nodes[x].key, x)
  {
    assert NodeOk(cfg, l.nodes[x]) && FullOk(l, x) && Ever(l, 0, x);
    assert x in l.gone[0] ==> GoneOk(l, 0, x);
  }

  lemma MarkEffect(cfg: Config, t: Tid, l: List, x: nat, d: int)
    requires ListInv(cfg, l) && Full(l, x) && !Marked(l, x) && IsItem(l, x)
    ensures Live(l, l.nodes[x].key)
    ensures Live(SetNode(l, x, l.nodes[x].(marked := true, marker := t)), d) <==> Live(l, d) && d != l.nodes[x].key
  {
    var b := SetNode(l, x, l.nodes[x].(marked := true, marker := t));
    WasLive(cfg, l, x);
    hide ListInv;
    forall y: nat ensures Holds(b, d, y) && !Marked(b, y) <==> Holds(l, d, y) && !Marked(l, y) && d != l.nodes[x].key {
      if Holds(l, d, y) && d == l.nodes[x].key {
        OneHolder(cfg, l, d, x, y);
      }
    }
  }

  lemma LinkedAreNodes(cfg: Config, l: List)
    requires ListInv(cfg, l)
    ensures |l.lin| > 0 && forall x :: x in l.lin[0] ==> x < |l.nodes|
  {
    forall x | x in l.lin[0] ensures x < |l.nodes| {
      assert LinOk(l, 0, x);
    }
  }

  predicate LocksOrUnlocks(pc: Pc) {
    pc.RLock? || pc.Lk? || pc.GLock? || pc.Unlock? || pc.RUnlock? || pc.GUnlock?
  }

  lemma LockWrites(cfg: Config, t: Tid, l: List, rec: Recycler, th: Thread, l': List, th': Thread)
    requires SafeAccess(cfg, l, rec, th) && WriteStep(cfg, t, l, rec, th, l', th') && LocksOrUnlocks(th.pc)
    ensures SameHeld(l, l')
  {
    match th.pc
    case RLock => case Lk => case GLock => case Unlock => case RUnlock => case GUnlock =>
  }

  lemma CreateWrites(cfg: Config, t: Tid, l: List, rec: Recycler, th: Thread, l': List, th': Thread)
    requires SafeAccess(cfg, l, rec, th) && WriteStep(cfg, t, l, rec, th, l', th')
    requires th.pc.ACreate? || th.pc.GCopy?
    ensures SameHeld(l, l')
  {
    hide SafeAccess;
  }

  lemma FlagWrites(cfg: Config, t: Tid, l: List, rec: Recycler, th: Thread, l': List, th': Thread)
    requires SafeAccess(cfg, l, rec, th) && WriteStep(cfg, t, l, rec, th, l', th')
    requires !LocksOrUnlocks(th.pc) && !th.pc.ACreate? && !th.pc.GCopy?
    requires !th.pc.ALink? && !th.pc.RUnlink? && !Marks(l, th) && !(th.pc.GCas? && l.head == th.oldHead)
    ensures SameHeld(l, l')
  {
  }

  /** Writes other than linking, unlinking, marking and growing do not touch the set. */
  lemma OtherEffect(cfg: Config, t: Tid, l: List, rec: Recycler, th: Thread, l': List, th': Thread, d: int)
    requires ListInv(cfg, l) && SafeAccess(cfg, l, rec, th) && WriteStep(cfg, t, l, rec, th, l', th')
    requires !th.pc.ALink? && !th.pc.RUnlink? && !Marks(l, th) && !(th.pc.GCas? && l.head == th.oldHead)
    ensures Live(l', d) <==> Live(l, d)
  {
    if LocksOrUnlocks(th.pc) {
      LockWrites(cfg, t, l, rec, th, l', th');
    } else if th.pc.ACreate? || th.pc.GCopy? {
      CreateWrites(cfg, t, l, rec, th, l', th');
    } else {
      FlagWrites(cfg, t, l, rec, th, l', th');
    }
    LinkedAreNodes(cfg, l);
    hide WriteStep, ListInv, SafeAccess, SameHeld, Live;
    HeldSame(l, l', d);
  }

  lemma WriteEffect(cfg: Config, t: Tid, l: List, rec: Recycler, th: Thread, l': List, th': Thread, d: int)
    requires ListInv(cfg, l) && ThreadInv(cfg, t, l, th) && SafeAccess(cfg, l, rec, th)
             && WriteStep(cfg, t, l, rec, th, l', th')
    ensures Live(l', d) <==> (Live(l, d) || (Adds(th) && d == th.key)) && !(Marks(l, th) && d == th.key)
    ensures Marks(l, th) ==> Live(l, th.key)
  {
    hide Shape, Order, Layers, SearchInv, GuardInv, OwnerInv, GrowInv, FindInv, Live;
    if th.pc.ALink? {
      AddCanLink(cfg, t, l, th);
      LinkEffect(t, l, th.layer, th.preds[th.layer], th.target, d);
    } else if th.pc.RUnlink? {
      RemoveCanUnlink(cfg, t, l, th);
      UnlinkEffect(t, l, th.layer, th.preds[th.layer], th.target, d);
    } else if Marks(l, th) {
      MarkEffect(cfg, t, l, th.target, d);
    } else if th.pc.GCas? && l.head == th.oldHead {
      GrowCanSwap(cfg, t, l, th);
      SwapEffect(cfg, t, l, th.oldHead, th.newHead, d);
    } else {
      OtherEffect(cfg, t, l, rec, th, l', th', d);
    }
  }

  lemma ThreadStepEffect(cfg: Config, t: Tid, l: List, rec: Recycler, th: Thread, l': List, rec': Recycler,
      th': Thread, d: int)
    requires ListInv(cfg, l) && ThreadInv(cfg, t, l, th) && ThreadStep(cfg, t, l, rec, th, l', rec', th')
    ensures Live(l', d) <==> (Live(l, d) || (Adds(th) && d == th.key)) && !(Marks(l, th) && d == th.key)
    ensures Adds(th) ==> !Present(l, th.key)
    ensures Marks(l, th) ==> Live(l, th.key)
  {
    hide ListInv, ThreadInv, Live, Present, ReadStep, RecStep, CallStep;
    if Adds(th) {
      AddIsAbsent(cfg, t, l, th);
    }
    if rec' == rec && WriteStep(cfg, t, l, rec, th, l', th') {
      hide WriteStep;
      WriteEffect(cfg, t, l, rec, th, l', th', d);
    } else {
      ReadsDoNotChange(cfg, t, l, rec, th, l', rec', th');
    }
  }

  lemma ReadsDoNotChange(cfg: Config, t: Tid, l: List, rec: Recycler, th: Thread, l': List, rec': Recycler, th': Thread)
    requires ThreadStep(cfg, t, l, rec, th, l', rec', th') && !(rec' == rec && WriteStep(cfg, t, l, rec, th, l', th'))
    ensures l' == l && !Adds(th) && !Marks(l, th)
  {
  }

  /** The set changes only at two kinds of steps: linking a new node on the bottom layer
      adds its key, which was absent; marking a node removes its key, which was present. */
  lemma KeySetChanges(cfg: Config, r: seq<State>, i: nat, d: int) returns (t: Tid)
    requires Run(cfg, r) && i + 1 < |r|
    ensures StepBy(cfg, r[i], t, r[i + 1])
    ensures var l, th := r[i].l, r[i].threads[t];
            && (Adds(th) ==> !Present(l, th.key)) && (Marks(l, th) ==> Live(l, th.key))
            && (Live(r[i + 1].l, d) <==> (Live(l, d) || (Adds(th) && d == th.key)) && !(Marks(l, th) && d == th.key))
  {
    t := RunStep(cfg, r, i);
    hide Run, Live, Present, Evolve, RecInv, ThreadStep;
    ThreadStepEffect(cfg, t, r[i].l, r[i].rec, r[i].threads[t], r[i + 1].l, r[i + 1].rec, r[i + 1].threads[t], d);
  }

  /** A find that returns a node, and an add that returns an existing one, saw its key in
      the set at the step where it read the node's mark. */
  lemma HitsAreTruthful(cfg: Config, r: seq<State>, i: nat, t: Tid)
    requires Run(cfg, r) && i < |r| && t < |r[i].threads|
    requires r[i].threads[t].pc.FMarked? || r[i].threads[t].pc.AMarked?
    requires !Marked(r[i].l, r[i].threads[t].foundNode)
    ensures Live(r[i].l, r[i].threads[t].key) && Holds(r[i].l, r[i].threads[t].key, r[i].threads[t].foundNode)
  {
    RunKeepsInv(cfg, r, i);
    var l, th := r[i].l, r[i].threads[t];
    assert ThreadInv(cfg, t, l, th);
    FoundIsLinked(cfg, t, l, th);
  }

  lemma FoundIsLinked(cfg: Config, t: Tid, l: List, th: Thread)
    requires ListInv(cfg, l) && ThreadInv(cfg, t, l, th) && (th.pc.FMarked? || th.pc.AMarked?)
             && !Marked(l, th.foundNode)
    ensures Holds(l, th.key, th.foundNode)
  {
    var k := if th.pc.FMarked? then 0 else th.foundLayer;
    assert Ever(l, k, th.foundNode);
    EverAtBottom(cfg, l, k, th.foundNode);
    assert th.foundNode in l.gone[0] ==> GoneOk(l, 0, th.foundNode);
  }
}
