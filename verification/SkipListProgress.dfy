/** Deadlock freedom: accessors lock nodes in strictly descending key order, so waits
    never form a cycle, and whenever an accessor waits, another one can make a step. */
module SkipListProgress {

  import opened Common
  import opened SkipListState
  import opened SkipListInvariant
  import opened SkipListLinks
  import opened SkipListProof
  import opened SkipListReclaim
  import opened SkipListReclaimProof
  import opened SkipListTheorems
  import opened SkipListSize
  import opened SkipListWriters

  // ---------- node locks ----------

  /** The next step of the accessor acquires the lock of x. */
  predicate Wants(th: Thread, x: nat) {
    || (th.pc.Lk? && th.layer < |th.preds| && x == th.preds[th.layer] &&
        !(th.layer > 0 && th.preds[th.layer] == th.preds[th.layer - 1]))
    || (th.pc.RLock? && x == th.foundNode)
    || (th.pc.GLock? && x == th.oldHead)
  }

  /** Accessor t waits for the lock of x, which is taken. */
  predicate WaitsFor(s: State, t: Tid, x: nat) {
    t < |s.threads| && Wants(s.threads[t], x) && x < |s.l.nodes| && s.l.nodes[x].lock.Some?
  }

  lemma GuardsAfterWanted(cfg: Config, t: Tid, l: List, th: Thread, x: nat, y: nat)
    requires SearchInv(cfg, l, th) && GuardInv(t, l, th) && Wants(th, x) && th.pc.Lk? && y in th.guards
    ensures Precedes(l, x, y)
  {
    var i :| 0 <= i < |th.guards| && th.guards[i] == y;
    NextGuard(t, l, th, i);
  }

  /** Whatever an accessor holds comes after the node it wants. */
  lemma HeldAfterWanted(cfg: Config, t: Tid, l: List, th: Thread, x: nat, y: nat)
    requires ThreadInv(cfg, t, l, th) && Wants(th, x) && LockedBy(l, y, t)
    ensures Precedes(l, x, y)
  {
    if th.pc.Lk? {
      if y in th.guards {
        GuardsAfterWanted(cfg, t, l, th, x, y);
      } else {
        assert Entry(l, th, th.layer);
      }
    }
  }

  lemma WaitsDescendAt(cfg: Config, s: State, t: Tid, x: nat, u: Tid, y: nat)
    requires Inv(cfg, s) && WaitsFor(s, t, x) && LockedBy(s.l, x, u) && WaitsFor(s, u, y)
    ensures Precedes(s.l, y, x)
  {
    assert ThreadInv(cfg, u, s.l, s.threads[u]);
    HeldAfterWanted(cfg, u, s.l, s.threads[u], y, x);
  }

  lemma RunInv(cfg: Config, r: seq<State>, i: nat)
    requires Run(cfg, r) && i < |r|
    ensures Inv(cfg, r[i])
  {
    hide Run, Inv;
    RunKeepsInv(cfg, r, i);
  }

  /** Along a wait the wanted keys strictly descend. */
  lemma WaitsDescend(cfg: Config, r: seq<State>, i: nat, t: Tid, x: nat, u: Tid, y: nat)
    requires Run(cfg, r) && i < |r| && WaitsFor(r[i], t, x) && LockedBy(r[i].l, x, u) && WaitsFor(r[i], u, y)
    ensures Precedes(r[i].l, y, x)
  {
    hide Run, Inv;
    RunInv(cfg, r, i);
    WaitsDescendAt(cfg, r[i], t, x, u, y);
  }

  /** Accessor ts[k] waits for node xs[k], whose lock accessor ts[k + 1] has. */
  ghost predicate WaitChain(s: State, ts: seq<Tid>, xs: seq<nat>) {
    && 0 < |ts| == |xs|
    && (forall k :: 0 <= k < |ts| ==> WaitsFor(s, ts[k], xs[k]))
    && (forall k :: 0 <= k < |ts| - 1 ==> LockedBy(s.l, xs[k], ts[k + 1]))
  }

  lemma {:induction false} ChainDescends(cfg: Config, s: State, ts: seq<Tid>, xs: seq<nat>, k: nat)
    requires Inv(cfg, s) && WaitChain(s, ts, xs) && 0 < k < |ts|
    ensures Precedes(s.l, xs[k], xs[0])
  {
    hide Inv;
    WaitsDescendAt(cfg, s, ts[k - 1], xs[k - 1], ts[k], xs[k]);
    if k > 1 {
      ChainDescends(cfg, s, ts, xs, k - 1);
      PrecedesTransitive(s.l, xs[k], xs[k - 1], xs[0]);
    }
  }

  /** The waits-for graph has no cycle: no accessor at the start of a chain of waits has
      the lock that the last one waits for. */
  lemma NoWaitCycle(cfg: Config, r: seq<State>, i: nat, ts: seq<Tid>, xs: seq<nat>)
    requires Run(cfg, r) && i < |r| && WaitChain(r[i], ts, xs)
    ensures !LockedBy(r[i].l, xs[|xs| - 1], ts[0])
  {
    hide Run, Inv;
    RunInv(cfg, r, i);
    var s, n := r[i], |ts|;
    if LockedBy(s.l, xs[n - 1], ts[0]) {
      WaitsDescendAt(cfg, s, ts[n - 1], xs[n - 1], ts[0], xs[0]);
      if n > 1 {
        ChainDescends(cfg, s, ts, xs, n - 1);
      }
    }
  }

  // ---------- the wait for a node to be fully linked ----------

  /** A node that is linked and not fully linked is being linked by its maker. */
  ghost predicate LinkingInv(s: State) {
    forall x: nat :: IsItem(s.l, x) && Ever(s.l, 0, x) && !Full(s.l, x) ==> BeingLinked(s, s.l.nodes[x].maker, x)
  }

  predicate BeingLinked(s: State, u: Tid, x: nat) {
    u < |s.threads| && (s.threads[u].pc.ALink? || s.threads[u].pc.AFull?) && s.threads[u].target == x
  }

  ghost predicate LockOwnerInv(s: State) {
    s.rec.lock.Some? ==> s.rec.lock.value < |s.threads|
  }

  ghost predicate ProgressInv(cfg: Config, s: State) {
    CountInv(cfg, s) && LinkingInv(s) && LockOwnerInv(s)
  }

  /** The maker's own write: it goes on linking, or the node is now fully linked. */
  lemma MakerGoesOn(cfg: Config, t: Tid, l: List, rec: Recycler, th: Thread, l': List, th': Thread)
    requires SafeAccess(cfg, l, rec, th) && WriteStep(cfg, t, l, rec, th, l', th') && (th.pc.ALink? || th.pc.AFull?)
    ensures (th'.target == th.target && (th'.pc.ALink? || th'.pc.AFull?)) || Full(l', th.target)
  {
  }

  lemma AddMoves(cfg: Config, t: Tid, l: List, rec: Recycler, th: Thread, l': List, rec': Recycler, th': Thread)
    requires ThreadStep(cfg, t, l, rec, th, l', rec', th') && (th.pc.ALink? || th.pc.AFull?)
    ensures rec' == rec && WriteStep(cfg, t, l, rec, th, l', th')
  {
  }

  lemma NewItem(cfg: Config, t: Tid, l: List, rec: Recycler, th: Thread, l': List, th': Thread, x: nat)
    requires ListInv(cfg, l) && ThreadInv(cfg, t, l, th) && SafeAccess(cfg, l, rec, th)
             && WriteStep(cfg, t, l, rec, th, l', th')
    requires Evolve(t, l, l') && Ever(l', 0, x) && !Ever(l, 0, x) && IsItem(l', x)
    ensures th.pc.ALink? && x == th.target && MadeBy(l, x, t)
  {
    hide ListInv, SafeAccess, WriteStep, SearchInv, GuardInv, OwnerInv, RemoveInv, FindInv;
    NewlyLinked(cfg, t, l, rec, th, l', th', x);
    NewHeadIsHead(cfg, t, l, th, l');
  }

  lemma NewHeadIsHead(cfg: Config, t: Tid, l: List, th: Thread, l': List)
    requires GrowInv(cfg, t, l, th) && Evolve(t, l, l')
    ensures th.pc.GCas? ==> !IsItem(l', th.newHead)
  {
    if th.pc.GCas? {
      assert NodeEvolve(t, l.nodes[th.newHead], l'.nodes[th.newHead]);
    }
  }

  lemma LinkingOld(cfg: Config, s: State, t: Tid, s': State, x: nat)
    requires FullInv(cfg, s) && StepBy(cfg, s, t, s') && Evolve(t, s.l, s'.l) && LinkingInv(s)
    requires IsItem(s'.l, x) && Ever(s.l, 0, x) && !Full(s'.l, x)
    ensures BeingLinked(s', s'.l.nodes[x].maker, x)
  {
    var l, l', th, th' := s.l, s'.l, s.threads[t], s'.threads[t];
    assert ThreadInv(cfg, t, l, th);
    hide ListInv, RecInv, ThreadRec, SafeAccess, WriteStep, ReadStep, RecStep, CallStep;
    hide SearchInv, GuardInv, OwnerInv, AddInv, RemoveInv, GrowInv, FindInv, FlowInv;
    NodesStay(cfg, t, l, l', x);
    if l.nodes[x].maker == t {
      AddMoves(cfg, t, l, s.rec, th, l', s'.rec, th');
      MakerGoesOn(cfg, t, l, s.rec, th, l', th');
    }
  }

  lemma LinkingNew(cfg: Config, s: State, t: Tid, s': State, x: nat)
    requires FullInv(cfg, s) && StepBy(cfg, s, t, s') && Evolve(t, s.l, s'.l) && LinkingInv(s)
    requires IsItem(s'.l, x) && Ever(s'.l, 0, x) && !Ever(s.l, 0, x) && !Full(s'.l, x)
    ensures BeingLinked(s', s'.l.nodes[x].maker, x)
  {
    var l, l', th, th' := s.l, s'.l, s.threads[t], s'.threads[t];
    assert ThreadInv(cfg, t, l, th);
    hide ListInv, RecInv, ThreadRec, SafeAccess, WriteStep, ReadStep, RecStep, CallStep, LinkingInv;
    hide SearchInv, GuardInv, OwnerInv, AddInv, RemoveInv, GrowInv, FindInv, FlowInv;
    if !(s'.rec == s.rec && WriteStep(cfg, t, l, s.rec, th, l', th')) {
      OnlyListWrites(cfg, t, l, s.rec, th, l', s'.rec, th');
    }
    NewItem(cfg, t, l, s.rec, th, l', th', x);
    MakerGoesOn(cfg, t, l, s.rec, th, l', th');
    assert NodeEvolve(t, l.nodes[x], l'.nodes[x]);
  }

  lemma LinkingOf(cfg: Config, s: State, t: Tid, s': State, x: nat)
    requires FullInv(cfg, s) && StepBy(cfg, s, t, s') && Evolve(t, s.l, s'.l) && LinkingInv(s)
    requires IsItem(s'.l, x) && Ever(s'.l, 0, x) && !Full(s'.l, x)
    ensures BeingLinked(s', s'.l.nodes[x].maker, x)
  {
    hide FullInv, StepBy, Evolve, LinkingInv, BeingLinked;
    if Ever(s.l, 0, x) {
      LinkingOld(cfg, s, t, s', x);
    } else {
      LinkingNew(cfg, s, t, s', x);
    }
  }

  lemma NodesStay(cfg: Config, t: Tid, a: List, b: List, x: nat)
    requires ListInv(cfg, a) && Evolve(t, a, b) && Ever(a, 0, x) && IsItem(b, x) && !Full(b, x)
    ensures IsItem(a, x) && !Full(a, x) && b.nodes[x].maker == a.nodes[x].maker
  {
    EverIsNode(a, 0, x);
    assert NodeEvolve(t, a.nodes[x], b.nodes[x]);
  }

  lemma OnlyListWrites(cfg: Config, t: Tid, l: List, rec: Recycler, th: Thread, l': List, rec': Recycler, th': Thread)
    requires ThreadStep(cfg, t, l, rec, th, l', rec', th')
    requires !(rec' == rec && WriteStep(cfg, t, l, rec, th, l', th'))
    ensures l' == l
  {
    hide SafeAccess, WriteStep, ReadStep, RecStep, CallStep;
  }

  lemma RecOwner(cfg: Config, t: Tid, l: List, rec: Recycler, th: Thread, l': List, rec': Recycler, th': Thread)
    requires ThreadStep(cfg, t, l, rec, th, l', rec', th')
    ensures rec'.lock == rec.lock || rec'.lock == None || rec'.lock == Some(t)
  {
    hide SafeAccess, WriteStep, ReadStep, CallStep;
  }

  lemma LockOwnerKept(cfg: Config, s: State, t: Tid, s': State)
    requires LockOwnerInv(s) && StepBy(cfg, s, t, s')
    ensures LockOwnerInv(s')
  {
    hide ThreadStep;
    RecOwner(cfg, t, s.l, s.rec, s.threads[t], s'.l, s'.rec, s'.threads[t]);
  }

  lemma StepKeepsProgress(cfg: Config, s: State, t: Tid, s': State)
    requires ProgressInv(cfg, s) && StepBy(cfg, s, t, s')
    ensures ProgressInv(cfg, s')
  {
    hide FullInv, CountInv, Evolve, StepBy, LockOwnerInv;
    StepKeepsCount(cfg, s, t, s');
    CountIsFull(cfg, s);
    StepKeepsFull(cfg, s, t, s');
    LockOwnerKept(cfg, s, t, s');
    forall x: nat | IsItem(s'.l, x) && Ever(s'.l, 0, x) && !Full(s'.l, x)
      ensures BeingLinked(s', s'.l.nodes[x].maker, x)
    {
      LinkingStep(cfg, s, t, s', x);
    }
  }

  lemma CountIsFull(cfg: Config, s: State)
    requires CountInv(cfg, s)
    ensures FullInv(cfg, s)
  {
  }

  lemma LinkingStep(cfg: Config, s: State, t: Tid, s': State, x: nat)
    requires CountInv(cfg, s) && LinkingInv(s) && StepBy(cfg, s, t, s') && Evolve(t, s.l, s'.l)
    requires IsItem(s'.l, x) && Ever(s'.l, 0, x) && !Full(s'.l, x)
    ensures BeingLinked(s', s'.l.nodes[x].maker, x)
  {
    hide StepBy, FullInv, Evolve, LinkingInv, BeingLinked;
    LinkingOf(cfg, s, t, s', x);
  }

  lemma InitProgress(cfg: Config, s: State)
    requires Init(cfg, s)
    ensures ProgressInv(cfg, s)
  {
    InitCount(cfg, s);
    assert forall x: nat :: Ever(s.l, 0, x) ==> x == 1;
    hide CountInv;
  }

  lemma {:induction false} RunKeepsProgress(cfg: Config, r: seq<State>, i: nat)
    requires Run(cfg, r) && i < |r|
    ensures ProgressInv(cfg, r[i])
  {
    hide ProgressInv, Init, StepBy;
    if i == 0 {
      InitProgress(cfg, r[0]);
    } else {
      RunKeepsProgress(cfg, r, i - 1);
      assert StepAt(cfg, r, i - 1);
      var t: Tid :| StepBy(cfg, r[i - 1], t, r[i]);
      StepKeepsProgress(cfg, r[i - 1], t, r[i]);
    }
  }

  // ---------- whoever waits, somebody moves ----------

  /** Accessor t cannot go on until another one acts: a node lock or the recycler's lock is
      taken, or the node it found is not fully linked yet. */
  predicate Blocked(s: State, t: Tid) {
    t < |s.threads| &&
    var th := s.threads[t];
    || (exists x | 0 <= x < |s.l.nodes| :: WaitsFor(s, t, x))
    || ((th.pc.LLock? || th.pc.Recycle?) && s.rec.lock.Some?)
    || (th.pc.AWait? && !Full(s.l, th.foundNode))
  }

  /** In the middle of an operation, or of releasing the accessor. */
  predicate Working(pc: Pc) {
    !pc.Outside? && !pc.Idle? && !pc.Returned?
  }

  ghost predicate CanMove(s: State, u: Tid) {
    u < |s.threads| && Working(s.threads[u].pc) && !Blocked(s, u)
  }

  lemma RecyclerMoves(cfg: Config, s: State) returns (u: Tid)
    requires ProgressInv(cfg, s) && s.rec.lock.Some?
    ensures CanMove(s, u)
  {
    u := s.rec.lock.value;
    hide ListInv, ThreadInv, RecInv, SizeInv, ThreadSize, LinkingInv;
    assert ThreadRec(u, s.l, s.rec, s.threads[u]);
  }

  lemma FoundIsItem(cfg: Config, t: Tid, l: List, th: Thread)
    requires ListInv(cfg, l) && ThreadInv(cfg, t, l, th) && th.pc.AWait?
    ensures IsItem(l, th.foundNode) && Ever(l, 0, th.foundNode)
  {
    EverAtBottom(cfg, l, th.foundLayer, th.foundNode);
  }

  lemma FoundBeingLinked(cfg: Config, s: State, t: Tid)
    requires Inv(cfg, s) && LinkingInv(s) && t < |s.threads| && s.threads[t].pc.AWait?
             && !Full(s.l, s.threads[t].foundNode)
    ensures IsItem(s.l, s.threads[t].foundNode)
    ensures BeingLinked(s, s.l.nodes[s.threads[t].foundNode].maker, s.threads[t].foundNode)
  {
    hide ListInv, ThreadInv, BeingLinked;
    assert ThreadInv(cfg, t, s.l, s.threads[t]);
    FoundIsItem(cfg, t, s.l, s.threads[t]);
  }

  lemma LinkerMoves(cfg: Config, s: State, t: Tid) returns (u: Tid)
    requires ProgressInv(cfg, s) && t < |s.threads| && s.threads[t].pc.AWait? && !Full(s.l, s.threads[t].foundNode)
    ensures CanMove(s, u)
  {
    hide SizeInv, ThreadSize, RecInv, ThreadRec, Inv, LinkingInv, LockOwnerInv, OwnersExist;
    FoundBeingLinked(cfg, s, t);
    u := s.l.nodes[s.threads[t].foundNode].maker;
    assert forall x :: !Wants(s.threads[u], x);
  }

  ghost predicate WaitsBefore(s: State, t: Tid, x: nat) {
    exists y :: WaitsFor(s, t, y) && Precedes(s.l, y, x)
  }

  /** The accessors whose wanted node is before x. */
  ghost function StillAhead(s: State, x: nat): set<Tid> {
    set t | 0 <= t < |s.threads| && WaitsBefore(s, t, x)
  }

  lemma WantsOne(th: Thread, x: nat, y: nat)
    requires Wants(th, x) && Wants(th, y)
    ensures x == y
  {
  }

  lemma FewerAhead(s: State, u: Tid, x: nat, y: nat)
    requires WaitsFor(s, u, y) && Precedes(s.l, y, x)
    ensures StillAhead(s, y) < StillAhead(s, x)
  {
    forall t | t in StillAhead(s, y) ensures t in StillAhead(s, x) {
      var z :| WaitsFor(s, t, z) && Precedes(s.l, z, y);
      PrecedesTransitive(s.l, z, y, x);
    }
    assert u in StillAhead(s, x);
    if u in StillAhead(s, y) {
      var z :| WaitsFor(s, u, z) && Precedes(s.l, z, y);
      WantsOne(s.threads[u], y, z);
    }
  }

  lemma HolderWorks(cfg: Config, u: Tid, l: List, th: Thread, x: nat)
    requires ThreadInv(cfg, u, l, th) && LockedBy(l, x, u)
    ensures Working(th.pc) && !th.pc.LLock? && !th.pc.AWait?
  {
  }

  /** Follow a chain of waits to an accessor that has a lock and can go on. */
  lemma {:induction false} EndOfChain(cfg: Config, s: State, t: Tid, x: nat) returns (u: Tid)
    requires ProgressInv(cfg, s) && WaitsFor(s, t, x)
    ensures CanMove(s, u)
    decreases StillAhead(s, x)
  {
    u := s.l.nodes[x].lock.value;
    hide SizeInv, ThreadSize, RecInv, ThreadRec, ListInv, ThreadInv, LinkingInv, LockOwnerInv, Wants;
    assert u < |s.threads| && ThreadInv(cfg, u, s.l, s.threads[u]);
    HolderWorks(cfg, u, s.l, s.threads[u], x);
    if y :| 0 <= y < |s.l.nodes| && WaitsFor(s, u, y) {
      WaitsDescendAt(cfg, s, t, x, u, y);
      FewerAhead(s, u, x, y);
      u := EndOfChain(cfg, s, u, y);
    } else if s.rec.lock.Some? {
      u := RecyclerMoves(cfg, s);
    }
  }

  lemma SomeoneCanMove(cfg: Config, s: State, t: Tid) returns (u: Tid)
    requires ProgressInv(cfg, s) && Blocked(s, t)
    ensures CanMove(s, u)
  {
    hide ProgressInv, CanMove;
    if x :| 0 <= x < |s.l.nodes| && WaitsFor(s, t, x) {
      u := EndOfChain(cfg, s, t, x);
    } else if s.threads[t].pc.AWait? && !Full(s.l, s.threads[t].foundNode) {
      u := LinkerMoves(cfg, s, t);
    } else {
      u := RecyclerMoves(cfg, s);
    }
  }

  // ---------- a step for every accessor that is not blocked ----------

  predicate Reads(th: Thread) {
    || Searching(th.pc) || th.pc.AMarked? || th.pc.AWait? || th.pc.APick? || th.pc.RFull? || th.pc.RMarked?
    || th.pc.LkCheck? || th.pc.LkSucc? || th.pc.AHeight? || th.pc.GHead? || th.pc.FHead? || Finding(th.pc)
    || (th.pc.Unlock? && th.guards == [])
    || (th.pc.Lk? && th.layer < |th.preds| && th.layer > 0 && th.preds[th.layer] == th.preds[th.layer - 1])
  }

  /** The registers after a read; a height of 1 is picked, and the head is not grown. */
  function AfterRead(l: List, th: Thread): Thread
    requires |th.preds| == |th.succs| && Reads(th)
    requires th.pc.SNode? || Locking(th.pc) ==> th.layer < |th.preds|
    requires th.pc.SMax? ==> Height(l, l.head) > 0
    requires th.pc.FDown? ==> th.layer > 0
  {
    match th.pc
    case SMax => th.(pc := SHead, max := Height(l, l.head) - 1, foundLayer := -1, foundNode := NIL, win := l.gone)
    case SHead => th.(pc := SNode, pred := l.head, layer := th.max)
    case SNode =>
      var x := Skip(l, th.layer, th.pred);
      if Greater(l, th.key, x) then th.(pred := x) else LayerDone(l, th, x)
    case AMarked => Go(th, if Marked(l, th.foundNode) then SMax else AWait)
    case AWait => if Full(l, th.foundNode) then Return(th, Existing(th.foundNode)) else th
    case APick => StartLocking(th.(height := 1))
    case RFull =>
      if Full(l, th.foundNode) && Height(l, th.foundNode) - 1 == th.foundLayer then Go(th, RMarked)
      else Return(th, NotRemoved)
    case RMarked => if Marked(l, th.foundNode) then Return(th, NotRemoved) else Go(th, RLock)
    case Lk => Go(th, LkCheck)
    case LkCheck =>
      var p := th.preds[th.layer];
      if Marked(l, p) || Skip(l, th.layer, p) != th.succs[th.layer] then Go(th, Unlock)
      else if th.op == Add && th.succs[th.layer] != NIL then Go(th, LkSucc)
      else LayerLocked(th)
    case LkSucc => if Marked(l, th.succs[th.layer]) then Go(th, Unlock) else LayerLocked(th)
    case Unlock => Go(th, if !th.done then SMax else if th.op == Add then AHeight else Recycle)
    case AHeight => Return(th, Added(th.target))
    case GHead =>
      if Height(l, l.head) >= th.height then Return(th, Added(th.target)) else th.(pc := GLock, oldHead := l.head)
    case FHead => th.(pc := FDown, pred := l.head, layer := Height(l, l.head), win := l.gone)
    case FDown =>
      var x := Skip(l, th.layer - 1, th.pred);
      if Less(l, th.key, x) then (if th.layer == 1 then Return(th, Missing) else th.(layer := th.layer - 1))
      else if Greater(l, th.key, x) then th.(pc := FRight, layer := th.layer - 1, pred := x)
      else th.(pc := FMarked, foundNode := x)
    case FRight =>
      var x := Skip(l, th.layer, th.pred);
      if Greater(l, th.key, x) then th.(pred := x)
      else if !Less(l, th.key, x) then th.(pc := FMarked, foundNode := x)
      else if th.layer == 0 then Return(th, Missing) else Go(th, FDown)
    case _ => Return(th, if Marked(l, th.foundNode) then Missing else Found(th.foundNode))
  }

  lemma CanRead(cfg: Config, l: List, rec: Recycler, th: Thread) returns (th': Thread)
    requires SafeAccess(cfg, l, rec, th) && Reads(th)
    ensures ReadStep(cfg, l, rec, th, th')
  {
    th' := AfterRead(l, th);
    match th.pc
    case SMax => case SHead => case SNode => case AMarked => case AWait => case APick => case RFull => case RMarked =>
    case Lk => case LkCheck => case LkSucc => case Unlock => case AHeight => case GHead => case FHead =>
    case FDown => case FRight => case FMarked =>
  }

  predicate Writes(l: List, th: Thread) {
    || (th.pc.RLock? && th.foundNode < |l.nodes| && l.nodes[th.foundNode].lock.None?)
    || (th.pc.Lk? && th.layer < |th.preds| && !(th.layer > 0 && th.preds[th.layer] == th.preds[th.layer - 1]) &&
        th.preds[th.layer] < |l.nodes| && l.nodes[th.preds[th.layer]].lock.None?)
    || (th.pc.GLock? && th.oldHead < |l.nodes| && l.nodes[th.oldHead].lock.None?)
    || (th.pc.Unlock? && th.guards != [])
    || th.pc.RMark? || th.pc.ACreate? || Adding(th.pc) || th.pc.RUnlink? || th.pc.RCount? || th.pc.RUnlock?
    || th.pc.GCopy? || th.pc.GCas? || th.pc.GUnlock?
  }

  lemma CanLockOrUnlock(cfg: Config, t: Tid, l: List, rec: Recycler, th: Thread) returns (l': List, th': Thread)
    requires SafeAccess(cfg, l, rec, th) && Writes(l, th)
    requires th.pc.RLock? || th.pc.Lk? || th.pc.GLock? || th.pc.Unlock? || th.pc.RUnlock? || th.pc.GUnlock?
    ensures WriteStep(cfg, t, l, rec, th, l', th')
  {
    match th.pc
    case RLock =>
      l' := SetLock(l, th.foundNode, Some(t));
      th' := th.(pc := RMark, target := th.foundNode, height := Height(l, th.foundNode));
    case Lk =>
      l' := SetLock(l, th.preds[th.layer], Some(t));
      th' := th.(pc := LkCheck, guards := th.guards + [th.preds[th.layer]]);
    case GLock => l' := SetLock(l, th.oldHead, Some(t)); th' := Go(th, GCopy);
    case Unlock =>
      l' := SetLock(l, th.guards[|th.guards| - 1], None);
      th' := th.(guards := th.guards[..|th.guards| - 1]);
    case RUnlock => l' := SetLock(l, th.target, None); th' := th.(pc := Returned, isMarked := false);
    case GUnlock =>
      l' := SetLock(l, th.oldHead, None);
      th' := if th.newHead != NIL then Go(th, Recycle) else Return(th, Added(th.target));
  }

  lemma CanWriteLinks(cfg: Config, t: Tid, l: List, rec: Recycler, th: Thread) returns (l': List, th': Thread)
    requires SafeAccess(cfg, l, rec, th) && Writes(l, th)
    requires !(th.pc.RLock? || th.pc.Lk? || th.pc.GLock? || th.pc.Unlock? || th.pc.RUnlock? || th.pc.GUnlock?)
    ensures WriteStep(cfg, t, l, rec, th, l', th')
  {
    match th.pc
    case RMark =>
      if Marked(l, th.target) {
        l' := l; th' := th.(pc := RUnlock, res := NotRemoved);
      } else {
        l' := SetNode(l, th.target, l.nodes[th.target].(marked := true, marker := t));
        th' := StartLocking(th.(isMarked := true));
      }
    case ACreate =>
      l' := l.(nodes := l.nodes + [NewNode(th.height, th.key, t)]); th' := th.(pc := ALink, target := |l.nodes|);
    case ALink =>
      l' := LinkNode(l, th.layer, th.preds[th.layer], th.target, th.succs[th.layer]);
      th' := if th.layer + 1 < th.height then th.(layer := th.layer + 1) else Go(th, AFull);
    case AFull => l' := SetNode(l, th.target, l.nodes[th.target].(full := true)); th' := Go(th, ACount);
    case ACount =>
      l' := l.(size := l.size + 1, counted := l.counted + {th.target}); th' := th.(pc := Unlock, done := true);
    case RUnlink =>
      l' := UnlinkNode(l, th.layer, th.preds[th.layer], th.target);
      th' := if th.layer > 0 then th.(layer := th.layer - 1) else Go(th, RCount);
    case RCount =>
      l' := l.(size := l.size - 1, counted := l.counted - {th.target}); th' := th.(pc := Unlock, done := true);
    case GCopy =>
      l' := l.(nodes := l.nodes + [CopiedHead(l, th.oldHead, th.height, 0, t)]);
      th' := th.(pc := GCas, newHead := |l.nodes|);
    case GCas =>
      if l.head == th.oldHead {
        l' := SwapHead(l, th.oldHead, th.newHead, t); th' := Go(th, GUnlock);
      } else {
        l' := l; th' := Go(th, GDestroy);
      }
  }

  predicate Recycles(rec: Recycler, th: Thread) {
    || ((th.pc.Recycle? || th.pc.LLock?) && rec.lock.None?)
    || th.pc.GDestroy? || th.pc.LDirty? || th.pc.LRefs? || th.pc.LTest? || th.pc.LSwap? || th.pc.LDestroy?
    || th.pc.LDec? || th.pc.LDecIn?
  }

  lemma CanRecycle(t: Tid, l: List, rec: Recycler, th: Thread) returns (rec': Recycler, th': Thread)
    requires Recycles(rec, th)
    ensures RecStep(t, l, rec, th, rec', th')
  {
    rec' := rec;
    match th.pc
    case Recycle =>
      var x := if th.op == Remove then th.target else th.oldHead;
      rec' := rec.(bin := rec.bin + [x], dirty := true, binned := rec.binned + {x});
      th' := if th.op == Remove then th.(pc := RUnlock, res := Removed) else Return(th, Added(th.target));
    case GDestroy => rec' := rec.(freed := rec.freed + {th.newHead}); th' := th.(pc := GUnlock, newHead := NIL);
    case LDirty => th' := Go(th, if rec.dirty then LRefs else LDec);
    case LRefs => th' := Go(th, if rec.refs > 1 then LDec else LLock);
    case LLock => rec' := rec.(lock := Some(t)); th' := Go(th, LTest);
    case LTest =>
      if rec.bin == [] || rec.refs > 1 {
        th' := Go(th, LDecIn);
      } else {
        rec' := rec.(collector := Some(t)); th' := Go(th, LSwap);
      }
    case LSwap =>
      rec' := rec.(bin := [], dirty := false, lock := None, pending := rec.bin);
      th' := th.(pc := LDestroy, batch := rec.bin);
    case LDestroy =>
      if th.batch == [] {
        rec' := rec.(collector := None); th' := Go(th, LDec);
      } else {
        rec' := rec.(freed := rec.freed + {th.batch[0]}, pending := if rec.pending == [] then [] else rec.pending[1..]);
        th' := th.(batch := th.batch[1..]);
      }
    case LDec => rec' := rec.(refs := rec.refs - 1, refset := rec.refset - {t}); th' := Go(th, Outside);
    case LDecIn => rec' := rec.(refs := rec.refs - 1, refset := rec.refset - {t}, lock := None); th' := Go(th, Outside);
  }

  /** What an accessor that can move does next. */
  lemma ThreadCanStep(cfg: Config, t: Tid, s: State) returns (l': List, rec': Recycler, th': Thread)
    requires CanMove(s, t) && SafeAccess(cfg, s.l, s.rec, s.threads[t])
    ensures ThreadStep(cfg, t, s.l, s.rec, s.threads[t], l', rec', th')
  {
    var th := s.threads[t];
    l', rec' := s.l, s.rec;
    Covered(cfg, t, s);
    hide SafeAccess, ReadStep, WriteStep, RecStep, Reads, Writes, Recycles;
    if Reads(th) {
      th' := CanRead(cfg, s.l, s.rec, th);
    } else if Writes(s.l, th) {
      if th.pc.RLock? || th.pc.Lk? || th.pc.GLock? || th.pc.Unlock? || th.pc.RUnlock? || th.pc.GUnlock? {
        l', th' := CanLockOrUnlock(cfg, t, s.l, s.rec, th);
      } else {
        l', th' := CanWriteLinks(cfg, t, s.l, s.rec, th);
      }
    } else {
      rec', th' := CanRecycle(t, s.l, s.rec, th);
    }
  }

  lemma FreeToLock(t: Tid, s: State, x: nat)
    requires CanMove(s, t) && Wants(s.threads[t], x) && x < |s.l.nodes|
    ensures s.l.nodes[x].lock.None?
  {
    assert s.l.nodes[x].lock.Some? ==> WaitsFor(s, t, x);
  }

  lemma Covered(cfg: Config, t: Tid, s: State)
    requires CanMove(s, t) && SafeAccess(cfg, s.l, s.rec, s.threads[t])
    ensures Reads(s.threads[t]) || Writes(s.l, s.threads[t]) || Recycles(s.rec, s.threads[t])
  {
    var th := s.threads[t];
    if th.pc.RLock? {
      FreeToLock(t, s, th.foundNode);
    } else if th.pc.GLock? {
      FreeToLock(t, s, th.oldHead);
    } else if th.pc.Lk? && !Reads(th) {
      FreeToLock(t, s, th.preds[th.layer]);
    }
  }

  /** No deadlock: whenever some accessor is blocked, by a node lock, the recycler's lock
      or a node still being linked, some accessor in the middle of its work is not, and
      has a step to make. */
  lemma SomeoneMoves(cfg: Config, r: seq<State>, i: nat, t: Tid) returns (u: Tid, next: State)
    requires Run(cfg, r) && i < |r| && Blocked(r[i], t)
    ensures u < |r[i].threads| && Working(r[i].threads[u].pc) && !Blocked(r[i], u)
    ensures StepBy(cfg, r[i], u, next)
  {
    hide Run, ProgressInv, Blocked, ThreadStep, SafeAccess;
    RunKeepsProgress(cfg, r, i);
    u := SomeoneCanMove(cfg, r[i], t);
    AccessesAreSafe(cfg, r, i, u);
    var l', rec', th' := ThreadCanStep(cfg, u, r[i]);
    next := State(l', rec', r[i].threads[u := th']);
  }
}
