/** size() counts the nodes: it never goes below zero, and counts the linked nodes when no
    operation is in progress. What makes it so: an add holds the lock of its bottom predecessor
    until it has counted its node, so no remove can take the node before. */
module SkipListSize {

  import opened Common
  import opened SkipListState
  import opened SkipListInvariant
  import opened SkipListStability
  import opened SkipListLinks
  import opened SkipListProof
  import opened SkipListWriters
  import opened SkipListReclaim
  import opened SkipListReclaimProof
  import opened SkipListTheorems

  // ---------- invariant ----------

  predicate Uncounted(l: List, x: nat) {
    x != NIL && x !in l.counted
  }

  /** A linked node that is not counted yet: its maker has the lock of its predecessor. */
  ghost predicate PredLocked(l: List) {
    |l.lin| > 0 && forall p :: p in l.lin[0] && Uncounted(l, Skip(l, 0, p)) ==>
      p < |l.nodes| && Skip(l, 0, p) < |l.nodes| && l.nodes[p].lock == Some(l.nodes[Skip(l, 0, p)].maker)
  }

  ghost predicate CountedOk(l: List) {
    && l.size == |l.counted|
    && (forall x :: x in l.counted ==> IsItem(l, x) && Ever(l, 0, x))
    && (forall x :: x in l.counted && Gone(l, 0, x) ==> l.nodes[x].lock.Some?)
  }

  ghost predicate SizeInv(l: List) {
    PredLocked(l) && CountedOk(l)
  }

  /** The thread has linked its node on the bottom layer and not counted it. */
  predicate Owes(th: Thread) {
    (th.pc.ALink? && th.layer > 0) || th.pc.AFull? || th.pc.ACount?
  }

  ghost predicate ThreadSize(u: Tid, l: List, th: Thread) {
    && (forall x :: |l.lin| > 0 && x in l.lin[0] && IsItem(l, x) && MadeBy(l, x, u) && Uncounted(l, x) ==>
          Owes(th) && x == th.target)
    && (Adding(th.pc) ==> th.target !in l.counted)
    && (Owes(th) ==> !Gone(l, 0, th.target))
    && (th.pc.RCount? ==> th.target in l.counted)
    && (forall x :: x in l.counted && Gone(l, 0, x) && LockedBy(l, x, u) ==> th.pc.RCount? && x == th.target)
  }

  ghost predicate OwnersExist(s: State) {
    forall x :: 0 <= x < |s.l.nodes| && s.l.nodes[x].lock.Some? ==> s.l.nodes[x].lock.value < |s.threads|
  }

  ghost predicate CountInv(cfg: Config, s: State) {
    && FullInv(cfg, s) && SizeInv(s.l) && OwnersExist(s)
    && forall t :: 0 <= t < |s.threads| ==> ThreadSize(t, s.l, s.threads[t])
  }

  /** What a step of thread t may do to the count. */
  ghost predicate CountEvolve(t: Tid, a: List, b: List) {
    && (forall x :: x in b.counted && x !in a.counted ==> MadeBy(a, x, t) && !Gone(b, 0, x))
    && (forall x :: x in a.counted && x !in b.counted ==> LockedBy(a, x, t) && Gone(a, 0, x))
    && (forall x :: IsItem(a, x) && Gone(b, 0, x) && !Gone(a, 0, x) ==> x in a.counted)
  }

  // ---------- other accessors ----------

  lemma SizeStable(cfg: Config, t: Tid, u: Tid, a: List, b: List, th: Thread)
    requires u != t && ListInv(cfg, a) && ListInv(cfg, b) && Evolve(t, a, b) && CountEvolve(t, a, b)
    requires ThreadSize(u, a, th) && AddInv(u, a, th) && OwnerInv(u, a, th) && FlowInv(th)
    ensures ThreadSize(u, b, th)
  {
    forall x | x in b.lin[0] && IsItem(b, x) && MadeBy(b, x, u) && Uncounted(b, x)
      ensures Owes(th) && x == th.target
    {
      LinkOf(t, a, b, 0, x);
      assert LinOk(b, 0, x);
      EverAtBottom(cfg, a, 0, x);
      assert NodeEvolve(t, a.nodes[x], b.nodes[x]);
    }
    forall x | x in b.counted && Gone(b, 0, x) && LockedBy(b, x, u) ensures th.pc.RCount? && x == th.target {
      LinkOf(t, a, b, 0, x);
      LockStable(t, u, a, b, x);
    }
  }

  // ---------- writes that keep links and the count ----------

  ghost predicate Cosmetic(a: List, b: List) {
    && b.lin == a.lin && b.gone == a.gone && b.counted == a.counted && b.size == a.size && |a.nodes| <= |b.nodes|
    && (forall x :: 0 <= x < |a.nodes| ==>
          b.nodes[x].skip == a.nodes[x].skip && b.nodes[x].isHead == a.nodes[x].isHead
            && b.nodes[x].maker == a.nodes[x].maker)
    && (forall x :: |a.nodes| <= x < |b.nodes| ==> b.nodes[x].lock.None?)
  }

  lemma CosmeticSize(cfg: Config, a: List, b: List)
    requires ListInv(cfg, a) && SizeInv(a) && Cosmetic(a, b)
    requires forall x :: 0 <= x < |a.nodes| ==> b.nodes[x].lock == a.nodes[x].lock || a.nodes[x].lock.None?
    ensures SizeInv(b)
  {
    forall p | p in b.lin[0] && Uncounted(b, Skip(b, 0, p))
      ensures p < |b.nodes| && Skip(b, 0, p) < |b.nodes| && b.nodes[p].lock == Some(b.nodes[Skip(b, 0, p)].maker)
    {
      assert LinOk(a, 0, p) && Skip(a, 0, p) == Skip(b, 0, p);
    }
  }

  lemma CosmeticThread(cfg: Config, t: Tid, a: List, b: List, th: Thread, th': Thread)
    requires ListInv(cfg, a) && SizeInv(a) && ThreadSize(t, a, th) && Cosmetic(a, b)
    requires !th.pc.RCount? && (Owes(th') <==> Owes(th)) && (Owes(th) ==> th'.target == th.target)
    requires Adding(th'.pc) ==> th'.target !in b.counted
    requires !th'.pc.RCount?
    requires forall x :: 0 <= x < |a.nodes| && LockedBy(b, x, t) && !LockedBy(a, x, t) ==> a.nodes[x].lock.None?
    ensures ThreadSize(t, b, th')
  {
    forall x | x in b.lin[0] && IsItem(b, x) && MadeBy(b, x, t) && Uncounted(b, x)
      ensures Owes(th') && x == th'.target
    {
      assert LinOk(a, 0, x);
    }
  }

  lemma CosmeticCount(t: Tid, a: List, b: List)
    requires Cosmetic(a, b)
    ensures CountEvolve(t, a, b)
  {
  }

  /** Releasing a lock: no node behind it waits to be counted, and it is not a removed, counted node. */
  lemma ReleaseSize(cfg: Config, t: Tid, l: List, th: Thread, x: nat)
    requires ListInv(cfg, l) && SizeInv(l) && ThreadSize(t, l, th) && !Owes(th) && !th.pc.RCount? && LockedBy(l, x, t)
    ensures SizeInv(SetLock(l, x, None))
  {
    var b := SetLock(l, x, None);
    forall p | p in b.lin[0] && Uncounted(b, Skip(b, 0, p))
      ensures p < |b.nodes| && Skip(b, 0, p) < |b.nodes| && b.nodes[p].lock == Some(b.nodes[Skip(b, 0, p)].maker)
    {
      assert LinOk(l, 0, p) && NextOk(l, 0, p) && Skip(l, 0, p) == Skip(b, 0, p);
      assert LinOk(l, 0, Skip(l, 0, p));
    }
  }

  // ---------- linking and unlinking ----------

  /** At the bottom, nothing of the thread's own waits to be counted. */
  lemma NothingOwed(cfg: Config, t: Tid, l: List, th: Thread, p: nat)
    requires ListInv(cfg, l) && SizeInv(l) && ThreadSize(t, l, th) && !Owes(th)
    requires |l.lin| > 0 && p in l.lin[0] && LockedBy(l, p, t)
    ensures !Uncounted(l, Skip(l, 0, p))
  {
    assert NextOk(l, 0, p) && LinOk(l, 0, p);
    if Skip(l, 0, p) != NIL {
      assert LinOk(l, 0, Skip(l, 0, p));
    }
  }

  lemma LinkBottomPreds(t: Tid, l: List, p: nat, x: nat)
    requires Order(l) && PredLocked(l) && CanLink(l, t, 0, p, x) && !Uncounted(l, Skip(l, 0, p))
    ensures PredLocked(LinkedList(l, 0, p, x))
  {
    var b := LinkedList(l, 0, p, x);
    LinkFacts(l, t, 0, p, x);
    assert LockedBy(l, p, t) && MadeBy(l, x, t) && p < |l.nodes|;
    hide LinkedList, CanLink, Order;
    forall z | z in b.lin[0] && Uncounted(b, Skip(b, 0, z))
      ensures z < |b.nodes| && Skip(b, 0, z) < |b.nodes| && b.nodes[z].lock == Some(b.nodes[Skip(b, 0, z)].maker)
    {
      assert z != p && z != x ==> z in l.lin[0] && Skip(b, 0, z) == Skip(l, 0, z);
    }
  }

  lemma LinkCounted(t: Tid, l: List, k: nat, p: nat, x: nat)
    requires Order(l) && CountedOk(l) && CanLink(l, t, k, p, x)
    ensures CountedOk(LinkedList(l, k, p, x))
  {
    var b := LinkedList(l, k, p, x);
    LinkFacts(l, t, k, p, x);
    hide LinkedList, CanLink, Order;
    forall z | z in b.counted ensures IsItem(b, z) && Ever(b, 0, z) {
      assert Ever(l, 0, z);
    }
  }

  lemma LinkBottomSize(cfg: Config, t: Tid, l: List, th: Thread, p: nat, x: nat)
    requires ListInv(cfg, l) && SizeInv(l) && ThreadSize(t, l, th) && !Owes(th) && CanLink(l, t, 0, p, x)
    ensures SizeInv(LinkedList(l, 0, p, x))
  {
    NothingOwed(cfg, t, l, th, p);
    LinkBottomPreds(t, l, p, x);
    LinkCounted(t, l, 0, p, x);
  }

  lemma SameBottom(cfg: Config, a: List, b: List, k: nat)
    requires ListInv(cfg, a) && SizeInv(a) && k > 0 && OnlyLayer(a, b, k) && b.counted == a.counted && b.size == a.size
    requires |b.lin| == |a.lin| && |b.gone| == |a.gone| && b.lin[0] == a.lin[0] && b.gone[0] == a.gone[0]
    ensures SizeInv(b)
  {
    forall p | p in b.lin[0] && Uncounted(b, Skip(b, 0, p))
      ensures p < |b.nodes| && Skip(b, 0, p) < |b.nodes| && b.nodes[p].lock == Some(b.nodes[Skip(b, 0, p)].maker)
    {
      assert LinOk(a, 0, p) && Skip(a, 0, p) == Skip(b, 0, p);
    }
  }

  lemma UnlinkBottomPreds(t: Tid, l: List, p: nat, x: nat)
    requires Order(l) && PredLocked(l) && CanUnlink(l, t, 0, p, x) && !Uncounted(l, Skip(l, 0, x))
    ensures PredLocked(UnlinkNode(l, 0, p, x))
  {
    var b := UnlinkNode(l, 0, p, x);
    UnlinkFacts(l, t, 0, p, x);
    hide UnlinkNode, CanUnlink, Order;
    forall z | z in b.lin[0] && Uncounted(b, Skip(b, 0, z))
      ensures z < |b.nodes| && Skip(b, 0, z) < |b.nodes| && b.nodes[z].lock == Some(b.nodes[Skip(b, 0, z)].maker)
    {
      assert z != p ==> Skip(b, 0, z) == Skip(l, 0, z);
    }
  }

  lemma UnlinkCounted(t: Tid, l: List, k: nat, p: nat, x: nat)
    requires Order(l) && CountedOk(l) && CanUnlink(l, t, k, p, x)
    ensures CountedOk(UnlinkNode(l, k, p, x))
  {
    var b := UnlinkNode(l, k, p, x);
    UnlinkFacts(l, t, k, p, x);
    assert LockedBy(l, x, t);
    hide UnlinkNode, CanUnlink, Order;
    forall z | z in b.counted ensures IsItem(b, z) && Ever(b, 0, z) && (Gone(b, 0, z) ==> b.nodes[z].lock.Some?) {
      assert Ever(l, 0, z);
    }
  }

  lemma UnlinkBottomSize(cfg: Config, t: Tid, l: List, th: Thread, p: nat, x: nat)
    requires ListInv(cfg, l) && SizeInv(l) && ThreadSize(t, l, th) && !Owes(th) && CanUnlink(l, t, 0, p, x)
    ensures SizeInv(UnlinkNode(l, 0, p, x)) && x in l.counted
  {
    NothingOwed(cfg, t, l, th, p);
    NothingOwed(cfg, t, l, th, x);
    UnlinkBottomPreds(t, l, p, x);
    UnlinkCounted(t, l, 0, p, x);
  }

  lemma SwapPreds(cfg: Config, t: Tid, l: List, from: nat, to: nat)
    requires Order(l) && PredLocked(l) && CanSwap(cfg, l, t, from, to) && !Uncounted(l, Skip(l, 0, from))
    ensures PredLocked(SwapHead(l, from, to, t))
  {
    var b := SwapHead(l, from, to, t);
    SwapFacts(cfg, l, t, from, to);
    assert b.counted == l.counted && Skip(l, 0, to) == Skip(l, 0, from);
    hide CanSwap, SwapHead, Order;
    forall z | z in b.lin[0] && Uncounted(b, Skip(b, 0, z))
      ensures z < |b.nodes| && Skip(b, 0, z) < |b.nodes| && b.nodes[z].lock == Some(b.nodes[Skip(b, 0, z)].maker)
    {
      assert Skip(b, 0, z) == Skip(l, 0, z) && (z != to ==> z in l.lin[0]);
    }
  }

  lemma SwapCounted(cfg: Config, t: Tid, l: List, from: nat, to: nat)
    requires CountedOk(l) && CanSwap(cfg, l, t, from, to)
    ensures CountedOk(SwapHead(l, from, to, t))
  {
    var b := SwapHead(l, from, to, t);
    SwapFacts(cfg, l, t, from, to);
    assert l.nodes[from].isHead && b.counted == l.counted && b.size == l.size;
    hide CanSwap, SwapHead;
    forall z | z in b.counted ensures IsItem(b, z) && Ever(b, 0, z) && (Gone(b, 0, z) ==> b.nodes[z].lock.Some?) {
      assert IsItem(l, z) && Ever(l, 0, z);
    }
  }

  lemma SwapSize(cfg: Config, t: Tid, l: List, th: Thread, from: nat, to: nat)
    requires ListInv(cfg, l) && SizeInv(l) && ThreadSize(t, l, th) && !Owes(th) && CanSwap(cfg, l, t, from, to)
    ensures SizeInv(SwapHead(l, from, to, t))
  {
    assert NodeOk(cfg, l.nodes[from]) && from in l.lin[0];
    NothingOwed(cfg, t, l, th, from);
    SwapPreds(cfg, t, l, from, to);
    SwapCounted(cfg, t, l, from, to);
  }

  // ---------- steps ----------

  /** What a step owes: the count, its own part, and what others rely on. */
  ghost predicate SizeKept(t: Tid, l: List, l': List, th': Thread) {
    SizeInv(l') && ThreadSize(t, l', th') && CountEvolve(t, l, l')
  }

  predicate Flags(pc: Pc) {
    pc.RLock? || pc.Lk? || pc.GLock? || pc.ACreate? || pc.AFull? || pc.RMark? || pc.GCopy?
  }

  ghost predicate FlagMove(l: List, th: Thread, l': List, th': Thread) {
    && Cosmetic(l, l') && (Owes(th') <==> Owes(th)) && (Owes(th) ==> th'.target == th.target) && !th'.pc.RCount?
    && (Adding(th'.pc) ==> (th.pc.ACreate? && th'.target == |l.nodes|) || (th.pc.AFull? && th'.target == th.target))
    && (forall x :: 0 <= x < |l.nodes| ==> l'.nodes[x].lock == l.nodes[x].lock || l.nodes[x].lock.None?)
  }

  lemma LockFlags(cfg: Config, t: Tid, l: List, rec: Recycler, th: Thread, l': List, th': Thread)
    requires SafeAccess(cfg, l, rec, th) && WriteStep(cfg, t, l, rec, th, l', th')
    requires th.pc.RLock? || th.pc.Lk? || th.pc.GLock? || th.pc.RMark?
    ensures FlagMove(l, th, l', th')
  {
    match th.pc
    case RLock => case Lk => case GLock => case RMark =>
  }

  lemma NewFlags(cfg: Config, t: Tid, l: List, rec: Recycler, th: Thread, l': List, th': Thread)
    requires SafeAccess(cfg, l, rec, th) && WriteStep(cfg, t, l, rec, th, l', th')
    requires (th.pc.ACreate? && th.layer == 0) || th.pc.AFull? || th.pc.GCopy?
    ensures FlagMove(l, th, l', th')
  {
    match th.pc
    case ACreate => case AFull => case GCopy =>
  }

  lemma FlagSteps(cfg: Config, t: Tid, l: List, rec: Recycler, th: Thread, l': List, th': Thread)
    requires ListInv(cfg, l) && SizeInv(l) && ThreadSize(t, l, th) && (th.pc.ACreate? ==> th.layer == 0)
    requires SafeAccess(cfg, l, rec, th) && WriteStep(cfg, t, l, rec, th, l', th') && Flags(th.pc)
    ensures SizeKept(t, l, l', th')
  {
    hide SafeAccess, WriteStep, ListInv, Cosmetic, PredLocked;
    if th.pc.RLock? || th.pc.Lk? || th.pc.GLock? || th.pc.RMark? {
      LockFlags(cfg, t, l, rec, th, l', th');
    } else {
      NewFlags(cfg, t, l, rec, th, l', th');
    }
    FreshUncounted(l);
    CosmeticSize(cfg, l, l');
    CosmeticCount(t, l, l');
    CosmeticCounted(l, l');
    CosmeticThread(cfg, t, l, l', th, th');
  }

  lemma CosmeticCounted(a: List, b: List)
    requires Cosmetic(a, b)
    ensures b.counted == a.counted
  {
  }

  lemma FreshUncounted(l: List)
    requires CountedOk(l)
    ensures |l.nodes| !in l.counted
  {
  }

  lemma ReleaseShape(cfg: Config, t: Tid, l: List, rec: Recycler, th: Thread, l': List, th': Thread) returns (x: nat)
    requires OwnerInv(t, l, th) && GuardInv(t, l, th)
    requires SafeAccess(cfg, l, rec, th) && WriteStep(cfg, t, l, rec, th, l', th')
    requires th.pc.Unlock? || th.pc.RUnlock? || th.pc.GUnlock?
    ensures x < |l.nodes| && LockedBy(l, x, t) && l' == SetLock(l, x, None)
    ensures !Adding(th'.pc) && !th'.pc.RCount? && Cosmetic(l, l')
  {
    x := if th.pc.Unlock? then th.guards[|th.guards| - 1] else if th.pc.RUnlock? then th.target else th.oldHead;
  }

  lemma ReleaseSteps(cfg: Config, t: Tid, l: List, rec: Recycler, th: Thread, l': List, th': Thread)
    requires ListInv(cfg, l) && OwnerInv(t, l, th) && GuardInv(t, l, th) && SizeInv(l) && ThreadSize(t, l, th)
    requires SafeAccess(cfg, l, rec, th) && WriteStep(cfg, t, l, rec, th, l', th')
    requires th.pc.Unlock? || th.pc.RUnlock? || th.pc.GUnlock?
    ensures SizeKept(t, l, l', th')
  {
    hide ListInv, OwnerInv, GuardInv, SizeInv, ThreadSize, SafeAccess, WriteStep, Cosmetic;
    var x := ReleaseShape(cfg, t, l, rec, th, l', th');
    ReleaseSize(cfg, t, l, th, x);
    CosmeticCount(t, l, l');
    CosmeticThread(cfg, t, l, l', th, th');
  }

  lemma LinkedUncounted(t: Tid, l: List, k: nat, p: nat, x: nat)
    requires Order(l) && CanLink(l, t, k, p, x)
    ensures CountEvolve(t, l, LinkedList(l, k, p, x))
  {
    LinkFacts(l, t, k, p, x);
    hide Order, CanLink, LinkedList;
  }

  lemma NotGoneYet(l: List, x: nat)
    requires Order(l) && !Marked(l, x)
    ensures !Gone(l, 0, x)
  {
    assert Gone(l, 0, x) ==> GoneOk(l, 0, x);
  }

  lemma LinkThread(t: Tid, l: List, th: Thread, l': List, th': Thread)
    requires Order(l) && ThreadSize(t, l, th) && th.pc.ALink? && th.layer < |th.preds|
    requires CanLink(l, t, th.layer, th.preds[th.layer], th.target)
    requires l' == LinkedList(l, th.layer, th.preds[th.layer], th.target)
    requires th' == if th.layer + 1 < th.height then th.(layer := th.layer + 1) else Go(th, AFull)
    ensures ThreadSize(t, l', th')
  {
    LinkFacts(l, t, th.layer, th.preds[th.layer], th.target);
    NotGoneYet(l, th.target);
    hide Order, CanLink, LinkedList;
    forall x | x in l'.lin[0] && IsItem(l', x) && MadeBy(l', x, t) && Uncounted(l', x) ensures x == th.target {
      assert x != th.target ==> x in l.lin[0] && IsItem(l, x) && MadeBy(l, x, t) && Uncounted(l, x);
    }
    assert forall x: nat :: (Gone(l', 0, x) <==> Gone(l, 0, x)) && (LockedBy(l', x, t) <==> LockedBy(l, x, t));
  }

  lemma LinkSteps(cfg: Config, t: Tid, l: List, rec: Recycler, th: Thread, l': List, th': Thread)
    requires ListInv(cfg, l) && ThreadInv(cfg, t, l, th) && SizeInv(l) && ThreadSize(t, l, th)
    requires SafeAccess(cfg, l, rec, th) && WriteStep(cfg, t, l, rec, th, l', th') && th.pc.ALink?
    ensures SizeKept(t, l, l', th')
  {
    AddCanLink(cfg, t, l, th);
    hide Shape, Order, Layers, ThreadInv, SizeInv, ThreadSize, SafeAccess, CountEvolve, CanLink;
    LinkSize(cfg, t, l, th);
    LinkedUncounted(t, l, th.layer, th.preds[th.layer], th.target);
    LinkThread(t, l, th, l', th');
  }

  lemma LinkSize(cfg: Config, t: Tid, l: List, th: Thread)
    requires ListInv(cfg, l) && SizeInv(l) && ThreadSize(t, l, th) && th.pc.ALink? && th.layer < |th.preds|
    requires CanLink(l, t, th.layer, th.preds[th.layer], th.target)
    ensures SizeInv(LinkedList(l, th.layer, th.preds[th.layer], th.target))
  {
    LinkFacts(l, t, th.layer, th.preds[th.layer], th.target);
    LinkOnly(l, t, th.layer, th.preds[th.layer], th.target);
    hide ListInv, SizeInv, ThreadSize, CanLink, OnlyLayer;
    if th.layer == 0 {
      LinkBottomSize(cfg, t, l, th, th.preds[0], th.target);
    } else {
      SameBottom(cfg, l, LinkedList(l, th.layer, th.preds[th.layer], th.target), th.layer);
    }
  }

  function Counting(l: List, x: nat): List {
    l.(size := l.size + 1, counted := l.counted + {x})
  }

  function Uncounting(l: List, x: nat): List {
    l.(size := l.size - 1, counted := l.counted - {x})
  }

  lemma CountPreds(l: List, x: nat)
    requires PredLocked(l)
    ensures PredLocked(Counting(l, x))
  {
    var b := Counting(l, x);
    forall p | p in b.lin[0] && Uncounted(b, Skip(b, 0, p))
      ensures p < |b.nodes| && Skip(b, 0, p) < |b.nodes| && b.nodes[p].lock == Some(b.nodes[Skip(b, 0, p)].maker)
    {
      assert Skip(l, 0, p) == Skip(b, 0, p) && Uncounted(l, Skip(l, 0, p));
    }
  }

  lemma CountOk(l: List, x: nat)
    requires CountedOk(l) && x !in l.counted && IsItem(l, x) && Ever(l, 0, x) && !Gone(l, 0, x)
    ensures CountedOk(Counting(l, x))
  {
    var b := Counting(l, x);
    forall z | z in b.counted ensures IsItem(b, z) && Ever(b, 0, z) && (Gone(b, 0, z) ==> b.nodes[z].lock.Some?) {
      assert z != x ==> z in l.counted;
    }
  }

  lemma CountMoves(t: Tid, l: List, x: nat)
    requires SizeInv(l) && x !in l.counted && IsItem(l, x) && MadeBy(l, x, t) && Ever(l, 0, x) && !Gone(l, 0, x)
    ensures SizeInv(Counting(l, x)) && CountEvolve(t, l, Counting(l, x))
  {
    CountPreds(l, x);
    CountOk(l, x);
    hide PredLocked, CountedOk;
  }

  lemma CountThread(t: Tid, l: List, th: Thread, l': List, th': Thread)
    requires ThreadSize(t, l, th) && th.pc.ACount? && |l.lin| > 0
    requires l' == Counting(l, th.target) && th' == th.(pc := Unlock, done := true)
    ensures ThreadSize(t, l', th')
  {
  }

  lemma CountSize(t: Tid, l: List, th: Thread, l': List, th': Thread)
    requires SizeInv(l) && ThreadSize(t, l, th) && th.pc.ACount?
    requires IsItem(l, th.target) && MadeBy(l, th.target, t) && Ever(l, 0, th.target)
    requires l' == Counting(l, th.target) && th' == th.(pc := Unlock, done := true)
    ensures SizeKept(t, l, l', th')
  {
    assert th.target !in l.counted && !Gone(l, 0, th.target);
    CountThread(t, l, th, l', th');
    hide SizeInv, ThreadSize, CountEvolve;
    CountMoves(t, l, th.target);
  }

  lemma UncountPreds(l: List, x: nat)
    requires PredLocked(l) && forall p :: p in l.lin[0] ==> Skip(l, 0, p) != x
    ensures PredLocked(Uncounting(l, x))
  {
    var b := Uncounting(l, x);
    forall p | p in b.lin[0] && Uncounted(b, Skip(b, 0, p))
      ensures p < |b.nodes| && Skip(b, 0, p) < |b.nodes| && b.nodes[p].lock == Some(b.nodes[Skip(b, 0, p)].maker)
    {
      assert Skip(l, 0, p) == Skip(b, 0, p) && Uncounted(l, Skip(l, 0, p));
    }
  }

  lemma UncountOk(l: List, x: nat)
    requires CountedOk(l) && x in l.counted
    ensures CountedOk(Uncounting(l, x))
  {
    var b := Uncounting(l, x);
    forall z | z in b.counted ensures IsItem(b, z) && Ever(b, 0, z) && (Gone(b, 0, z) ==> b.nodes[z].lock.Some?) {
      assert z in l.counted && Ever(l, 0, z);
    }
  }

  lemma NoLinkToGone(cfg: Config, l: List, x: nat)
    requires ListInv(cfg, l) && Gone(l, 0, x) && IsNode(l, x)
    ensures forall p :: p in l.lin[0] ==> Skip(l, 0, p) != x
    ensures x !in l.lin[0]
  {
    assert x !in l.lin[0];
    forall p | p in l.lin[0] ensures Skip(l, 0, p) != x {
      assert NextOk(l, 0, p);
    }
  }

  lemma UncountMoves(t: Tid, l: List, x: nat)
    requires SizeInv(l) && x in l.counted && LockedBy(l, x, t) && Gone(l, 0, x)
    requires forall p :: p in l.lin[0] ==> Skip(l, 0, p) != x
    ensures SizeInv(Uncounting(l, x)) && CountEvolve(t, l, Uncounting(l, x))
  {
    UncountPreds(l, x);
    UncountOk(l, x);
    hide PredLocked, CountedOk;
  }

  lemma UncountThread(t: Tid, l: List, th: Thread, l': List, th': Thread)
    requires ThreadSize(t, l, th) && th.pc.RCount? && |l.lin| > 0 && th.target !in l.lin[0]
    requires l' == Uncounting(l, th.target) && th' == th.(pc := Unlock, done := true)
    ensures ThreadSize(t, l', th')
  {
  }

  lemma UncountSize(cfg: Config, t: Tid, l: List, th: Thread, l': List, th': Thread)
    requires ListInv(cfg, l) && SizeInv(l) && ThreadSize(t, l, th) && th.pc.RCount?
    requires LockedBy(l, th.target, t) && Gone(l, 0, th.target)
    requires l' == Uncounting(l, th.target) && th' == th.(pc := Unlock, done := true)
    ensures SizeKept(t, l, l', th')
  {
    CountedTarget(t, l, th);
    assert IsItem(l, th.target) && |l.lin| > 0;
    hide ListInv, SizeInv, ThreadSize, CountEvolve, Counting;
    NoLinkToGone(cfg, l, th.target);
    UncountMoves(t, l, th.target);
    UncountThread(t, l, th, l', th');
  }

  lemma CountedTarget(t: Tid, l: List, th: Thread)
    requires ThreadSize(t, l, th) && th.pc.RCount?
    ensures th.target in l.counted
  {
  }

  lemma UnlinkEvolve(t: Tid, l: List, k: nat, p: nat, x: nat)
    requires Order(l) && CanUnlink(l, t, k, p, x) && (k == 0 ==> x in l.counted)
    ensures CountEvolve(t, l, UnlinkNode(l, k, p, x))
  {
    UnlinkFacts(l, t, k, p, x);
    hide UnlinkNode, CanUnlink, Order;
  }

  lemma UnlinkThread(t: Tid, l: List, th: Thread, l': List, th': Thread)
    requires Order(l) && ThreadSize(t, l, th) && th.pc.RUnlink? && th.layer < |th.preds|
    requires CanUnlink(l, t, th.layer, th.preds[th.layer], th.target)
    requires th.layer == 0 ==> th.target in l.counted
    requires l' == UnlinkNode(l, th.layer, th.preds[th.layer], th.target)
    requires th' == if th.layer > 0 then th.(layer := th.layer - 1) else Go(th, RCount)
    ensures ThreadSize(t, l', th')
  {
    UnlinkFacts(l, t, th.layer, th.preds[th.layer], th.target);
    hide UnlinkNode, CanUnlink, Order;
    forall x | x in l'.lin[0] && IsItem(l', x) && MadeBy(l', x, t) && Uncounted(l', x) ensures Owes(th') {
      assert x in l.lin[0] && IsItem(l, x) && MadeBy(l, x, t) && Uncounted(l, x);
    }
  }

  lemma UnlinkSteps(cfg: Config, t: Tid, l: List, rec: Recycler, th: Thread, l': List, th': Thread)
    requires ListInv(cfg, l) && ThreadInv(cfg, t, l, th) && SizeInv(l) && ThreadSize(t, l, th)
    requires SafeAccess(cfg, l, rec, th) && WriteStep(cfg, t, l, rec, th, l', th') && th.pc.RUnlink?
    ensures SizeKept(t, l, l', th')
  {
    RemoveCanUnlink(cfg, t, l, th);
    hide Shape, Order, Layers, ThreadInv, SizeInv, ThreadSize, SafeAccess, CountEvolve, CanUnlink, OnlyLayer;
    UnlinkSize(cfg, t, l, th);
    UnlinkEvolve(t, l, th.layer, th.preds[th.layer], th.target);
    UnlinkThread(t, l, th, l', th');
  }

  lemma UnlinkSize(cfg: Config, t: Tid, l: List, th: Thread)
    requires ListInv(cfg, l) && SizeInv(l) && ThreadSize(t, l, th) && th.pc.RUnlink? && th.layer < |th.preds|
    requires CanUnlink(l, t, th.layer, th.preds[th.layer], th.target)
    ensures SizeInv(UnlinkNode(l, th.layer, th.preds[th.layer], th.target))
            && (th.layer == 0 ==> th.target in l.counted)
  {
    UnlinkFacts(l, t, th.layer, th.preds[th.layer], th.target);
    UnlinkOnly(l, t, th.layer, th.preds[th.layer], th.target);
    hide ListInv, SizeInv, ThreadSize, CanUnlink, OnlyLayer;
    if th.layer == 0 {
      UnlinkBottomSize(cfg, t, l, th, th.preds[0], th.target);
    } else {
      SameBottom(cfg, l, UnlinkNode(l, th.layer, th.preds[th.layer], th.target), th.layer);
    }
  }

  lemma CasSteps(cfg: Config, t: Tid, l: List, rec: Recycler, th: Thread, l': List, th': Thread)
    requires ListInv(cfg, l) && ThreadInv(cfg, t, l, th) && SizeInv(l) && ThreadSize(t, l, th)
    requires SafeAccess(cfg, l, rec, th) && WriteStep(cfg, t, l, rec, th, l', th') && th.pc.GCas?
    ensures SizeKept(t, l, l', th')
  {
    hide SearchInv, GuardInv, OwnerInv, AddInv, RemoveInv, GrowInv, FindInv, FlowInv, SafeAccess, ListInv, SizeInv;
    hide SizeKept, CanSwap;
    if l.head == th.oldHead {
      GrowCanSwap(cfg, t, l, th);
      SwapSteps(cfg, t, l, th, l', th');
    } else {
      OtherStepSize(t, l, th, th');
    }
  }

  lemma SwapSteps(cfg: Config, t: Tid, l: List, th: Thread, l': List, th': Thread)
    requires ListInv(cfg, l) && SizeInv(l) && ThreadSize(t, l, th) && th.pc.GCas?
             && CanSwap(cfg, l, t, th.oldHead, th.newHead)
    requires l' == SwapHead(l, th.oldHead, th.newHead, t) && th' == Go(th, GUnlock)
    ensures SizeKept(t, l, l', th')
  {
    hide ListInv, ThreadSize, CanSwap, SwapHead, CountEvolve, PredLocked;
    SwapSize(cfg, t, l, th, th.oldHead, th.newHead);
    SwapThread(cfg, t, l, th, l', th');
    SwapCount(cfg, t, l, th.oldHead, th.newHead);
  }

  lemma SwapCount(cfg: Config, t: Tid, l: List, from: nat, to: nat)
    requires CanSwap(cfg, l, t, from, to)
    ensures CountEvolve(t, l, SwapHead(l, from, to, t))
  {
    SwapFacts(cfg, l, t, from, to);
    assert l.nodes[from].isHead;
    hide CanSwap, SwapHead;
  }

  lemma SwapThread(cfg: Config, t: Tid, l: List, th: Thread, l': List, th': Thread)
    requires ThreadSize(t, l, th) && th.pc.GCas? && CanSwap(cfg, l, t, th.oldHead, th.newHead) && CountedOk(l)
    requires l' == SwapHead(l, th.oldHead, th.newHead, t) && th' == Go(th, GUnlock)
    ensures ThreadSize(t, l', th')
  {
    SwapFacts(cfg, l, t, th.oldHead, th.newHead);
    assert l.nodes[th.oldHead].isHead && l.nodes[th.newHead].isHead && l'.counted == l.counted;
    hide CanSwap, SwapHead;
    assert forall x: nat :: LockedBy(l', x, t) <==> LockedBy(l, x, t);
    assert forall x: nat :: IsItem(l, x) ==> (Gone(l', 0, x) <==> Gone(l, 0, x)) && (x in l'.lin[0] <==> x in l.lin[0]);
  }

  lemma CountedFacts(cfg: Config, t: Tid, l: List, th: Thread)
    requires ListInv(cfg, l) && ThreadInv(cfg, t, l, th)
    ensures th.pc.ACount? ==> IsItem(l, th.target) && MadeBy(l, th.target, t) && Ever(l, 0, th.target)
    ensures th.pc.RCount? ==> LockedBy(l, th.target, t) && Gone(l, 0, th.target)
    ensures th.pc.ACreate? ==> th.layer == 0
  {
    if th.pc.RCount? {
      assert NodeOk(cfg, l.nodes[th.target]);
    }
  }

  lemma WriteStepSize(cfg: Config, t: Tid, l: List, rec: Recycler, th: Thread, l': List, th': Thread)
    requires ListInv(cfg, l) && ThreadInv(cfg, t, l, th) && SizeInv(l) && ThreadSize(t, l, th)
    requires SafeAccess(cfg, l, rec, th) && WriteStep(cfg, t, l, rec, th, l', th')
    ensures SizeKept(t, l, l', th')
  {
    CountedFacts(cfg, t, l, th);
    hide ListInv, SizeInv, ThreadSize, SafeAccess, SizeKept;
    hide SearchInv, GuardInv, OwnerInv, AddInv, RemoveInv, GrowInv, FindInv, FlowInv;
    if Flags(th.pc) {
      FlagSteps(cfg, t, l, rec, th, l', th');
    } else if th.pc.Unlock? || th.pc.RUnlock? || th.pc.GUnlock? {
      ReleaseSteps(cfg, t, l, rec, th, l', th');
    } else if th.pc.ALink? {
      LinkSteps(cfg, t, l, rec, th, l', th');
    } else if th.pc.ACount? {
      CountSize(t, l, th, l', th');
    } else if th.pc.RCount? {
      UncountSize(cfg, t, l, th, l', th');
    } else if th.pc.RUnlink? {
      UnlinkSteps(cfg, t, l, rec, th, l', th');
    } else {
      CasSteps(cfg, t, l, rec, th, l', th');
    }
  }

  /** Steps that do not write the list neither start nor end a debt. */
  lemma CallShape(cfg: Config, th: Thread, th': Thread)
    requires CallStep(cfg, th, th')
    ensures !Owes(th) && !Owes(th') && !Adding(th'.pc) && !th'.pc.RCount? && !th.pc.RCount?
  {
  }

  lemma RecyclerShape(t: Tid, l: List, rec: Recycler, th: Thread, rec': Recycler, th': Thread)
    requires RecStep(t, l, rec, th, rec', th')
    ensures !Owes(th) && !Owes(th') && !Adding(th'.pc) && !th'.pc.RCount? && !th.pc.RCount?
  {
  }

  lemma ReadShape(cfg: Config, l: List, rec: Recycler, th: Thread, th': Thread)
    requires SafeAccess(cfg, l, rec, th) && ReadStep(cfg, l, rec, th, th') && FlowInv(th)
    ensures !Owes(th) && !Owes(th') && !Adding(th'.pc) && !th'.pc.RCount? && !th.pc.RCount?
  {
    hide SafeAccess, ReadStep, FlowInv;
    ReadInside(cfg, l, rec, th, th');
  }

  lemma OtherShape(cfg: Config, t: Tid, l: List, rec: Recycler, th: Thread, l': List, rec': Recycler, th': Thread)
    requires ThreadStep(cfg, t, l, rec, th, l', rec', th') && !(rec' == rec && WriteStep(cfg, t, l, rec, th, l', th'))
    requires FlowInv(th)
    ensures l' == l && !Owes(th) && !Owes(th') && !Adding(th'.pc) && !th'.pc.RCount? && !th.pc.RCount?
  {
    hide SafeAccess, CallStep, ReadStep, RecStep, WriteStep, FlowInv, Owes, Adding;
    if rec' == rec && CallStep(cfg, th, th') {
      CallShape(cfg, th, th');
    } else if rec' == rec && ReadStep(cfg, l, rec, th, th') {
      ReadShape(cfg, l, rec, th, th');
    } else {
      RecyclerShape(t, l, rec, th, rec', th');
    }
  }

  lemma OtherStepSize(t: Tid, l: List, th: Thread, th': Thread)
    requires SizeInv(l) && ThreadSize(t, l, th) && !Owes(th) && !Owes(th') && !Adding(th'.pc)
    requires !th'.pc.RCount? && !th.pc.RCount?
    ensures SizeKept(t, l, l, th')
  {
  }

  lemma ThreadStepSize(cfg: Config, t: Tid, l: List, rec: Recycler, th: Thread, l': List, rec': Recycler, th': Thread)
    requires ListInv(cfg, l) && ThreadInv(cfg, t, l, th) && SizeInv(l) && ThreadSize(t, l, th)
    requires ThreadStep(cfg, t, l, rec, th, l', rec', th')
    ensures SizeKept(t, l, l', th')
  {
    FlowOf(cfg, t, l, th);
    hide ListInv, ThreadInv, SizeInv, ThreadSize, SafeAccess, SizeKept, CallStep, ReadStep, RecStep, WriteStep;
    if rec' == rec && WriteStep(cfg, t, l, rec, th, l', th') {
      WriteStepSize(cfg, t, l, rec, th, l', th');
    } else {
      OtherShape(cfg, t, l, rec, th, l', rec', th');
      OtherStepSize(t, l, th, th');
    }
  }

  // ---------- runs ----------

  lemma OwnersKept(t: Tid, s: State, s': State)
    requires OwnersExist(s) && Evolve(t, s.l, s'.l) && |s'.threads| == |s.threads| && t < |s.threads|
    ensures OwnersExist(s')
  {
    forall x | 0 <= x < |s'.l.nodes| && s'.l.nodes[x].lock.Some? ensures s'.l.nodes[x].lock.value < |s'.threads| {
      if x < |s.l.nodes| {
        assert NodeEvolve(t, s.l.nodes[x], s'.l.nodes[x]);
      }
    }
  }

  lemma StepKeepsCount(cfg: Config, s: State, t: Tid, s': State)
    requires CountInv(cfg, s) && StepBy(cfg, s, t, s')
    ensures CountInv(cfg, s')
  {
    StepKeepsFull(cfg, s, t, s');
    OwnersKept(t, s, s');
    hide ListInv, ThreadInv, RecInv, ThreadRec, SizeInv, ThreadSize, ThreadStep, OwnersExist, Evolve, CountEvolve;
    ThreadStepSize(cfg, t, s.l, s.rec, s.threads[t], s'.l, s'.rec, s'.threads[t]);
    forall u | 0 <= u < |s'.threads| ensures ThreadSize(u, s'.l, s'.threads[u]) {
      if u != t {
        OtherSize(cfg, s, t, s', u);
      }
    }
  }

  lemma OtherSize(cfg: Config, s: State, t: Tid, s': State, u: Tid)
    requires FullInv(cfg, s) && FullInv(cfg, s') && Evolve(t, s.l, s'.l) && CountEvolve(t, s.l, s'.l)
    requires u != t && u < |s.threads| == |s'.threads| && s'.threads[u] == s.threads[u]
             && ThreadSize(u, s.l, s.threads[u])
    ensures ThreadSize(u, s'.l, s'.threads[u])
  {
    assert ThreadInv(cfg, u, s.l, s.threads[u]);
    hide ListInv, RecInv, ThreadRec, ThreadSize, Evolve, CountEvolve, OwnerInv, AddInv, SearchInv, GuardInv,
      RemoveInv, GrowInv;
    SizeStable(cfg, t, u, s.l, s'.l, s.threads[u]);
  }

  lemma InitCount(cfg: Config, s: State)
    requires Init(cfg, s)
    ensures CountInv(cfg, s)
  {
    InitFull(cfg, s);
    hide FullInv;
  }

  lemma {:induction false} RunKeepsCount(cfg: Config, r: seq<State>, i: nat)
    requires Run(cfg, r) && i < |r|
    ensures CountInv(cfg, r[i])
  {
    hide CountInv, Init, StepBy;
    if i == 0 {
      InitCount(cfg, r[0]);
    } else {
      RunKeepsCount(cfg, r, i - 1);
      assert StepAt(cfg, r, i - 1);
      var t: Tid :| StepBy(cfg, r[i - 1], t, r[i]);
      StepKeepsCount(cfg, r[i - 1], t, r[i]);
    }
  }

  /** size_ never goes below zero, so it never wraps around and the size an add reports is
      positive: it is positive when a remove is about to take one away, and an add counts a
      node that was not counted before. */
  lemma SizeNeverNegative(cfg: Config, r: seq<State>, i: nat, t: Tid)
    requires Run(cfg, r) && i < |r| && t < |r[i].threads|
    ensures r[i].l.size >= 0
    ensures r[i].threads[t].pc.RCount? ==> r[i].l.size > 0
    ensures r[i].threads[t].pc.ACount? ==> r[i].threads[t].target !in r[i].l.counted
  {
    RunKeepsCount(cfg, r, i);
    hide FullInv;
    assert ThreadSize(t, r[i].l, r[i].threads[t]);
  }

  predicate Quiet(pc: Pc) {
    !Inside(pc) || pc.Idle? || pc.Returned?
  }

  lemma QuietHoldsNothing(cfg: Config, t: Tid, l: List, th: Thread, x: nat)
    requires ThreadInv(cfg, t, l, th) && Quiet(th.pc)
    ensures !LockedBy(l, x, t)
  {
  }

  lemma HasPred(cfg: Config, l: List, x: nat) returns (p: nat)
    requires ListInv(cfg, l) && x in l.lin[0] && x != l.head && x != NIL
    ensures p in l.lin[0] && Skip(l, 0, p) == x
  {
    var h := l.head;
    assert NodeOk(cfg, l.nodes[h]) && h in l.lin[0] && LinOk(l, 0, x);
    var w := WalkFrom(cfg, l, 0, h);
    assert x in After(l, 0, h);
    var i :| 0 <= i < |w| && w[i] == x;
    p := w[i - 1];
    assert p in w;
  }

  lemma QuietCount(cfg: Config, l: List)
    requires ListInv(cfg, l) && SizeInv(l) && forall x :: 0 <= x < |l.nodes| ==> l.nodes[x].lock.None?
    ensures l.counted == l.lin[0] - {l.head}
  {
    forall x | x in l.lin[0] && x != l.head ensures x in l.counted {
      assert LinOk(l, 0, x);
      var p := HasPred(cfg, l, x);
      assert !Uncounted(l, Skip(l, 0, p));
    }
    forall x | x in l.counted ensures x in l.lin[0] && x != l.head {
      assert Ever(l, 0, x) && !Gone(l, 0, x);
    }
  }

  lemma NoLocks(cfg: Config, r: seq<State>, i: nat)
    requires Run(cfg, r) && i < |r| && forall t :: 0 <= t < |r[i].threads| ==> Quiet(r[i].threads[t].pc)
    ensures forall x :: 0 <= x < |r[i].l.nodes| ==> r[i].l.nodes[x].lock.None?
  {
    RunKeepsCount(cfg, r, i);
    hide Run, RecInv, ThreadRec, ThreadInv, ListInv, SizeInv, ThreadSize;
    var s := r[i];
    forall x | 0 <= x < |s.l.nodes| ensures s.l.nodes[x].lock.None? {
      if s.l.nodes[x].lock.Some? {
        var t := s.l.nodes[x].lock.value;
        assert ThreadInv(cfg, t, s.l, s.threads[t]);
        QuietHoldsNothing(cfg, t, s.l, s.threads[t], x);
      }
    }
  }

  /** With no operation in progress, size() counts the linked nodes. */
  lemma QuietSize(cfg: Config, r: seq<State>, i: nat)
    requires Run(cfg, r) && i < |r| && forall t :: 0 <= t < |r[i].threads| ==> Quiet(r[i].threads[t].pc)
    ensures |r[i].l.lin| > 0 && r[i].l.size == |r[i].l.lin[0] - {r[i].l.head}|
  {
    RunKeepsCount(cfg, r, i);
    NoLocks(cfg, r, i);
    hide Run, RecInv, ThreadRec, ThreadInv, ListInv, SizeInv, ThreadSize;
    QuietCount(cfg, r[i].l);
    SizeParts(cfg, r[i].l);
  }

  lemma SizeParts(cfg: Config, l: List)
    requires ListInv(cfg, l) && SizeInv(l)
    ensures |l.lin| > 0 && l.size == |l.counted|
  {
  }
}
