/** What AtomicUnorderedInsertMap promises, for every run of any number of threads. */
module UnorderedMapTheorems {

  import opened Common
  import opened UnorderedMapState
  import opened UnorderedMapProof

  lemma StepAtKeepsInv(cfg: Config, r: seq<State>, i: nat) returns (t: Tid)
    requires StepAt(cfg, r, i) && i + 1 < |r| && Inv(cfg, r[i])
    ensures StepBy(cfg, r[i], t, r[i + 1]) && Evolve(t, r[i].sh, r[i + 1].sh) && Inv(cfg, r[i + 1])
  {
    t :| StepBy(cfg, r[i], t, r[i + 1]);
    StepKeepsInv(cfg, r[i], t, r[i + 1]);
  }

  lemma {:induction false} RunKeepsInv(cfg: Config, r: seq<State>, i: nat)
    requires Run(cfg, r) && i < |r|
    ensures Inv(cfg, r[i])
  {
    if i == 0 {
      InitInv(cfg, r[0]);
    } else {
      RunKeepsInv(cfg, r, i - 1);
      var t := StepAtKeepsInv(cfg, r, i - 1);
    }
  }

  lemma RunStep(cfg: Config, r: seq<State>, i: nat) returns (t: Tid)
    requires Run(cfg, r) && i + 1 < |r|
    ensures StepBy(cfg, r[i], t, r[i + 1]) && Evolve(t, r[i].sh, r[i + 1].sh)
    ensures Inv(cfg, r[i]) && Inv(cfg, r[i + 1])
  {
    RunKeepsInv(cfg, r, i);
    t := StepAtKeepsInv(cfg, r, i);
  }

  // ---------- shape ----------

  /** No key is linked twice, and each linked slot is in one chain, that of its key's home slot. */
  lemma NoKeyLinkedTwice(cfg: Config, r: seq<State>, i: nat, k: int, h: nat, p: nat, g: nat, q: nat)
    requires Run(cfg, r) && i < |r|
    requires LinkedAt(r[i].sh, h, p, k) && LinkedAt(r[i].sh, g, q, k)
    ensures h == g && p == q && cfg.numSlots > 0 && h == HomeSlot(cfg, k)
  {
    RunKeepsInv(cfg, r, i);
    HomeChain(cfg, r[i].sh, h, p, k);
  }

  /** Thread t is in the middle of an insert that has slot x. */
  ghost predicate InFlight(s: State, t: nat, x: nat) {
    t < |s.threads| && s.threads[t].idx == x && (Holding(s.threads[t]) || s.threads[t].pc.LinkState?)
  }

  ghost predicate InSomeChain(sh: Shared, x: nat) {
    exists h, p :: InChain(sh, x, h, p)
  }

  /** Who has a slot is a thread of the run. */
  ghost predicate OwnersExist(s: State) {
    forall x :: 0 <= x < |s.sh.slots| && (s.sh.slots[x].role.Owned? || s.sh.slots[x].role.Linking?) ==>
      s.sh.slots[x].role.t < |s.threads|
  }

  lemma {:induction false} RunOwners(cfg: Config, r: seq<State>, i: nat)
    requires Run(cfg, r) && i < |r|
    ensures OwnersExist(r[i])
  {
    if i == 0 {
    } else {
      RunOwners(cfg, r, i - 1);
      var t := RunStep(cfg, r, i - 1);
      OwnersStep(cfg, r[i - 1], t, r[i - 1 + 1]);
    }
  }

  lemma OwnersStep(cfg: Config, s: State, t: Tid, s': State)
    requires StepBy(cfg, s, t, s') && Evolve(t, s.sh, s'.sh) && OwnersExist(s)
    ensures OwnersExist(s')
  {
    hide ThreadStep;
    forall x | 0 <= x < |s'.sh.slots| && (s'.sh.slots[x].role.Owned? || s'.sh.slots[x].role.Linking?)
      ensures s'.sh.slots[x].role.t < |s'.threads|
    {
      assert SlotEvolve(t, s.sh.slots[x], s'.sh.slots[x]);
    }
  }

  /** Every nonzero slot is EMPTY; or CONSTRUCTING and some insert in flight has it, exactly
      one, unless its value functor threw; or LINKED, at exactly one place of one chain.
      Slot 0 stays CONSTRUCTING, and is never allocated or linked. */
  lemma SlotOwnership(cfg: Config, r: seq<State>, i: nat, x: nat, t: Tid, u: Tid)
    requires Run(cfg, r) && i < |r| && x < |r[i].sh.slots|
    ensures var s := r[i].sh.slots[x];
            && (InFlight(r[i], t, x) && InFlight(r[i], u, x) ==> t == u)
            && (InFlight(r[i], t, x) ==> x != 0 && StateBits(s.word) == CONSTRUCTING)
            && (StateBits(s.word) == EMPTY ==> !InSomeChain(r[i].sh, x) && !InFlight(r[i], t, x))
            && (StateBits(s.word) == LINKED ==> InSomeChain(r[i].sh, x) && !InFlight(r[i], t, x))
            && (InFlight(r[i], t, x) ==> (InSomeChain(r[i].sh, x) <==> r[i].threads[t].pc.LinkState?))
            && (s.role.Abandoned? ==>
                  StateBits(s.word) == CONSTRUCTING && !InSomeChain(r[i].sh, x) && !InFlight(r[i], t, x))
            && (x == 0 ==> StateBits(s.word) == CONSTRUCTING && !InSomeChain(r[i].sh, x))
            && (0 < x && StateBits(s.word) == CONSTRUCTING && !s.role.Abandoned? ==>
                  exists v: Tid :: InFlight(r[i], v, x))
            && (StateBits(s.word) == EMPTY || StateBits(s.word) == CONSTRUCTING || StateBits(s.word) == LINKED)
    ensures forall h, p, g, q :: InChain(r[i].sh, x, h, p) && InChain(r[i].sh, x, g, q) ==> h == g && p == q
  {
    RunKeepsInv(cfg, r, i);
    var sh := r[i].sh;
    assert SlotInv(sh.slots[x], x);
    RunOwners(cfg, r, i);
    var role := sh.slots[x].role;
    if role.Owned? || role.Linking? {
      assert ThreadInv(cfg, role.t, sh, r[i].threads[role.t]);
      assert InFlight(r[i], role.t, x);
    }
    if t < |r[i].threads| {
      assert ThreadInv(cfg, t, sh, r[i].threads[t]);
    }
    if u < |r[i].threads| {
      assert ThreadInv(cfg, u, sh, r[i].threads[u]);
    }
    if !LinkedRole(sh.slots[x].role) {
      FreeSlotsInNoChain(cfg, sh, x);
    }
  }

  /** A slot whose functor threw is lost: it stays CONSTRUCTING, unowned and unlinked in
      all later states. */
  lemma {:induction false} AbandonedForever(cfg: Config, r: seq<State>, i: nat, j: nat, x: nat, t: Tid)
    requires Run(cfg, r) && i <= j < |r| && x < |r[i].sh.slots| && r[i].sh.slots[x].role.Abandoned?
    ensures x < |r[j].sh.slots| && r[j].sh.slots[x].role.Abandoned?
    ensures StateBits(r[j].sh.slots[x].word) == CONSTRUCTING
    ensures !InSomeChain(r[j].sh, x) && !InFlight(r[j], t, x)
    decreases j
  {
    if i < j {
      AbandonedForever(cfg, r, i, j - 1, x, t);
      var u := RunStep(cfg, r, j - 1);
      assert SlotEvolve(u, r[j - 1].sh.slots[x], r[j - 1 + 1].sh.slots[x]);
    }
    SlotOwnership(cfg, r, j, x, t, t);
  }

  /** next_ leads to the element linked just before: walks strictly descend in
      link order, so find terminates. */
  lemma NextDescends(cfg: Config, r: seq<State>, i: nat, h: nat, p: nat)
    requires Run(cfg, r) && i < |r| && h < |r[i].sh.chains| && p < |r[i].sh.chains[h]|
    ensures var ch := r[i].sh.chains[h];
            && 0 < ch[p] < |r[i].sh.slots|
            && r[i].sh.slots[ch[p]].next == (if p == 0 then 0 else ch[p - 1])
  {
    RunKeepsInv(cfg, r, i);
    assert ElemInv(cfg, r[i].sh, h, p);
  }

  /** Each step of a walk has one element fewer ahead of it. */
  lemma WalkShrinks(cfg: Config, r: seq<State>, i: nat, t: Tid)
    requires Run(cfg, r) && i + 1 < |r| && t < |r[i].threads| == |r[i + 1].threads|
    requires r[i].threads[t].pc.FindWalk? && r[i + 1].threads[t].pc.FindWalk?
    ensures var a, b := r[i].threads[t], r[i + 1].threads[t];
            a == b || b.clen == a.clen - 1
  {
    var u := RunStep(cfg, r, i);
    if u == t {
      assert ThreadInv(cfg, t, r[i].sh, r[i].threads[t]);
      CursorElem(cfg, r[i].sh, r[i].threads[t]);
    }
  }

  lemma SafeFromInv(cfg: Config, t: Tid, sh: Shared, th: Thread)
    requires SharedInv(cfg, sh) && ThreadInv(cfg, t, sh, th)
    ensures SafeAccess(sh, th)
    ensures th.pc.FindWalk? && th.cur != 0 ==> StateBits(sh.slots[th.cur].word) != EMPTY
  {
    if th.pc.FindWalk? {
      CursorElem(cfg, sh, th);
    }
  }

  /** Every index a thread is about to use is in range; find compares keys only in
      slots that are not EMPTY. Words fit an index type with two bits to spare. */
  lemma AccessesAreSafe(cfg: Config, r: seq<State>, i: nat, t: Tid, x: nat)
    requires Run(cfg, r) && i < |r| && t < |r[i].threads| && x < |r[i].sh.slots|
    ensures SafeAccess(r[i].sh, r[i].threads[t])
    ensures var th := r[i].threads[t];
            th.pc.FindWalk? && th.cur != 0 ==> StateBits(r[i].sh.slots[th.cur].word) != EMPTY
    ensures r[i].sh.slots[x].word < 4 * cfg.avail
  {
    RunKeepsInv(cfg, r, i);
    var sh := r[i].sh;
    assert ThreadInv(cfg, t, sh, r[i].threads[t]);
    SafeFromInv(cfg, t, sh, r[i].threads[t]);
    if sh.chains[x] != [] {
      assert ElemInv(cfg, sh, x, |sh.chains[x]| - 1);
    }
    assert SlotInv(sh.slots[x], x) && Head(sh.slots[x].word) == Top(sh.chains[x]);
  }

  // ---------- linearizability as an insert-only map ----------

  /** The step of thread t is its successful head compare-and-swap. */
  ghost predicate Inserts(sh: Shared, th: Thread) {
    SafeAccess(sh, th) && Links(sh, th)
  }

  lemma ThreadStepEffect(cfg: Config, t: Tid, sh: Shared, th: Thread, sh': Shared, th': Thread, k: int)
    requires SharedInv(cfg, sh) && ThreadInv(cfg, t, sh, th) && ThreadStep(cfg, t, sh, th, sh', th')
    ensures Inserts(sh, th) ==> !Contains(sh, th.key)
    ensures Contains(sh', k) <==> Contains(sh, k) || (Inserts(sh, th) && k == th.key)
  {
    if sh' == sh && (CallStep(cfg, th, th') || ReadStep(sh, th, th')) {
    } else if Links(sh, th) {
      LinkStepShape(cfg, t, sh, th, sh', th');
      LinkAbsent(cfg, t, sh, th);
      LinkContains(cfg, t, sh, th.slot, th.idx, sh', th.key, k);
    } else {
      SlotStepShared(cfg, t, sh, th, sh', th');
    }
  }

  lemma LinkContains(cfg: Config, t: Tid, sh: Shared, g: nat, idx: nat, sh': Shared, k: int, x: int)
    requires SharedInv(cfg, sh) && Linked1(t, sh, g, idx, sh')
    requires sh.slots[idx].kv.Some? && sh.slots[idx].kv.value.0 == k && HomeSlot(cfg, k) == g
    requires sh.slots[idx].next == Top(sh.chains[g])
    ensures Contains(sh', x) <==> Contains(sh, x) || x == k
  {
    if Contains(sh', x) {
      var h, p :| LinkedAt(sh', h, p, x);
      LinkAdds(cfg, t, sh, g, idx, sh', k, h, p, x);
    }
    if Contains(sh, x) {
      var h, p :| LinkedAt(sh, h, p, x);
      LinkAdds(cfg, t, sh, g, idx, sh', k, h, p, x);
    }
    LinkAdds(cfg, t, sh, g, idx, sh', k, g, |sh.chains[g]|, x);
  }

  /** The set of keys changes only at a successful head compare-and-swap, which adds
      the inserter's key when it is absent. So inserts take effect there, once each. */
  lemma KeySetChanges(cfg: Config, r: seq<State>, i: nat, k: int) returns (t: Tid)
    requires Run(cfg, r) && i + 1 < |r|
    ensures StepBy(cfg, r[i], t, r[i + 1])
    ensures Inserts(r[i].sh, r[i].threads[t]) ==> !Contains(r[i].sh, r[i].threads[t].key)
    ensures Contains(r[i + 1].sh, k) <==>
              Contains(r[i].sh, k) || (Inserts(r[i].sh, r[i].threads[t]) && k == r[i].threads[t].key)
  {
    t := RunStep(cfg, r, i);
    assert ThreadInv(cfg, t, r[i].sh, r[i].threads[t]);
    ThreadStepEffect(cfg, t, r[i].sh, r[i].threads[t], r[i + 1].sh, r[i + 1].threads[t], k);
  }

  /** From its head load at step i until state j, thread t is in one find. */
  ghost predicate InFind(r: seq<State>, t: Tid, i: nat, j: nat) {
    && i + 1 < j < |r|
    && (forall x :: i <= x <= j ==> t < |r[x].threads|)
    && r[i].threads[t].pc.FindHead?
    && (forall x :: i < x < j ==> r[x].threads[t].pc.FindWalk?)
  }

  lemma {:induction false} PresentIsRemembered(cfg: Config, r: seq<State>, t: Tid, i: nat, j: nat)
    requires Run(cfg, r) && InFind(r, t, i, j)
    ensures var a, b := r[i].threads[t], r[j - 1].threads[t];
            b.key == a.key && b.op == a.op && b.idx == a.idx && (b.present <==> Contains(r[i].sh, a.key))
    decreases j
  {
    if j == i + 2 {
      HeadLoad(cfg, r, i, t);
    } else {
      assert InFind(r, t, i, j - 1);
      PresentIsRemembered(cfg, r, t, i, j - 1);
      WalkKeeps(cfg, r, j - 2, t);
    }
  }

  lemma HeadLoad(cfg: Config, r: seq<State>, i: nat, t: Tid)
    requires Run(cfg, r) && i + 1 < |r| && t < |r[i].threads| && t < |r[i + 1].threads|
    requires r[i].threads[t].pc.FindHead? && r[i + 1].threads[t].pc.FindWalk?
    ensures var a, b := r[i].threads[t], r[i + 1].threads[t];
            b.key == a.key && b.op == a.op && b.idx == a.idx && (b.present <==> Contains(r[i].sh, a.key))
  {
    assert StepAt(cfg, r, i);
    var u :| StepBy(cfg, r[i], u, r[i + 1]);
    assert u == t;
  }

  lemma WalkKeeps(cfg: Config, r: seq<State>, i: nat, t: Tid)
    requires Run(cfg, r) && i + 1 < |r| && t < |r[i].threads| && t < |r[i + 1].threads|
    requires r[i].threads[t].pc.FindWalk? && r[i + 1].threads[t].pc.FindWalk?
    ensures var a, b := r[i].threads[t], r[i + 1].threads[t];
            b.key == a.key && b.op == a.op && b.idx == a.idx && b.present == a.present
  {
    assert StepAt(cfg, r, i);
    var u :| StepBy(cfg, r[i], u, r[i + 1]);
  }

  /** A find, alone or inside findOrConstruct, takes effect at its load of the head:
      its answer is the truth about the map at that step. */
  lemma FindTakesEffectAtHeadLoad(cfg: Config, r: seq<State>, t: Tid, i: nat, j: nat)
    requires Run(cfg, r) && InFind(r, t, i, j) && !r[j].threads[t].pc.FindWalk?
    ensures var a, b := r[i].threads[t], r[j].threads[t];
            && b.key == a.key
            && (a.op == Find ==> b.pc.Returned? && (b.res == NotFound <==> !Contains(r[i].sh, a.key)))
            && (a.op == FindOrConstruct ==>
                  ((b.pc.AllocLoad? || b.pc.SetNext?) <==> !Contains(r[i].sh, a.key)))
            && (b.pc.Returned? && b.res.Found? ==> HoldsKey(r[j].sh, b.res.at, a.key))
  {
    PresentIsRemembered(cfg, r, t, i, j);
    var u := RunStep(cfg, r, j - 1);
    assert ThreadInv(cfg, t, r[j].sh, r[j].threads[t]);
    assert ThreadInv(cfg, t, r[j - 1].sh, r[j - 1].threads[t]);
    assert u == t;
    WalkEnds(cfg, r[j - 1].sh, r[j - 1].threads[t], r[j].threads[t]);
  }

  lemma WalkEnds(cfg: Config, sh: Shared, th: Thread, th': Thread)
    requires SharedInv(cfg, sh) && PositionInv(cfg, sh, th) && SafeAccess(sh, th)
    requires th.pc.FindWalk? && ReadStep(sh, th, th') && !th'.pc.FindWalk?
    ensures th'.key == th.key && th'.op == th.op
    ensures th.op == Find ==> th'.pc.Returned? && (th'.res == NotFound <==> !th.present)
    ensures th.op == FindOrConstruct ==> ((th'.pc.AllocLoad? || th'.pc.SetNext?) <==> !th.present)
  {
    CursorElem(cfg, sh, th);
    if th.cur != 0 {
      assert LinkedAt(sh, th.slot, th.clen - 1, th.key);
    }
  }

  // ---------- linked slots never change ----------

  ghost predicate LinkedLater(a: Shared, b: Shared) {
    && |a.slots| == |b.slots| && |a.chains| == |b.chains|
    && (forall h :: 0 <= h < |a.chains| ==> a.chains[h] <= b.chains[h])
    && (forall i :: 0 <= i < |a.slots| && LinkedRole(a.slots[i].role) ==>
          LinkedRole(b.slots[i].role) && b.slots[i].kv == a.slots[i].kv && b.slots[i].next == a.slots[i].next)
  }

  lemma EvolveLinkedLater(t: Tid, a: Shared, b: Shared)
    requires Evolve(t, a, b)
    ensures LinkedLater(a, b)
  {
    forall i | 0 <= i < |a.slots| && LinkedRole(a.slots[i].role)
      ensures LinkedRole(b.slots[i].role) && b.slots[i].kv == a.slots[i].kv && b.slots[i].next == a.slots[i].next
    {
      assert SlotEvolve(t, a.slots[i], b.slots[i]);
    }
  }

  /** What is linked stays linked, with the same key, value and successor: iterators
      and references are never invalidated, and chains only grow at their head. */
  lemma {:induction false} LinkedForever(cfg: Config, r: seq<State>, i: nat, j: nat)
    requires Run(cfg, r) && i <= j < |r|
    ensures LinkedLater(r[i].sh, r[j].sh)
    decreases j - i
  {
    if i < j {
      LinkedForever(cfg, r, i, j - 1);
      var t := RunStep(cfg, r, j - 1);
      EvolveLinkedLater(t, r[j - 1].sh, r[j].sh);
    }
  }

  /** findOrConstruct returns a slot that holds its key; one it constructed holds its value. */
  lemma ResultsHoldTheKey(cfg: Config, r: seq<State>, i: nat, t: Tid)
    requires Run(cfg, r) && i < |r| && t < |r[i].threads| && r[i].threads[t].pc.Returned?
    ensures var th := r[i].threads[t];
            && (th.res.Found? ==> HoldsKey(r[i].sh, th.res.at, th.key))
            && (th.res.Constructed? ==> HoldsKey(r[i].sh, th.res.slot, th.key) &&
                                        r[i].sh.slots[th.res.slot].kv == Some((th.key, th.val)))
  {
    RunKeepsInv(cfg, r, i);
    assert ThreadInv(cfg, t, r[i].sh, r[i].threads[t]);
  }
}
