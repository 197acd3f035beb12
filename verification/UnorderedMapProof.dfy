/** The invariant of AtomicUnorderedInsertMap, and why every step keeps it. */
module UnorderedMapProof {

  import opened Common
  import opened UnorderedMapState

  // ---------- invariant of shared memory ----------

  /** The slot a chain, or a prefix of it, starts from: its newest element. */
  function Top(chain: seq<nat>): nat {
    if chain == [] then 0 else chain[|chain| - 1]
  }

  predicate LinkedRole(r: Role) {
    r.Linking? || r.Linked?
  }

  predicate SlotInv(s: Slot, i: nat) {
    && (s.role.Reserved? <==> i == 0)
    && StateBits(s.word) == (if s.role.Free? then EMPTY else if s.role.Linked? then LINKED else CONSTRUCTING)
  }

  /** Element p of the chain of home slot h. */
  ghost predicate ElemInv(cfg: Config, sh: Shared, h: nat, p: nat)
    requires h < |sh.chains| && p < |sh.chains[h]| && cfg.numSlots > 0
  {
    var x := sh.chains[h][p];
    && 0 < x < |sh.slots|
    && LinkedRole(sh.slots[x].role)
    && sh.slots[x].kv.Some?
    && HomeSlot(cfg, sh.slots[x].kv.value.0) == h
    && sh.slots[x].next == Top(sh.chains[h][..p])
  }

  ghost predicate InChain(sh: Shared, i: nat, h: nat, p: nat) {
    h < |sh.chains| && p < |sh.chains[h]| && sh.chains[h][p] == i
  }

  ghost predicate SharedInv(cfg: Config, sh: Shared) {
    && ValidConfig(cfg)
    && |sh.slots| == |sh.chains| == cfg.numSlots
    && (forall i :: 0 <= i < |sh.slots| ==> SlotInv(sh.slots[i], i))
    && (forall h :: 0 <= h < |sh.chains| ==> Head(sh.slots[h].word) == Top(sh.chains[h]))
    && (forall h, p :: 0 <= h < |sh.chains| && 0 <= p < |sh.chains[h]| ==> ElemInv(cfg, sh, h, p))
    && (forall i, h, p, g, q :: InChain(sh, i, h, p) && InChain(sh, i, g, q) ==> h == g && p == q)
    && (forall k, h, p, g, q :: LinkedAt(sh, h, p, k) && LinkedAt(sh, g, q, k) ==> h == g && p == q)
    && (forall i :: 0 <= i < |sh.slots| && LinkedRole(sh.slots[i].role) ==> exists h, p :: InChain(sh, i, h, p))
  }

  // ---------- invariant of one thread ----------

  /** The thread has a slot that is not linked yet. */
  predicate Holding(th: Thread) {
    || th.pc.Construct? || th.pc.SetNext? || th.pc.LinkCas? || th.pc.Destroy? || th.pc.Release?
    || ((th.pc.FindHead? || th.pc.FindWalk?) && th.idx != 0)
  }

  predicate HasKey(th: Thread) {
    Holding(th) && !th.pc.Construct? && !th.pc.Release?
  }

  ghost predicate OwnerInv(t: Tid, sh: Shared, th: Thread) {
    && (Holding(th) ==> 0 < th.idx < |sh.slots| && sh.slots[th.idx].role == Owned(t) && th.op == FindOrConstruct)
    && (th.pc.LinkState? ==> 0 < th.idx < |sh.slots| && sh.slots[th.idx].role == Linking(t))
    && (forall i :: 0 <= i < |sh.slots| && sh.slots[i].role == Owned(t) ==> Holding(th) && i == th.idx)
    && (forall i :: 0 <= i < |sh.slots| && sh.slots[i].role == Linking(t) ==> th.pc.LinkState? && i == th.idx)
    && (HasKey(th) || th.pc.LinkState? ==> sh.slots[th.idx].kv == Some((th.key, th.val)))
    && (th.pc.LinkCas? ==> sh.slots[th.idx].next == Head(th.prev))
    && (th.pc.LoadPrev? || th.pc.AllocLoad? || th.pc.AllocCas? || th.op == Find ==> th.idx == 0)
  }

  predicate Active(pc: Pc) {
    !pc.Idle? && !pc.Returned?
  }

  ghost predicate KeyIn(sh: Shared, h: nat, lo: nat, hi: nat, k: int) {
    exists p :: lo <= p < hi && LinkedAt(sh, h, p, k)
  }

  predicate Decided(pc: Pc) {
    pc.AllocLoad? || pc.AllocCas? || pc.Construct? || pc.SetNext? || pc.LinkCas?
  }

  ghost predicate HoldsKey(sh: Shared, i: nat, k: int) {
    0 < i < |sh.slots| && LinkedRole(sh.slots[i].role) && sh.slots[i].kv.Some? && sh.slots[i].kv.value.0 == k
  }

  ghost predicate PositionInv(cfg: Config, sh: Shared, th: Thread) {
    && (Active(th.pc) ==> cfg.numSlots > 0 && th.slot == HomeSlot(cfg, th.key) && th.slot < |sh.chains|)
    && (Active(th.pc) && th.op == FindOrConstruct && !th.pc.LoadPrev? ==>
          th.plen <= |sh.chains[th.slot]| && Head(th.prev) == Top(sh.chains[th.slot][..th.plen]))
    && (th.op == Find ==> th.pc.Idle? || th.pc.Returned? || th.pc.FindHead? || th.pc.FindWalk?)
    && (th.pc.FindWalk? ==>
          && th.clen <= th.hlen <= |sh.chains[th.slot]|
          && (th.op == FindOrConstruct ==> th.plen <= th.hlen)
          && th.cur == Top(sh.chains[th.slot][..th.clen])
          && !KeyIn(sh, th.slot, th.clen, th.hlen, th.key)
          && (th.present <==> KeyIn(sh, th.slot, 0, th.hlen, th.key)))
    && (th.pc.AllocCas? ==> th.cand < |sh.slots| && StateBits(th.seen) == EMPTY)
    && (Decided(th.pc) ==>
          th.plen <= th.hlen <= |sh.chains[th.slot]| && !KeyIn(sh, th.slot, 0, th.hlen, th.key) && !th.present)
  }

  ghost predicate ResultInv(sh: Shared, th: Thread) {
    && (th.pc.Destroy? || th.pc.Release? ==> th.present && HoldsKey(sh, th.cur, th.key))
    && (th.pc.Returned? ==>
          match th.res
          case Found(x) => th.present && HoldsKey(sh, x, th.key)
          case NotFound => !th.present
          case Constructed(x) => HoldsKey(sh, x, th.key) && sh.slots[x].kv == Some((th.key, th.val))
          case _ => true)
  }

  ghost predicate ThreadInv(cfg: Config, t: Tid, sh: Shared, th: Thread) {
    OwnerInv(t, sh, th) && PositionInv(cfg, sh, th) && ResultInv(sh, th)
  }

  ghost predicate Inv(cfg: Config, s: State) {
    && SharedInv(cfg, s.sh)
    && forall t :: 0 <= t < |s.threads| ==> ThreadInv(cfg, t, s.sh, s.threads[t])
  }

  // ---------- what a step of thread t may do ----------

  predicate SlotEvolve(t: Tid, a: Slot, b: Slot) {
    && (a.role.Owned? && a.role.t != t ==> b.role == a.role && b.kv == a.kv && b.next == a.next)
    && (LinkedRole(a.role) ==> b.kv == a.kv && b.next == a.next)
    && (a.role.Linked? ==> b.role == a.role)
    && (a.role.Linking? ==> b.role == a.role || (a.role.t == t && b.role.Linked?))
    && (b.role.Owned? && b.role.t != t ==> b.role == a.role)
    && (b.role.Linking? && b.role.t != t ==> b.role == a.role)
    && (a.role.Abandoned? ==> b.role.Abandoned?)
  }

  ghost predicate Evolve(t: Tid, a: Shared, b: Shared) {
    && |a.slots| == |b.slots| && |a.chains| == |b.chains|
    && (forall i :: 0 <= i < |a.slots| ==> SlotEvolve(t, a.slots[i], b.slots[i]))
    && (forall h :: 0 <= h < |a.chains| ==> a.chains[h] <= b.chains[h])
  }

  lemma PrefixOfPrefix(a: seq<nat>, b: seq<nat>, n: nat)
    requires a <= b && n <= |a|
    ensures a[..n] == b[..n]
  {
  }

  /** Which keys a prefix of a chain links never changes. */
  lemma KeyInStable(cfg: Config, t: Tid, a: Shared, b: Shared, h: nat, lo: nat, hi: nat, k: int)
    requires SharedInv(cfg, a) && Evolve(t, a, b) && h < |a.chains| && hi <= |a.chains[h]|
    ensures KeyIn(b, h, lo, hi, k) <==> KeyIn(a, h, lo, hi, k)
  {
    forall p | lo <= p < hi ensures LinkedAt(b, h, p, k) <==> LinkedAt(a, h, p, k) {
      assert ElemInv(cfg, a, h, p);
      assert b.chains[h][p] == a.chains[h][p];
      assert SlotEvolve(t, a.slots[a.chains[h][p]], b.slots[a.chains[h][p]]);
    }
  }

  lemma HoldsKeyStable(t: Tid, a: Shared, b: Shared, i: nat, k: int)
    requires Evolve(t, a, b) && HoldsKey(a, i, k)
    ensures HoldsKey(b, i, k) && b.slots[i].kv == a.slots[i].kv
  {
    assert SlotEvolve(t, a.slots[i], b.slots[i]);
  }

  lemma OwnerStable(t: Tid, u: Tid, a: Shared, b: Shared, th: Thread)
    requires u != t && Evolve(t, a, b) && OwnerInv(u, a, th)
    ensures OwnerInv(u, b, th)
  {
    if th.idx < |a.slots| {
      assert SlotEvolve(t, a.slots[th.idx], b.slots[th.idx]);
    }
    forall i | 0 <= i < |b.slots| && (b.slots[i].role == Owned(u) || b.slots[i].role == Linking(u))
      ensures a.slots[i].role == b.slots[i].role
    {
      assert SlotEvolve(t, a.slots[i], b.slots[i]);
    }
  }

  lemma PositionStable(cfg: Config, t: Tid, a: Shared, b: Shared, th: Thread)
    requires SharedInv(cfg, a) && Evolve(t, a, b) && PositionInv(cfg, a, th)
    ensures PositionInv(cfg, b, th)
  {
    if Active(th.pc) {
      var ca, cb := a.chains[th.slot], b.chains[th.slot];
      if th.op == FindOrConstruct && !th.pc.LoadPrev? {
        PrefixOfPrefix(ca, cb, th.plen);
      }
      if th.pc.FindWalk? || Decided(th.pc) {
        KeyInStable(cfg, t, a, b, th.slot, 0, th.hlen, th.key);
      }
      if th.pc.FindWalk? {
        PrefixOfPrefix(ca, cb, th.clen);
        KeyInStable(cfg, t, a, b, th.slot, th.clen, th.hlen, th.key);
      }
    }
  }

  lemma ResultStable(t: Tid, a: Shared, b: Shared, th: Thread)
    requires Evolve(t, a, b) && ResultInv(a, th)
    ensures ResultInv(b, th)
  {
    if th.pc.Destroy? || th.pc.Release? {
      HoldsKeyStable(t, a, b, th.cur, th.key);
    } else if th.pc.Returned? && th.res.Found? {
      HoldsKeyStable(t, a, b, th.res.at, th.key);
    } else if th.pc.Returned? && th.res.Constructed? {
      HoldsKeyStable(t, a, b, th.res.slot, th.key);
    }
  }

  /** A step of thread t keeps the invariant of every other thread. */
  lemma ThreadInvStable(cfg: Config, t: Tid, u: Tid, a: Shared, b: Shared, th: Thread)
    requires SharedInv(cfg, a) && u != t && Evolve(t, a, b) && ThreadInv(cfg, u, a, th)
    ensures ThreadInv(cfg, u, b, th)
  {
    OwnerStable(t, u, a, b, th);
    PositionStable(cfg, t, a, b, th);
    ResultStable(t, a, b, th);
  }

  // ---------- writes to one slot ----------

  lemma FreeSlotsInNoChain(cfg: Config, sh: Shared, i: nat)
    requires SharedInv(cfg, sh) && i < |sh.slots| && !LinkedRole(sh.slots[i].role)
    ensures forall h, p :: !InChain(sh, i, h, p)
  {
    forall h, p ensures !InChain(sh, i, h, p) {
      assert InChain(sh, i, h, p) ==> ElemInv(cfg, sh, h, p);
    }
  }

  lemma SlotWriteEvolves(t: Tid, sh: Shared, i: nat, s: Slot)
    requires i < |sh.slots| && SlotEvolve(t, sh.slots[i], s)
    ensures Evolve(t, sh, SetSlot(sh, i, s))
  {
  }

  lemma SlotWriteElem(cfg: Config, sh: Shared, i: nat, s: Slot, h: nat, p: nat)
    requires SharedInv(cfg, sh) && i < |sh.slots| && h < |sh.chains| && p < |sh.chains[h]|
    requires LinkedRole(s.role) <==> LinkedRole(sh.slots[i].role)
    requires LinkedRole(s.role) ==> s.kv == sh.slots[i].kv && s.next == sh.slots[i].next
    ensures ElemInv(cfg, SetSlot(sh, i, s), h, p)
    ensures forall k :: LinkedAt(SetSlot(sh, i, s), h, p, k) <==> LinkedAt(sh, h, p, k)
  {
    assert ElemInv(cfg, sh, h, p);
  }

  /** A write that leaves heads and links alone keeps the shared invariant and the map. */
  lemma SlotWriteShared(cfg: Config, t: Tid, sh: Shared, i: nat, s: Slot)
    requires SharedInv(cfg, sh) && i < |sh.slots|
    requires SlotInv(s, i) && SlotEvolve(t, sh.slots[i], s) && Head(s.word) == Head(sh.slots[i].word)
    requires LinkedRole(s.role) <==> LinkedRole(sh.slots[i].role)
    ensures SharedInv(cfg, SetSlot(sh, i, s)) && Evolve(t, sh, SetSlot(sh, i, s))
    ensures forall k :: Contains(SetSlot(sh, i, s), k) <==> Contains(sh, k)
  {
    var sh' := SetSlot(sh, i, s);
    SlotWriteEvolves(t, sh, i, s);
    forall h, p | 0 <= h < |sh'.chains| && 0 <= p < |sh'.chains[h]| ensures ElemInv(cfg, sh', h, p) {
      SlotWriteElem(cfg, sh, i, s, h, p);
    }
    forall h: nat, p: nat, k ensures LinkedAt(sh', h, p, k) <==> LinkedAt(sh, h, p, k) {
      if h < |sh.chains| && p < |sh.chains[h]| {
        SlotWriteElem(cfg, sh, i, s, h, p);
      }
    }
    forall x: nat, h: nat, p: nat ensures InChain(sh', x, h, p) <==> InChain(sh, x, h, p) {
    }
    forall x | 0 <= x < |sh'.slots| && LinkedRole(sh'.slots[x].role) ensures exists h, p :: InChain(sh', x, h, p) {
      var h, p :| InChain(sh, x, h, p);
      assert InChain(sh', x, h, p);
    }
    SameMap(sh, sh');
  }

  lemma SameMap(a: Shared, b: Shared)
    requires a.chains == b.chains
    requires forall h, p, k :: LinkedAt(b, h, p, k) <==> LinkedAt(a, h, p, k)
    ensures forall k :: Contains(b, k) <==> Contains(a, k)
  {
    forall k ensures Contains(b, k) <==> Contains(a, k) {
      if Contains(a, k) {
        var h, p :| LinkedAt(a, h, p, k);
        assert LinkedAt(b, h, p, k);
      }
    }
  }

  /** The step is a compare-and-swap that links the thread's slot. */
  predicate Links(sh: Shared, th: Thread)
    requires SafeAccess(sh, th)
  {
    th.pc.LinkCas? && sh.slots[th.slot].word == th.prev
  }

  /** The slot a write step other than the linking one replaces. */
  function WrittenSlot(th: Thread): nat {
    if th.pc.AllocCas? then th.cand else if th.pc.LinkCas? then th.slot else th.idx
  }

  /** Slot i may go from a to b without touching heads or links. */
  predicate Fits(t: Tid, i: nat, a: Slot, b: Slot) {
    && SlotInv(b, i) && SlotEvolve(t, a, b) && Head(b.word) == Head(a.word)
    && (LinkedRole(b.role) <==> LinkedRole(a.role))
  }

  lemma AllocFits(t: Tid, i: nat, a: Slot)
    requires SlotInv(a, i) && StateBits(a.word) == EMPTY
    ensures Fits(t, i, a, a.(word := a.word + CONSTRUCTING - EMPTY, role := Owned(t)))
  {
  }

  lemma OwnedFits(t: Tid, i: nat, a: Slot, b: Slot)
    requires SlotInv(a, i) && a.role == Owned(t) && b.word == a.word && (b.role == Owned(t) || b.role == Abandoned)
    ensures Fits(t, i, a, b)
  {
  }

  lemma LinkStateFits(t: Tid, i: nat, a: Slot)
    requires SlotInv(a, i) && a.role == Linking(t)
    ensures Fits(t, i, a, a.(word := a.word + LINKED - CONSTRUCTING, role := Linked))
  {
  }

  lemma ReleaseFits(t: Tid, i: nat, a: Slot, b: Slot)
    requires SlotInv(a, i) && a.role == Owned(t) && a.word >= CONSTRUCTING - EMPTY
    requires b == a.(word := a.word - (CONSTRUCTING - EMPTY), role := Free)
    ensures Fits(t, i, a, b)
  {
  }

  /** A write step that links nothing replaces one slot, or none. */
  lemma SlotStepWrites(t: Tid, sh: Shared, th: Thread, sh': Shared, th': Thread)
    requires OwnerInv(t, sh, th) && SafeAccess(sh, th) && WriteStep(t, sh, th, sh', th') && !Links(sh, th)
    ensures WrittenSlot(th) < |sh.slots| == |sh'.slots|
    ensures SetSlot(sh, WrittenSlot(th), sh'.slots[WrittenSlot(th)]) == sh'
  {
    match th.pc
    case AllocCas => case Construct => case SetNext => case LinkCas =>
    case LinkState => case Destroy => case Release =>
  }

  lemma SlotStepFits(cfg: Config, t: Tid, sh: Shared, th: Thread, sh': Shared, th': Thread)
    requires SharedInv(cfg, sh) && OwnerInv(t, sh, th) && SafeAccess(sh, th)
    requires th.pc.AllocCas? ==> StateBits(th.seen) == EMPTY
    requires WriteStep(t, sh, th, sh', th') && !Links(sh, th)
    requires WrittenSlot(th) < |sh.slots| == |sh'.slots|
    ensures Fits(t, WrittenSlot(th), sh.slots[WrittenSlot(th)], sh'.slots[WrittenSlot(th)])
  {
    var i := WrittenSlot(th);
    var a := sh.slots[i];
    assert SlotInv(a, i);
    if th.pc.AllocCas? && a.word == th.seen {
      AllocFits(t, i, a);
    } else if th.pc.LinkState? {
      LinkStateFits(t, i, a);
    } else if th.pc.Release? {
      ReleaseFits(t, i, a, sh'.slots[i]);
    } else if th.pc.Construct? || th.pc.SetNext? || th.pc.Destroy? {
      OwnedFits(t, i, a, sh'.slots[i]);
    }
  }

  lemma SlotStepShared(cfg: Config, t: Tid, sh: Shared, th: Thread, sh': Shared, th': Thread)
    requires SharedInv(cfg, sh) && ThreadInv(cfg, t, sh, th) && SafeAccess(sh, th)
    requires WriteStep(t, sh, th, sh', th') && !Links(sh, th)
    ensures SharedInv(cfg, sh') && Evolve(t, sh, sh') && forall k :: Contains(sh', k) <==> Contains(sh, k)
  {
    SlotStepWrites(t, sh, th, sh', th');
    SlotStepFits(cfg, t, sh, th, sh', th');
    SlotWriteShared(cfg, t, sh, WrittenSlot(th), sh'.slots[WrittenSlot(th)]);
  }

  // ---------- the linking compare-and-swap ----------

  /** prev's head is the current head, so nothing was linked since prev was read:
      heads never repeat, whatever the state bits of the word went through. */
  lemma PrevIsWhole(cfg: Config, sh: Shared, h: nat, n: nat)
    requires SharedInv(cfg, sh) && h < |sh.chains| && n <= |sh.chains[h]|
    requires Top(sh.chains[h]) == Top(sh.chains[h][..n])
    ensures n == |sh.chains[h]|
  {
    var ch := sh.chains[h];
    if n < |ch| {
      assert ElemInv(cfg, sh, h, |ch| - 1);
      assert InChain(sh, ch[|ch| - 1], h, |ch| - 1);
      if n > 0 {
        assert InChain(sh, ch[n - 1], h, n - 1);
      }
    }
  }

  /** The state after linking slot idx at home slot h. */
  ghost predicate Linked1(t: Tid, sh: Shared, h: nat, idx: nat, sh': Shared) {
    && |sh'.slots| == |sh.slots| == |sh.chains| && h < |sh.slots| && 0 < idx < |sh.slots|
    && sh.slots[idx].role == Owned(t)
    && sh'.chains == sh.chains[h := sh.chains[h] + [idx]]
    && LinkedRole(sh'.slots[idx].role) && (sh'.slots[idx].role.Linking? ==> sh'.slots[idx].role.t == t)
    && Head(sh'.slots[h].word) == idx
    && (forall i :: 0 <= i < |sh.slots| && i != h ==> sh'.slots[i].word == sh.slots[i].word)
    && (forall i :: 0 <= i < |sh.slots| && i != idx ==> sh'.slots[i].role == sh.slots[i].role)
    && (forall i :: 0 <= i < |sh.slots| ==> SlotInv(sh'.slots[i], i))
    && (forall i :: 0 <= i < |sh.slots| ==> sh'.slots[i].kv == sh.slots[i].kv && sh'.slots[i].next == sh.slots[i].next)
  }

  lemma LinkStepShape(cfg: Config, t: Tid, sh: Shared, th: Thread, sh': Shared, th': Thread)
    requires SharedInv(cfg, sh) && ThreadInv(cfg, t, sh, th) && SafeAccess(sh, th)
    requires WriteStep(t, sh, th, sh', th') && Links(sh, th)
    ensures Linked1(t, sh, th.slot, th.idx, sh')
  {
    assert SlotInv(sh.slots[th.slot], th.slot) && SlotInv(sh.slots[th.idx], th.idx);
  }

  lemma LinkOldElem(cfg: Config, t: Tid, sh: Shared, g: nat, idx: nat, sh': Shared, h: nat, p: nat)
    requires SharedInv(cfg, sh) && Linked1(t, sh, g, idx, sh')
    requires h < |sh.chains| && p < |sh.chains[h]|
    ensures h < |sh'.chains| && p < |sh'.chains[h]| && sh'.chains[h][p] == sh.chains[h][p]
    ensures ElemInv(cfg, sh', h, p)
    ensures forall k :: LinkedAt(sh', h, p, k) <==> LinkedAt(sh, h, p, k)
  {
    assert ElemInv(cfg, sh, h, p);
    assert sh'.chains[h][..p] == sh.chains[h][..p];
  }

  lemma LinkNewElem(cfg: Config, t: Tid, sh: Shared, g: nat, idx: nat, sh': Shared, k: int)
    requires SharedInv(cfg, sh) && Linked1(t, sh, g, idx, sh')
    requires sh.slots[idx].kv.Some? && sh.slots[idx].kv.value.0 == k && HomeSlot(cfg, k) == g
    requires sh.slots[idx].next == Top(sh.chains[g])
    ensures |sh'.chains[g]| == |sh.chains[g]| + 1 && sh'.chains[g][|sh.chains[g]|] == idx
    ensures ElemInv(cfg, sh', g, |sh.chains[g]|)
    ensures forall x :: LinkedAt(sh', g, |sh.chains[g]|, x) <==> x == k
  {
    assert sh'.chains[g][..|sh.chains[g]|] == sh.chains[g];
  }

  lemma LinkDistinct(cfg: Config, t: Tid, sh: Shared, g: nat, idx: nat, sh': Shared, i: nat, h: nat, p: nat)
    requires SharedInv(cfg, sh) && Linked1(t, sh, g, idx, sh')
    ensures InChain(sh', i, h, p) <==> InChain(sh, i, h, p) || (i == idx && h == g && p == |sh.chains[g]|)
    ensures !InChain(sh, idx, h, p)
  {
    FreeSlotsInNoChain(cfg, sh, idx);
  }

  /** What linking does to the map: key k is added, nothing else changes. */
  lemma LinkAdds(cfg: Config, t: Tid, sh: Shared, g: nat, idx: nat, sh': Shared, k: int, h: nat, p: nat, x: int)
    requires SharedInv(cfg, sh) && Linked1(t, sh, g, idx, sh')
    requires sh.slots[idx].kv.Some? && sh.slots[idx].kv.value.0 == k && HomeSlot(cfg, k) == g
    requires sh.slots[idx].next == Top(sh.chains[g])
    ensures LinkedAt(sh', h, p, x) <==> LinkedAt(sh, h, p, x) || (h == g && p == |sh.chains[g]| && x == k)
  {
    LinkNewElem(cfg, t, sh, g, idx, sh', k);
    if h < |sh.chains| && p < |sh.chains[h]| {
      LinkOldElem(cfg, t, sh, g, idx, sh', h, p);
    }
  }

  lemma HomeChain(cfg: Config, sh: Shared, h: nat, p: nat, k: int)
    requires SharedInv(cfg, sh) && LinkedAt(sh, h, p, k)
    ensures h == HomeSlot(cfg, k)
  {
    assert ElemInv(cfg, sh, h, p);
  }

  lemma LinkEvolves(cfg: Config, t: Tid, sh: Shared, g: nat, idx: nat, sh': Shared)
    requires SharedInv(cfg, sh) && Linked1(t, sh, g, idx, sh')
    ensures Evolve(t, sh, sh')
  {
  }

  lemma LinkHeads(cfg: Config, t: Tid, sh: Shared, g: nat, idx: nat, sh': Shared)
    requires SharedInv(cfg, sh) && Linked1(t, sh, g, idx, sh')
    ensures forall h :: 0 <= h < |sh'.chains| ==> Head(sh'.slots[h].word) == Top(sh'.chains[h])
  {
  }

  lemma LinkShared(cfg: Config, t: Tid, sh: Shared, g: nat, idx: nat, sh': Shared, k: int)
    requires SharedInv(cfg, sh) && Linked1(t, sh, g, idx, sh')
    requires sh.slots[idx].kv.Some? && sh.slots[idx].kv.value.0 == k && HomeSlot(cfg, k) == g
    requires sh.slots[idx].next == Top(sh.chains[g]) && !Contains(sh, k)
    ensures SharedInv(cfg, sh')
  {
    LinkHeads(cfg, t, sh, g, idx, sh');
    LinkNewElem(cfg, t, sh, g, idx, sh', k);
    forall h, p | 0 <= h < |sh'.chains| && 0 <= p < |sh'.chains[h]| ensures ElemInv(cfg, sh', h, p) {
      if p < |sh.chains[h]| {
        LinkOldElem(cfg, t, sh, g, idx, sh', h, p);
      }
    }
    forall i: nat, h: nat, p: nat
      ensures InChain(sh', i, h, p) <==> InChain(sh, i, h, p) || (i == idx && h == g && p == |sh.chains[g]|)
    {
      LinkDistinct(cfg, t, sh, g, idx, sh', i, h, p);
    }
    FreeSlotsInNoChain(cfg, sh, idx);
    forall h: nat, p: nat, x
      ensures LinkedAt(sh', h, p, x) <==> LinkedAt(sh, h, p, x) || (h == g && p == |sh.chains[g]| && x == k)
    {
      LinkAdds(cfg, t, sh, g, idx, sh', k, h, p, x);
    }
    forall i | 0 <= i < |sh'.slots| && LinkedRole(sh'.slots[i].role) ensures exists h, p :: InChain(sh', i, h, p) {
      if i == idx {
        assert InChain(sh', i, g, |sh.chains[g]|);
      } else {
        var h, p :| InChain(sh, i, h, p);
        assert InChain(sh', i, h, p);
      }
    }
  }

  /** At the linking step the key is absent: the chain searched is the whole chain. */
  lemma LinkAbsent(cfg: Config, t: Tid, sh: Shared, th: Thread)
    requires SharedInv(cfg, sh) && ThreadInv(cfg, t, sh, th) && SafeAccess(sh, th) && Links(sh, th)
    ensures !Contains(sh, th.key)
    ensures sh.slots[th.idx].kv == Some((th.key, th.val)) && sh.slots[th.idx].next == Top(sh.chains[th.slot])
  {
    PrevIsWhole(cfg, sh, th.slot, th.plen);
    forall h: nat, p: nat ensures !LinkedAt(sh, h, p, th.key) {
      if LinkedAt(sh, h, p, th.key) {
        HomeChain(cfg, sh, h, p, th.key);
      }
    }
  }

  lemma WriteStepShared(cfg: Config, t: Tid, sh: Shared, th: Thread, sh': Shared, th': Thread)
    requires SharedInv(cfg, sh) && ThreadInv(cfg, t, sh, th) && SafeAccess(sh, th) && WriteStep(t, sh, th, sh', th')
    ensures SharedInv(cfg, sh') && Evolve(t, sh, sh')
  {
    if Links(sh, th) {
      LinkStepShape(cfg, t, sh, th, sh', th');
      LinkAbsent(cfg, t, sh, th);
      LinkShared(cfg, t, sh, th.slot, th.idx, sh', th.key);
      LinkEvolves(cfg, t, sh, th.slot, th.idx, sh');
    } else {
      SlotStepShared(cfg, t, sh, th, sh', th');
    }
  }

  // ---------- the acting thread ----------

  lemma ContainsIsHome(cfg: Config, sh: Shared, k: int)
    requires SharedInv(cfg, sh)
    ensures Contains(sh, k) <==> KeyIn(sh, HomeSlot(cfg, k), 0, |sh.chains[HomeSlot(cfg, k)]|, k)
  {
    if Contains(sh, k) {
      var h, p :| LinkedAt(sh, h, p, k);
      HomeChain(cfg, sh, h, p, k);
    }
  }

  /** The slot under the cursor of find is element clen - 1 of the home chain. */
  lemma CursorElem(cfg: Config, sh: Shared, th: Thread)
    requires SharedInv(cfg, sh) && PositionInv(cfg, sh, th) && th.pc.FindWalk?
    ensures th.cur == 0 <==> th.clen == 0
    ensures th.clen > 0 ==>
      && InChain(sh, th.cur, th.slot, th.clen - 1)
      && 0 < th.cur < |sh.slots| && LinkedRole(sh.slots[th.cur].role) && sh.slots[th.cur].kv.Some?
      && sh.slots[th.cur].next == Top(sh.chains[th.slot][..th.clen - 1])
      && StateBits(sh.slots[th.cur].word) != EMPTY
  {
    if th.clen > 0 {
      assert ElemInv(cfg, sh, th.slot, th.clen - 1);
      assert SlotInv(sh.slots[th.cur], th.cur);
    }
  }

  lemma WalkOn(cfg: Config, sh: Shared, th: Thread)
    requires SharedInv(cfg, sh) && PositionInv(cfg, sh, th) && th.pc.FindWalk? && th.clen > 0 && th.cur < |sh.slots|
    requires sh.slots[th.cur].kv.Some? && sh.slots[th.cur].kv.value.0 != th.key
    ensures PositionInv(cfg, sh, th.(cur := sh.slots[th.cur].next, clen := th.clen - 1))
  {
    CursorElem(cfg, sh, th);
    forall p | th.clen - 1 <= p < th.hlen ensures !LinkedAt(sh, th.slot, p, th.key) {
      assert p >= th.clen && LinkedAt(sh, th.slot, p, th.key) ==> KeyIn(sh, th.slot, th.clen, th.hlen, th.key);
    }
  }

  lemma WalkStep(cfg: Config, t: Tid, sh: Shared, th: Thread, th': Thread)
    requires SharedInv(cfg, sh) && ThreadInv(cfg, t, sh, th) && SafeAccess(sh, th)
    requires th.pc.FindWalk? && ReadStep(sh, th, th')
    ensures ThreadInv(cfg, t, sh, th')
  {
    CursorElem(cfg, sh, th);
    if th.cur == 0 {
    } else if sh.slots[th.cur].kv.value.0 == th.key {
      assert LinkedAt(sh, th.slot, th.clen - 1, th.key);
      assert HoldsKey(sh, th.cur, th.key);
    } else {
      WalkOn(cfg, sh, th);
    }
  }

  lemma LoadStep(cfg: Config, t: Tid, sh: Shared, th: Thread, th': Thread)
    requires SharedInv(cfg, sh) && ThreadInv(cfg, t, sh, th) && SafeAccess(sh, th) && ReadStep(sh, th, th')
    requires th.pc.LoadPrev? || th.pc.FindHead?
    ensures ThreadInv(cfg, t, sh, th')
  {
    ContainsIsHome(cfg, sh, th.key);
    var ch := sh.chains[th.slot];
    assert ch[..|ch|] == ch;
  }

  lemma ReadStepThread(cfg: Config, t: Tid, sh: Shared, th: Thread, th': Thread)
    requires SharedInv(cfg, sh) && ThreadInv(cfg, t, sh, th) && SafeAccess(sh, th) && ReadStep(sh, th, th')
    ensures ThreadInv(cfg, t, sh, th')
  {
    if th.pc.FindWalk? {
      WalkStep(cfg, t, sh, th, th');
    } else if th.pc.FindHead? || th.pc.LoadPrev? {
      LoadStep(cfg, t, sh, th, th');
    }
  }

  lemma CallStepThread(cfg: Config, t: Tid, sh: Shared, th: Thread, th': Thread)
    requires SharedInv(cfg, sh) && ThreadInv(cfg, t, sh, th) && CallStep(cfg, th, th')
    ensures ThreadInv(cfg, t, sh, th')
  {
  }

  lemma LinkStepOwner(cfg: Config, t: Tid, sh: Shared, th: Thread, sh': Shared, th': Thread)
    requires SharedInv(cfg, sh) && ThreadInv(cfg, t, sh, th) && SafeAccess(sh, th)
    requires WriteStep(t, sh, th, sh', th') && Links(sh, th)
    ensures OwnerInv(t, sh', th')
  {
    assert SlotInv(sh.slots[th.slot], th.slot);
    forall i | 0 <= i < |sh'.slots| && (sh'.slots[i].role == Owned(t) || sh'.slots[i].role == Linking(t))
      ensures i == th.idx && th'.pc.LinkState? && sh'.slots[i].role == Linking(t)
    {
    }
  }

  lemma AllocStepOwner(cfg: Config, t: Tid, sh: Shared, th: Thread, sh': Shared, th': Thread)
    requires SharedInv(cfg, sh) && ThreadInv(cfg, t, sh, th) && SafeAccess(sh, th)
    requires WriteStep(t, sh, th, sh', th') && th.pc.AllocCas?
    ensures OwnerInv(t, sh', th')
  {
    assert SlotInv(sh.slots[th.cand], th.cand);
  }

  lemma NotElsewhere(t: Tid, sh: Shared, th: Thread, s: Slot)
    requires OwnerInv(t, sh, th) && th.idx < |sh.slots|
    ensures forall i :: 0 <= i < |sh.slots| && i != th.idx ==>
              SetSlot(sh, th.idx, s).slots[i].role != Owned(t) && SetSlot(sh, th.idx, s).slots[i].role != Linking(t)
  {
  }

  lemma OwnerFrom(t: Tid, sh: Shared, th: Thread)
    requires th.op == FindOrConstruct && 0 < th.idx < |sh.slots|
    requires forall i :: 0 <= i < |sh.slots| && i != th.idx ==>
               sh.slots[i].role != Owned(t) && sh.slots[i].role != Linking(t)
    requires th.pc.SetNext? || th.pc.LinkCas? || th.pc.Release? || th.pc.Returned?
    requires sh.slots[th.idx].role != Linking(t)
    requires sh.slots[th.idx].role == Owned(t) <==> !th.pc.Returned?
    requires th.pc.SetNext? || th.pc.LinkCas? ==> sh.slots[th.idx].kv == Some((th.key, th.val))
    requires th.pc.LinkCas? ==> sh.slots[th.idx].next == Head(th.prev)
    ensures OwnerInv(t, sh, th)
  {
  }

  lemma SlotStepOwner(cfg: Config, t: Tid, sh: Shared, th: Thread, sh': Shared, th': Thread)
    requires SharedInv(cfg, sh) && ThreadInv(cfg, t, sh, th) && SafeAccess(sh, th)
    requires WriteStep(t, sh, th, sh', th') && !th.pc.AllocCas? && !th.pc.LinkCas?
    ensures OwnerInv(t, sh', th')
  {
    NotElsewhere(t, sh, th, sh'.slots[th.idx]);
    OwnerFrom(t, sh', th');
  }

  lemma WriteStepOwner(cfg: Config, t: Tid, sh: Shared, th: Thread, sh': Shared, th': Thread)
    requires SharedInv(cfg, sh) && ThreadInv(cfg, t, sh, th) && SafeAccess(sh, th) && WriteStep(t, sh, th, sh', th')
    ensures OwnerInv(t, sh', th')
  {
    if th.pc.AllocCas? {
      AllocStepOwner(cfg, t, sh, th, sh', th');
    } else if Links(sh, th) {
      LinkStepOwner(cfg, t, sh, th, sh', th');
    } else if !th.pc.LinkCas? {
      SlotStepOwner(cfg, t, sh, th, sh', th');
    }
  }

  /** A failed compare_exchange rereads prev; the search starts over from there. */
  lemma FailedCasPosition(cfg: Config, sh: Shared, th: Thread, th': Thread)
    requires SharedInv(cfg, sh) && PositionInv(cfg, sh, th) && th.pc.LinkCas?
    requires th' == th.(pc := FindHead, prev := sh.slots[th.slot].word, plen := |sh.chains[th.slot]|)
    ensures PositionInv(cfg, sh, th')
  {
    var ch := sh.chains[th.slot];
    assert ch[..|ch|] == ch;
  }

  lemma MovedPosition(cfg: Config, sh: Shared, th: Thread, th': Thread)
    requires PositionInv(cfg, sh, th) && Active(th.pc)
    requires !th.pc.LoadPrev? && !th.pc.FindHead? && !th.pc.FindWalk?
    requires th' == th.(pc := th'.pc, idx := th'.idx, res := th'.res, tries := th'.tries)
    requires !th'.pc.FindHead? && !th'.pc.FindWalk? && !th'.pc.Idle? && !th'.pc.AllocCas?
    requires Decided(th'.pc) ==> Decided(th.pc)
    ensures PositionInv(cfg, sh, th')
  {
  }

  lemma WriteStepMoves(t: Tid, sh: Shared, th: Thread, sh': Shared, th': Thread)
    requires SafeAccess(sh, th) && WriteStep(t, sh, th, sh', th') && !(th.pc.LinkCas? && !Links(sh, th))
    ensures Active(th.pc) && !th.pc.LoadPrev? && !th.pc.FindHead? && !th.pc.FindWalk?
    ensures th' == th.(pc := th'.pc, idx := th'.idx, res := th'.res, tries := th'.tries)
    ensures !th'.pc.FindHead? && !th'.pc.FindWalk? && !th'.pc.Idle? && !th'.pc.AllocCas?
    ensures Decided(th'.pc) ==> Decided(th.pc)
  {
    match th.pc
    case AllocCas => case Construct => case SetNext => case LinkCas =>
    case LinkState => case Destroy => case Release =>
  }

  lemma WriteStepPosition(cfg: Config, t: Tid, sh: Shared, th: Thread, sh': Shared, th': Thread)
    requires SharedInv(cfg, sh) && PositionInv(cfg, sh, th) && SafeAccess(sh, th) && WriteStep(t, sh, th, sh', th')
    requires Evolve(t, sh, sh')
    ensures PositionInv(cfg, sh', th')
  {
    if th.pc.LinkCas? && !Links(sh, th) {
      FailedCasPosition(cfg, sh, th, th');
    } else {
      PositionStable(cfg, t, sh, sh', th);
      WriteStepMoves(t, sh, th, sh', th');
      MovedPosition(cfg, sh', th, th');
    }
  }

  lemma WriteStepResult(cfg: Config, t: Tid, sh: Shared, th: Thread, sh': Shared, th': Thread)
    requires SharedInv(cfg, sh) && ThreadInv(cfg, t, sh, th) && SafeAccess(sh, th) && WriteStep(t, sh, th, sh', th')
    requires Evolve(t, sh, sh')
    ensures ResultInv(sh', th')
  {
    ResultStable(t, sh, sh', th);
  }

  /** The step of a thread keeps the shared invariant and its own, within what others rely on. */
  lemma ThreadStepKeeps(cfg: Config, t: Tid, sh: Shared, th: Thread, sh': Shared, th': Thread)
    requires SharedInv(cfg, sh) && ThreadInv(cfg, t, sh, th) && ThreadStep(cfg, t, sh, th, sh', th')
    ensures SharedInv(cfg, sh') && ThreadInv(cfg, t, sh', th') && Evolve(t, sh, sh')
  {
    hide SharedInv, OwnerInv, PositionInv, ResultInv, CallStep, ReadStep, WriteStep;
    if sh' == sh && CallStep(cfg, th, th') {
      CallStepThread(cfg, t, sh, th, th');
    } else if sh' == sh && ReadStep(sh, th, th') {
      ReadStepThread(cfg, t, sh, th, th');
    } else {
      WriteStepShared(cfg, t, sh, th, sh', th');
      WriteStepOwner(cfg, t, sh, th, sh', th');
      WriteStepPosition(cfg, t, sh, th, sh', th');
      WriteStepResult(cfg, t, sh, th, sh', th');
    }
  }

  lemma StepKeepsInv(cfg: Config, s: State, t: Tid, s': State)
    requires Inv(cfg, s) && StepBy(cfg, s, t, s')
    ensures Inv(cfg, s') && Evolve(t, s.sh, s'.sh)
  {
    ThreadStepKeeps(cfg, t, s.sh, s.threads[t], s'.sh, s'.threads[t]);
    forall u | 0 <= u < |s'.threads| ensures ThreadInv(cfg, u, s'.sh, s'.threads[u]) {
      if u != t {
        ThreadInvStable(cfg, t, u, s.sh, s'.sh, s.threads[u]);
      }
    }
  }

  lemma InitInv(cfg: Config, s: State)
    requires Init(cfg, s)
    ensures Inv(cfg, s)
  {
  }
}
