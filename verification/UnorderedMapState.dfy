/** AtomicUnorderedInsertMap as a step system: one step per access to shared
    memory. The head of a collision chain and the allocation state of the slot
    that stores it share one word, and change together under compare-and-swap.
    Fields marked "history" record the past for the proofs; no step tests them. */
module UnorderedMapState {

  import opened Common

  const EMPTY: nat := 0
  const CONSTRUCTING: nat := 1
  const LINKED: nat := 2
  const MAX_ALLOCATION_TRIES: nat := 1000

  /** numSlots is at most avail, the quarter of the index range that the constructor
      allows; hash yields the hash value already masked with slotMask_. */
  datatype Config = Config(numSlots: nat, avail: nat, hash: int -> nat)

  ghost predicate ValidConfig(cfg: Config) {
    0 < cfg.numSlots <= cfg.avail
  }

  /** Who has a slot (history). */
  datatype Role = Reserved | Free | Owned(t: Tid) | Linking(t: Tid) | Linked | Abandoned

  datatype Slot = Slot(word: nat, next: nat, kv: Option<(int, int)>, role: Role)

  /** chains[h] (history): the slots linked from home slot h, oldest first. */
  datatype Shared = Shared(slots: seq<Slot>, chains: seq<seq<nat>>)

  datatype Op = FindOrConstruct | Find

  datatype Result = NoResult | Found(at: nat) | NotFound | Constructed(slot: nat) | BadAlloc | FuncThrew

  datatype Pc =
    | Idle | Returned
    | LoadPrev              // slots_[slot].headAndState_.load
    | FindHead | FindWalk   // find(key, slot)
    | AllocLoad | AllocCas  // allocateNear(slot)
    | Construct             // placement new of the key, then func
    | SetNext | LinkCas | LinkState
    | Destroy | Release     // a concurrent insert of the same key won

  /** Registers of one thread. idx is the slot allocated, 0 while there is none.
      plen, hlen, clen (history): how much of the home chain prev, the last head
      load and cur stand for. present (history): was the key in the map at the
      last head load. */
  datatype Thread = Thread(
    pc: Pc, op: Op, key: int, val: int, slot: nat, prev: nat, cur: nat, idx: nat,
    cand: nat, seen: nat, tries: nat, res: Result,
    plen: nat, hlen: nat, clen: nat, present: bool)

  datatype State = State(sh: Shared, threads: seq<Thread>)

  // ---------- the packed word ----------

  function Head(word: nat): nat {
    word / 4
  }

  function StateBits(word: nat): nat {
    word % 4
  }

  /** keyToSlotIdx: masked hash, reduced by repeated subtraction. */
  function Reduce(h: nat, n: nat): (r: nat)
    requires n > 0
    ensures r < n
  {
    if h < n then h else Reduce(h - n, n)
  }

  function HomeSlot(cfg: Config, k: int): (h: nat)
    requires cfg.numSlots > 0
    ensures h < cfg.numSlots
  {
    Reduce(cfg.hash(k), cfg.numSlots)
  }

  lemma MulStep(q: nat, n: nat)
    requires q > 0
    ensures q * n == (q - 1) * n + n && (q - 1) * n >= 0
  {
  }

  /** Reduce is the remainder of the division. */
  lemma {:induction false} ReduceIsRemainder(r: nat, q: nat, n: nat, h: nat)
    requires r < n && h == r + q * n
    ensures Reduce(h, n) == r
  {
    if q > 0 {
      MulStep(q, n);
      ReduceIsRemainder(r, q - 1, n, h - n);
    }
  }

  /** The home slot of a key, with the loop of the source. */
  method KeyToSlotIdx(cfg: Config, k: int) returns (h: nat)
    requires cfg.numSlots > 0
    ensures h == HomeSlot(cfg, k)
  {
    h := cfg.hash(k);
    while h >= cfg.numSlots
      invariant Reduce(h, cfg.numSlots) == HomeSlot(cfg, k)
    {
      h := h - cfg.numSlots;
    }
  }

  // ---------- the abstract map ----------

  ghost predicate LinkedAt(sh: Shared, h: nat, p: nat, k: int) {
    && h < |sh.chains| && p < |sh.chains[h]| && sh.chains[h][p] < |sh.slots|
    && sh.slots[sh.chains[h][p]].kv.Some? && sh.slots[sh.chains[h][p]].kv.value.0 == k
  }

  /** Key k has been inserted. */
  ghost predicate Contains(sh: Shared, k: int) {
    exists h, p :: LinkedAt(sh, h, p, k)
  }

  // ---------- the steps ----------

  function Go(th: Thread, pc: Pc): Thread {
    th.(pc := pc)
  }

  function Return(th: Thread, res: Result): Thread {
    th.(pc := Returned, res := res)
  }

  function SetSlot(sh: Shared, i: nat, s: Slot): Shared
    requires i < |sh.slots|
  {
    sh.(slots := sh.slots[i := s])
  }

  /** The slot index a thread is about to use is in range, and the slot holds a key if it is compared. */
  predicate SafeAccess(sh: Shared, th: Thread) {
    && |sh.chains| == |sh.slots|
    && (th.pc.LoadPrev? || th.pc.FindHead? || th.pc.LinkCas? ==> th.slot < |sh.slots|)
    && (th.pc.FindWalk? && th.cur != 0 ==> th.cur < |sh.slots| && sh.slots[th.cur].kv.Some?)
    && (th.pc.AllocCas? ==> th.cand < |sh.slots|)
    && (UsesIdx(th.pc) ==> th.idx < |sh.slots|)
  }

  predicate UsesIdx(pc: Pc) {
    pc.Construct? || pc.SetNext? || pc.LinkCas? || pc.LinkState? || pc.Destroy? || pc.Release?
  }

  /** find returned slot existing, 0 if none. */
  function FindReturns(th: Thread, existing: nat): Thread {
    if th.op == Find then Return(th, if existing == 0 then NotFound else Found(existing))
    else if existing == 0 then Go(th, if th.idx == 0 then AllocLoad else SetNext)
    else if th.idx == 0 then Return(th, Found(existing))
    else th.(pc := Destroy, cur := existing)
  }

  ghost predicate ReadStep(sh: Shared, th: Thread, th': Thread)
    requires SafeAccess(sh, th)
  {
    match th.pc
    case Returned => th' == Go(th, Idle)
    case LoadPrev =>
      th' == th.(pc := FindHead, prev := sh.slots[th.slot].word, plen := |sh.chains[th.slot]|)
    case FindHead =>
      th' == th.(pc := FindWalk, cur := Head(sh.slots[th.slot].word),
                 hlen := |sh.chains[th.slot]|, clen := |sh.chains[th.slot]|, present := Contains(sh, th.key))
    case FindWalk =>
      th' == (if th.cur == 0 then FindReturns(th, 0)
              else if sh.slots[th.cur].kv.value.0 == th.key then FindReturns(th, th.cur)
              else if th.clen > 0 then th.(cur := sh.slots[th.cur].next, clen := th.clen - 1)
              else th.(cur := sh.slots[th.cur].next))
    case AllocLoad =>
      || (th.tries >= MAX_ALLOCATION_TRIES && th' == Return(th, BadAlloc))
      || (th.tries < MAX_ALLOCATION_TRIES && th'.cand < |sh.slots| && th'.seen == sh.slots[th'.cand].word &&
          th' == th.(cand := th'.cand, seen := th'.seen,
                     pc := if StateBits(th'.seen) == EMPTY then AllocCas else AllocLoad,
                     tries := if StateBits(th'.seen) == EMPTY then th.tries else th.tries + 1))
    case _ => false
  }

  /** compare_exchange of slot i's word; on success the rest of the slot becomes s. */
  ghost predicate WriteStep(t: Tid, sh: Shared, th: Thread, sh': Shared, th': Thread)
    requires SafeAccess(sh, th)
  {
    match th.pc
    case AllocCas =>
      var s := sh.slots[th.cand];
      if s.word == th.seen
      then sh' == SetSlot(sh, th.cand, s.(word := s.word + CONSTRUCTING - EMPTY, role := Owned(t))) &&
           th' == th.(pc := Construct, idx := th.cand)
      else sh' == sh && th' == th.(pc := AllocLoad, tries := th.tries + 1)
    case Construct =>
      var s := sh.slots[th.idx];
      || (sh' == SetSlot(sh, th.idx, s.(kv := Some((th.key, th.val)))) && th' == Go(th, SetNext))
      || (sh' == SetSlot(sh, th.idx, s.(role := Abandoned)) && th' == Return(th, FuncThrew))
    case SetNext =>
      var s := sh.slots[th.idx];
      sh' == SetSlot(sh, th.idx, s.(next := Head(th.prev))) && th' == Go(th, LinkCas)
    case LinkCas =>
      var s := sh.slots[th.slot];
      var after := 4 * th.idx + if th.slot == th.idx then LINKED else StateBits(th.prev);
      if s.word != th.prev
      then sh' == sh && th' == th.(pc := FindHead, prev := s.word, plen := |sh.chains[th.slot]|)
      else if th.slot == th.idx
      then && sh'.slots == sh.slots[th.idx := s.(word := after, role := Linked)]
           && sh'.chains == sh.chains[th.slot := sh.chains[th.slot] + [th.idx]]
           && th' == Return(th, Constructed(th.idx))
      else && sh'.slots == sh.slots[th.slot := s.(word := after)][th.idx := sh.slots[th.idx].(role := Linking(t))]
           && sh'.chains == sh.chains[th.slot := sh.chains[th.slot] + [th.idx]]
           && th' == Go(th, LinkState)
    case LinkState =>
      var s := sh.slots[th.idx];
      sh' == SetSlot(sh, th.idx, s.(word := s.word + LINKED - CONSTRUCTING, role := Linked)) &&
      th' == Return(th, Constructed(th.idx))
    case Destroy =>
      var s := sh.slots[th.idx];
      sh' == SetSlot(sh, th.idx, s.(kv := None)) && th' == Go(th, Release)
    case Release =>
      var s := sh.slots[th.idx];
      s.word >= CONSTRUCTING - EMPTY &&
      sh' == SetSlot(sh, th.idx, s.(word := s.word - (CONSTRUCTING - EMPTY), role := Free)) &&
      th' == Return(th, Found(th.cur))
    case _ => false
  }

  ghost predicate CallStep(cfg: Config, th: Thread, th': Thread)
    requires cfg.numSlots > 0
  {
    && th.pc.Idle?
    && th' == Thread(if th'.op == Find then FindHead else LoadPrev, th'.op, th'.key, th'.val, HomeSlot(cfg, th'.key),
                     0, 0, 0, 0, 0, 0, NoResult, 0, 0, 0, false)
  }

  ghost predicate ThreadStep(cfg: Config, t: Tid, sh: Shared, th: Thread, sh': Shared, th': Thread) {
    && SafeAccess(sh, th) && cfg.numSlots > 0
    && (|| (sh' == sh && CallStep(cfg, th, th'))
        || (sh' == sh && ReadStep(sh, th, th'))
        || WriteStep(t, sh, th, sh', th'))
  }

  ghost predicate StepBy(cfg: Config, s: State, t: Tid, s': State) {
    && t < |s.threads| == |s'.threads|
    && ThreadStep(cfg, t, s.sh, s.threads[t], s'.sh, s'.threads[t])
    && forall u :: 0 <= u < |s.threads| && u != t ==> s'.threads[u] == s.threads[u]
  }

  ghost predicate Next(cfg: Config, s: State, s': State) {
    exists t :: StepBy(cfg, s, t, s')
  }

  /** Zero-filled slots, slot 0 marked CONSTRUCTING so that it is never allocated. */
  ghost predicate Init(cfg: Config, s: State) {
    && ValidConfig(cfg)
    && |s.sh.slots| == |s.sh.chains| == cfg.numSlots
    && (forall i :: 0 <= i < cfg.numSlots ==> s.sh.chains[i] == [])
    && s.sh.slots[0] == Slot(CONSTRUCTING, 0, None, Reserved)
    && (forall i :: 1 <= i < cfg.numSlots ==> s.sh.slots[i] == Slot(0, 0, None, Free))
    && (forall t :: 0 <= t < |s.threads| ==> s.threads[t].pc.Idle? && s.threads[t].idx == 0)
  }

  ghost predicate StepAt(cfg: Config, r: seq<State>, i: nat) {
    i + 1 < |r| ==> Next(cfg, r[i], r[i + 1])
  }

  /** A run: any number of threads, steps interleaved in any order. */
  ghost predicate Run(cfg: Config, r: seq<State>) {
    |r| > 0 && Init(cfg, r[0]) && forall i :: StepAt(cfg, r, i)
  }
}
