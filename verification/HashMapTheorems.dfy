/** What AtomicHashMap promises, for every run of any number of threads. */
module HashMapTheorems {

  import opened Common
  import opened HashProbing
  import opened HashMapState
  import opened HashMapInvariant
  import opened HashMapProof

  lemma StepAtKeepsInv(cfg: Config, r: seq<State>, i: nat) returns (t: Tid)
    requires StepAt(cfg, r, i) && i + 1 < |r| && Inv(cfg, r[i])
    ensures StepBy(cfg, r[i], t, r[i + 1]) && Evolve(t, r[i].sh, r[i + 1].sh) && Inv(cfg, r[i + 1])
  {
    t :| StepBy(cfg, r[i], t, r[i + 1]);
    StepKeepsInv(cfg, r[i], t, r[i + 1]);
  }

  lemma {:induction false} RunKeepsInv(cfg: Config, r: seq<State>, i: nat)
    requires Run(cfg, r) && i < |r|
    ensures Inv(cfg, r[i])
  {
    if i == 0 {
      InitInv(cfg, r[0]);
    } else {
      RunKeepsInv(cfg, r, i - 1);
      var t := StepAtKeepsInv(cfg, r, i - 1);
    }
  }

  /** The thread that makes step i, with what its step did to shared memory. */
  lemma RunStep(cfg: Config, r: seq<State>, i: nat) returns (t: Tid)
    requires Run(cfg, r) && i + 1 < |r|
    ensures StepBy(cfg, r[i], t, r[i + 1]) && Evolve(t, r[i].sh, r[i + 1].sh)
    ensures Inv(cfg, r[i]) && Inv(cfg, r[i + 1])
  {
    RunKeepsInv(cfg, r, i);
    t := StepAtKeepsInv(cfg, r, i);
  }

  /** A key lives in at most one cell over all sub-maps. */
  lemma AtMostOneLiveCell(cfg: Config, r: seq<State>, i: nat, k: int, x: Loc, y: Loc)
    requires Run(cfg, r) && i < |r|
    requires LiveAt(r[i].sh, k, x) && LiveAt(r[i].sh, k, y)
    ensures x == y
  {
    RunKeepsInv(cfg, r, i);
    OneCellPerKey(cfg, r[i].sh, k, x, y);
  }

  /** Every pointer and index a thread is about to use is valid: no sub-map is
      read before it is published, no cell index is out of range. */
  lemma AccessesAreSafe(cfg: Config, r: seq<State>, i: nat, t: Tid)
    requires Run(cfg, r) && i < |r| && t < |r[i].threads|
    ensures SafeAccess(r[i].sh, r[i].threads[t])
  {
    RunKeepsInv(cfg, r, i);
    var sh, th := r[i].sh, r[i].threads[t];
    assert ThreadInv(cfg, t, sh, th);
    SafeFromInv(cfg, t, sh, th);
  }

  lemma SafeFromInv(cfg: Config, t: Tid, sh: Shared, th: Thread)
    requires InsertInv(cfg, t, sh, th) && FindInv(cfg, sh, th) && EraseInv(cfg, sh, th)
    ensures SafeAccess(sh, th)
  {
    if Searching(th.pc) {
      assert SearchInv(cfg, t, SubAt(sh, th.i), th);
    }
  }

  /** Sub-maps are published in order, and each index is allocated by one thread. */
  lemma SubMapPublication(cfg: Config, r: seq<State>, i: nat, t: Tid, u: Tid)
    requires Run(cfg, r) && i < |r| && t < |r[i].threads| && u < |r[i].threads|
    ensures var sh := r[i].sh;
            && 1 <= sh.num <= MAX_SUBMAPS == |sh.table|
            && (forall j :: 0 <= j < sh.num ==> HasSub(sh, j))
            && (forall j :: sh.num < j < MAX_SUBMAPS ==> sh.table[j] == Null)
    ensures var a, b := r[i].threads[t], r[i].threads[u];
            (a.pc.MStoreMap? || a.pc.MPublish?) && (b.pc.MStoreMap? || b.pc.MPublish?) ==> t == u
    ensures var a := r[i].threads[t];
            && (a.pc.MStoreMap? ==> a.next == r[i].sh.num < MAX_SUBMAPS && r[i].sh.table[a.next] == LockedPtr)
            && (a.pc.MPublish? ==> a.next == r[i].sh.num && HasSub(r[i].sh, a.next))
  {
    RunKeepsInv(cfg, r, i);
    assert ThreadInv(cfg, t, r[i].sh, r[i].threads[t]) && ThreadInv(cfg, u, r[i].sh, r[i].threads[u]);
  }

  /** An insert works on a sub-map only when all earlier ones are full for its key,
      and none of those holds the key now. */
  lemma InsertReachesOnlyAfterFull(cfg: Config, r: seq<State>, i: nat, t: Tid, j: nat, at: Loc)
    requires Run(cfg, r) && i < |r| && t < |r[i].threads|
    requires Searching(r[i].threads[t].pc) && j < r[i].threads[t].i && at.map_ == j
    ensures HasSub(r[i].sh, j) && FullFor(cfg, SubAt(r[i].sh, j), r[i].threads[t].key)
    ensures !LiveAt(r[i].sh, r[i].threads[t].key, at)
  {
    RunKeepsInv(cfg, r, i);
    var sh, th := r[i].sh, r[i].threads[t];
    assert ThreadInv(cfg, t, sh, th) && FullBefore(cfg, sh, th.key, th.i);
    if LiveAt(sh, th.key, at) {
      assert CellInv(cfg, sh, j, at.cell, th.key);
      FullExcludes(cfg, SubAt(sh, j), th.key, at.cell);
    }
  }

  // ---------- what later states of a run keep ----------

  /** A cell of a later state: settled cells can only be erased. */
  predicate CellLater(a: Cell, b: Cell) {
    && (a.Live? ==> b == a || b == Erased)
    && (a.Erased? ==> b == a)
  }

  ghost predicate SubLater(a: Sub, b: Sub) {
    && |a.cells| == |b.cells| == |a.vals| == |b.vals|
    && (forall c :: 0 <= c < |a.cells| ==> CellLater(a.cells[c], b.cells[c]))
    && (forall c :: 0 <= c < |a.cells| && (a.cells[c].Live? || a.cells[c].Erased?) ==> b.vals[c] == a.vals[c])
    && (a.isFull != 0 ==> b.isFull != 0)
    && (Frozen(a) ==> Frozen(b) && forall c :: 0 <= c < |a.cells| && a.cells[c] == Empty ==> b.cells[c] == Empty)
  }

  ghost predicate Later(a: Shared, b: Shared) {
    forall i :: HasSub(a, i) ==> HasSub(b, i) && SubLater(SubAt(a, i), SubAt(b, i))
  }

  lemma SubEvolveLater(t: Tid, a: Sub, b: Sub)
    requires SubEvolve(t, a, b)
    ensures SubLater(a, b)
  {
    forall c | 0 <= c < |a.cells| ensures CellLater(a.cells[c], b.cells[c]) {
      assert CellEvolve(t, a.cells[c], b.cells[c]);
    }
  }

  lemma EvolveLater(t: Tid, a: Shared, b: Shared)
    requires Evolve(t, a, b)
    ensures Later(a, b)
  {
    forall i | HasSub(a, i) ensures SubLater(SubAt(a, i), SubAt(b, i)) {
      SubEvolveLater(t, SubAt(a, i), SubAt(b, i));
    }
  }

  lemma SubLaterTransitive(a: Sub, b: Sub, c: Sub)
    requires SubLater(a, b) && SubLater(b, c)
    ensures SubLater(a, c)
  {
    forall x | 0 <= x < |a.cells| ensures CellLater(a.cells[x], c.cells[x]) {
      assert CellLater(a.cells[x], b.cells[x]) && CellLater(b.cells[x], c.cells[x]);
    }
  }

  lemma LaterTransitive(a: Shared, b: Shared, c: Shared)
    requires Later(a, b) && Later(b, c)
    ensures Later(a, c)
  {
    forall i | HasSub(a, i) ensures SubLater(SubAt(a, i), SubAt(c, i)) {
      SubLaterTransitive(SubAt(a, i), SubAt(b, i), SubAt(c, i));
    }
  }

  lemma LaterRefl(cfg: Config, sh: Shared)
    requires SharedInv(cfg, sh)
    ensures Later(sh, sh)
  {
  }

  lemma OneStepLater(cfg: Config, r: seq<State>, i: nat)
    requires Run(cfg, r) && i + 1 < |r|
    ensures Later(r[i].sh, r[i + 1].sh)
  {
    var t := RunStep(cfg, r, i);
    EvolveLater(t, r[i].sh, r[i + 1].sh);
  }

  lemma {:induction false} RunLater(cfg: Config, r: seq<State>, i: nat, j: nat)
    requires Run(cfg, r) && i <= j < |r|
    ensures Later(r[i].sh, r[j].sh)
    decreases j - i
  {
    if i == j {
      RunKeepsInv(cfg, r, i);
      LaterRefl(cfg, r[i].sh);
    } else {
      RunLater(cfg, r, i, j - 1);
      OneStepLater(cfg, r, j - 1);
      LaterTransitive(r[i].sh, r[j - 1].sh, r[j].sh);
    }
  }

  /** "Full for this key" is permanent: no later cell of the array holds it. */
  lemma FullStaysFull(cfg: Config, r: seq<State>, i: nat, j: nat, m: nat, k: int, c: nat)
    requires Run(cfg, r) && i <= j < |r|
    requires HasSub(r[i].sh, m) && FullFor(cfg, SubAt(r[i].sh, m), k)
    ensures HasSub(r[j].sh, m) && FullFor(cfg, SubAt(r[j].sh, m), k)
    ensures !LiveAt(r[j].sh, k, Loc(m, c))
  {
    RunLater(cfg, r, i, j);
    FullLater(cfg, SubAt(r[i].sh, m), SubAt(r[j].sh, m), k);
    RunKeepsInv(cfg, r, j);
    if LiveAt(r[j].sh, k, Loc(m, c)) {
      assert CellInv(cfg, r[j].sh, m, c, k);
      FullExcludes(cfg, SubAt(r[j].sh, m), k, c);
    }
  }

  lemma FullLater(cfg: Config, a: Sub, b: Sub, k: int)
    requires SubLater(a, b) && FullFor(cfg, a, k)
    ensures FullFor(cfg, b, k)
  {
    var n :| FullAt(cfg, a, k, n);
    assert forall c :: 0 <= c < |a.cells| && SettledNot(a.cells[c], k) ==> CellLater(a.cells[c], b.cells[c]);
    assert FullAt(cfg, b, k, n);
  }

  /** An insert that gives up on an array after probing all its capacity has looked at
      settled cells only. */
  ghost predicate SettledWhenGivenUp(cfg: Config, cap: nat, k: int) {
    forall sub: Sub, c: nat ::
      |sub.cells| == cap && FullAt(cfg, sub, k, cap) && c < cap ==> SettledNot(sub.cells[c], k)
  }

  lemma CoveredIsSettled(cfg: Config, cap: nat, k: int)
    requires Covers(cfg, cap, k)
    ensures SettledWhenGivenUp(cfg, cap, k)
  {
    forall sub: Sub, c: nat | |sub.cells| == cap && FullAt(cfg, sub, k, cap) && c < cap
      ensures SettledNot(sub.cells[c], k)
    {
      assert Tries(cfg, cap, k, c);
      var n :| 0 <= n < cap && ProbeAt(cfg, cap, k, n) == c;
    }
  }

  lemma UncoveredIsNot(cfg: Config, cap: nat, k: int)
    requires !Covers(cfg, cap, k)
    ensures !SettledWhenGivenUp(cfg, cap, k)
  {
    var c: nat :| c < cap && !Tries(cfg, cap, k, c);
    var cells := seq(cap, i => if i == c then Empty else Erased);
    var sub := Sub(cells, seq(cap, i => None), 0, 0, 0, 0, {}, {});
    assert FullAt(cfg, sub, k, cap) && !SettledNot(sub.cells[c], k);
  }

  /** Giving up on an array means every cell of it is settled, whatever the array holds,
      exactly when probing is linear or the capacity is a power of two. */
  lemma GivingUpMeansSettled(cfg: Config, cap: nat, k: int)
    requires cap > 0
    ensures SettledWhenGivenUp(cfg, cap, k) <==> cfg.kind.Linear? || IsPow2(cap)
  {
    CoversIffPow2(cfg, cap, k);
    if Covers(cfg, cap, k) {
      CoveredIsSettled(cfg, cap, k);
    } else {
      UncoveredIsNot(cfg, cap, k);
    }
  }

  /** An insert that has been through the wait on isFull, and is about to look at
      its cell again. */
  ghost predicate SawFull(s: State, t: Tid, m: nat) {
    t < |s.threads| && s.threads[t].pc.IRecheck? && s.threads[t].i == m
  }

  /** Freeze: once some insert has waited for isFull, no empty cell of that array
      is ever occupied again, and isFull never returns to zero. */
  lemma FreezeIsPermanent(cfg: Config, r: seq<State>, i: nat, j: nat, t: Tid, m: nat, c: nat)
    requires Run(cfg, r) && i <= j < |r| && SawFull(r[i], t, m)
    ensures HasSub(r[i].sh, m) && HasSub(r[j].sh, m)
    ensures SubAt(r[j].sh, m).isFull != 0 && |SubAt(r[j].sh, m).cells| == |SubAt(r[i].sh, m).cells|
    ensures c < |SubAt(r[i].sh, m).cells| && SubAt(r[i].sh, m).cells[c] == Empty ==>
              SubAt(r[j].sh, m).cells[c] == Empty
  {
    RunKeepsInv(cfg, r, i);
    assert ThreadInv(cfg, t, r[i].sh, r[i].threads[t]);
    RunLater(cfg, r, i, j);
  }

  /** isFull never returns to zero, from whatever moment it is not zero. */
  lemma FullFlagNeverCleared(cfg: Config, r: seq<State>, i: nat, j: nat, m: nat)
    requires Run(cfg, r) && i <= j < |r| && HasSub(r[i].sh, m) && SubAt(r[i].sh, m).isFull != 0
    ensures HasSub(r[j].sh, m) && SubAt(r[j].sh, m).isFull != 0
  {
    RunLater(cfg, r, i, j);
  }

  /** The value of a live or erased cell was constructed, and never changes. */
  lemma ValuesNeverChange(cfg: Config, r: seq<State>, i: nat, j: nat, at: Loc)
    requires Run(cfg, r) && i <= j < |r|
    requires HasSub(r[i].sh, at.map_) && at.cell < |SubAt(r[i].sh, at.map_).cells|
    requires SubAt(r[i].sh, at.map_).cells[at.cell].Live? || SubAt(r[i].sh, at.map_).cells[at.cell].Erased?
    ensures HasSub(r[j].sh, at.map_)
    ensures at.cell < |SubAt(r[i].sh, at.map_).vals| == |SubAt(r[j].sh, at.map_).vals|
    ensures SubAt(r[i].sh, at.map_).vals[at.cell].Some?
    ensures SubAt(r[j].sh, at.map_).vals[at.cell] == SubAt(r[i].sh, at.map_).vals[at.cell]
  {
    RunKeepsInv(cfg, r, i);
    assert SubInv(SubAt(r[i].sh, at.map_));
    RunLater(cfg, r, i, j);
  }

  // ---------- linearizability as a set of keys ----------

  /** The step of thread t publishes its key. */
  predicate Adds(th: Thread) {
    th.pc.IUnlock?
  }

  /** The step of thread t erases its key. */
  ghost predicate Removes(sh: Shared, th: Thread) {
    th.pc.ECas? && LiveAt(sh, th.key, Loc(th.i, th.idx))
  }

  lemma SubStepLive(cfg: Config, t: Tid, sub: Sub, th: Thread, sub': Sub, th': Thread, c: nat, k: int)
    requires SubPre(t, sub, th) && SubStep(cfg, t, sub, th, sub', th') && c < |sub.cells|
    ensures |sub'.cells| == |sub.cells|
    ensures th.pc.IUnlock? && c == th.idx ==> sub'.cells[c] == Live(th.key)
    ensures th.pc.ECas? && c == th.idx ==> sub'.cells[c] != Live(th.key) || sub'.cells[c] == sub.cells[c]
    ensures th.pc.ECas? && c == th.idx && sub.cells[c] == Live(th.key) ==> sub'.cells[c] == Erased
    ensures !((th.pc.IUnlock? || th.pc.ECas?) && c == th.idx)
            ==> (sub'.cells[c] == Live(k) <==> sub.cells[c] == Live(k))
  {
    match th.pc
    case IUnlock => case ECas => case ITryLock => case IThrowUnlock =>
    case _ =>
  }

  /** After a step of thread t, key k is live in cell at. */
  ghost predicate LiveAfter(sh: Shared, th: Thread, k: int, at: Loc) {
    || (Adds(th) && k == th.key && at == Loc(th.i, th.idx))
    || (LiveAt(sh, k, at) && !(Removes(sh, th) && k == th.key && at == Loc(th.i, th.idx)))
  }

  lemma SubWriteLive(cfg: Config, t: Tid, sh: Shared, th: Thread, sub': Sub, th': Thread, k: int, at: Loc)
    requires SharedInv(cfg, sh) && ThreadInv(cfg, t, sh, th) && UsesSub(th.pc) && SafeAccess(sh, th)
    requires SubStep(cfg, t, SubAt(sh, th.i), th, sub', th')
    ensures LiveAt(PutSub(sh, th.i, sub'), k, at) <==> LiveAfter(sh, th, k, at)
  {
    PreFromInv(cfg, t, sh, th);
    if at.map_ == th.i {
      CellWriteLive(cfg, t, SubAt(sh, th.i), th, sub', th', k, at.cell);
    }
  }

  /** The same for the cells of one array. */
  lemma CellWriteLive(cfg: Config, t: Tid, sub: Sub, th: Thread, sub': Sub, th': Thread, k: int, c: nat)
    requires SubPre(t, sub, th) && SubStep(cfg, t, sub, th, sub', th')
    ensures |sub'.cells| == |sub.cells|
    ensures c < |sub.cells| ==>
      (sub'.cells[c] == Live(k) <==>
        || (th.pc.IUnlock? && k == th.key && c == th.idx)
        || (sub.cells[c] == Live(k) && !(th.pc.ECas? && k == th.key && c == th.idx)))
    ensures th.pc.IUnlock? ==> th.idx < |sub.cells|
  {
    if c < |sub.cells| {
      SubStepLive(cfg, t, sub, th, sub', th', c, k);
    }
    match th.pc
    case IUnlock => case ECas => case ITryLock => case IThrowUnlock =>
    case _ =>
  }

  lemma TableWriteLive(cfg: Config, t: Tid, sh: Shared, th: Thread, sh': Shared, th': Thread, k: int, at: Loc)
    requires SharedInv(cfg, sh) && ThreadInv(cfg, t, sh, th) && TableStep(cfg, t, sh, th, sh', th')
    ensures LiveAt(sh', k, at) <==> LiveAfter(sh, th, k, at)
  {
    TableStepTable(cfg, t, sh, th, sh', th');
  }

  lemma ReadLive(cfg: Config, sh: Shared, th: Thread, th': Thread)
    requires SafeAccess(sh, th) && (ReadStep(cfg, sh, th, th') || CallStep(sh, th, th'))
    ensures !Adds(th) && !Removes(sh, th)
  {
  }

  /** How one step changes where keys are live. */
  lemma StepLive(cfg: Config, s: State, t: Tid, s': State, k: int, at: Loc)
    requires Inv(cfg, s) && StepBy(cfg, s, t, s')
    ensures LiveAt(s'.sh, k, at) <==> LiveAfter(s.sh, s.threads[t], k, at)
  {
    ThreadLive(cfg, t, s.sh, s.threads[t], s'.sh, s'.threads[t], k, at);
  }

  lemma ThreadLive(cfg: Config, t: Tid, sh: Shared, th: Thread, sh': Shared, th': Thread, k: int, at: Loc)
    requires SharedInv(cfg, sh) && ThreadInv(cfg, t, sh, th) && ThreadStep(cfg, t, sh, th, sh', th')
    ensures LiveAt(sh', k, at) <==> LiveAfter(sh, th, k, at)
  {
    if sh' == sh && (CallStep(sh, th, th') || ReadStep(cfg, sh, th, th')) {
      ReadLive(cfg, sh, th, th');
    } else if TableStep(cfg, t, sh, th, sh', th') {
      TableWriteLive(cfg, t, sh, th, sh', th', k, at);
    } else {
      var sub' :| SubStep(cfg, t, SubAt(sh, th.i), th, sub', th') && sh' == PutSub(sh, th.i, sub');
      SubWriteLive(cfg, t, sh, th, sub', th', k, at);
    }
  }

  lemma StepEffect(cfg: Config, s: State, t: Tid, s': State, k: int)
    requires Inv(cfg, s) && StepBy(cfg, s, t, s')
    ensures var th := s.threads[t];
            && (Adds(th) ==> !Contains(s.sh, th.key))
            && (Removes(s.sh, th) ==> Contains(s.sh, th.key))
            && (Contains(s'.sh, k) <==>
                  (Adds(th) && k == th.key) || (Contains(s.sh, k) && !(Removes(s.sh, th) && k == th.key)))
  {
    var sh, th, sh' := s.sh, s.threads[t], s'.sh;
    assert ThreadInv(cfg, t, sh, th);
    var here := Loc(th.i, th.idx);
    if Adds(th) {
      AddsAbsent(cfg, t, sh, th);
      StepLive(cfg, s, t, s', k, here);
    }
    if Contains(sh', k) {
      var at :| LiveAt(sh', k, at);
      StepLive(cfg, s, t, s', k, at);
      if Removes(sh, th) && k == th.key {
        OneCellPerKey(cfg, sh, k, at, here);
      }
    }
    if Contains(sh, k) {
      var at :| LiveAt(sh, k, at);
      StepLive(cfg, s, t, s', k, at);
    }
  }

  lemma AddsAbsent(cfg: Config, t: Tid, sh: Shared, th: Thread)
    requires SharedInv(cfg, sh) && ThreadInv(cfg, t, sh, th) && Adds(th)
    ensures !Contains(sh, th.key)
  {
    if Contains(sh, th.key) {
      var at :| LiveAt(sh, th.key, at);
      OneCellPerKey(cfg, sh, th.key, at, Loc(th.i, th.idx));
    }
  }

  /** Only two steps change the set of keys: an unlock adds a key that was absent,
      a successful erase CAS removes one that was present. */
  lemma KeySetChanges(cfg: Config, r: seq<State>, i: nat, k: int) returns (t: Tid)
    requires Run(cfg, r) && i + 1 < |r|
    ensures StepBy(cfg, r[i], t, r[i + 1])
    ensures var sh, th := r[i].sh, r[i].threads[t];
            && (Adds(th) ==> !Contains(sh, th.key))
            && (Removes(sh, th) ==> Contains(sh, th.key))
            && (Contains(r[i + 1].sh, k) <==>
                  (Adds(th) && k == th.key) || (Contains(sh, k) && !(Removes(sh, th) && k == th.key)))
            && r[i + 1].threads[t].effects ==
                 (if th.pc.Idle? then 0 else th.effects + if Adds(th) || Removes(sh, th) then 1 else 0)
  {
    t := RunStep(cfg, r, i);
    StepEffect(cfg, r[i], t, r[i + 1], k);
    EffectsCountChanges(cfg, r[i], t, r[i + 1]);
  }

  /** Returning: what the result says about the map at that step, and how often
      the call changed the map. */
  lemma ReturnsAreTruthful(cfg: Config, r: seq<State>, i: nat, t: Tid)
    requires Run(cfg, r) && i + 1 < |r| && t < |r[i].threads| == |r[i + 1].threads|
    requires !r[i].threads[t].pc.Returned? && r[i + 1].threads[t].pc.Returned?
    ensures var sh, sh', th' := r[i].sh, r[i + 1].sh, r[i + 1].threads[t];
            && (th'.res == Hit || th'.res == Exists ==> LiveAt(sh, th'.key, Loc(th'.i, th'.idx)))
            && (th'.res == Inserted ==> HasSub(sh', th'.i) && WasHere(SubAt(sh', th'.i), th'))
            && (th'.res == Inserted ==> th'.idx < |SubAt(sh', th'.i).vals| &&
                                        SubAt(sh', th'.i).vals[th'.idx] == Some(th'.val))
            && th'.effects == (if th'.res == Inserted || th'.res == ErasedOne then 1 else 0)
  {
    var u := RunStep(cfg, r, i);
    assert u == t;
    ReturnStep(cfg, r[i], t, r[i + 1]);
  }

  lemma ReturnStep(cfg: Config, s: State, t: Tid, s': State)
    requires Inv(cfg, s) && StepBy(cfg, s, t, s')
    requires !s.threads[t].pc.Returned? && s'.threads[t].pc.Returned?
    ensures var th' := s'.threads[t];
            && ((th'.res == Hit || th'.res == Exists) ==> LiveAt(s.sh, th'.key, Loc(th'.i, th'.idx)))
            && (th'.res == Inserted ==> HasSub(s'.sh, th'.i) && WasHere(SubAt(s'.sh, th'.i), th'))
            && (th'.res == Inserted ==> th'.idx < |SubAt(s'.sh, th'.i).vals| &&
                                        SubAt(s'.sh, th'.i).vals[th'.idx] == Some(th'.val))
            && th'.effects == (if th'.res == Inserted || th'.res == ErasedOne then 1 else 0)
  {
    StepKeepsInv(cfg, s, t, s');
    assert ThreadInv(cfg, t, s'.sh, s'.threads[t]);
    assert ThreadInv(cfg, t, s.sh, s.threads[t]);
    ReturnRead(cfg, t, s.sh, s.threads[t], s'.sh, s'.threads[t]);
  }

  lemma ReturnRead(cfg: Config, t: Tid, sh: Shared, th: Thread, sh': Shared, th': Thread)
    requires ThreadStep(cfg, t, sh, th, sh', th') && !th.pc.Returned? && th'.pc.Returned?
    ensures (th'.res == Hit || th'.res == Exists) ==> LiveAt(sh, th'.key, Loc(th'.i, th'.idx))
  {
    if ReadStep(cfg, sh, th, th') {
      match th.pc
      case FProbe => case FEnter => case FLoadNum =>
      case EProbe => case EEnter => case ELoadNum =>
      case ICompare => case IRecheck =>
      case _ =>
    } else if TableStep(cfg, t, sh, th, sh', th') {
    } else if !CallStep(sh, th, th') {
      var sub' :| SubStep(cfg, t, SubAt(sh, th.i), th, sub', th') && sh' == PutSub(sh, th.i, sub');
      SubStepKindReturns(cfg, t, SubAt(sh, th.i), th, sub', th');
    }
  }

  lemma SubStepKindReturns(cfg: Config, t: Tid, sub: Sub, th: Thread, sub': Sub, th': Thread)
    requires UsesCell(th.pc) ==> th.idx < |sub.cells|
    requires SubStep(cfg, t, sub, th, sub', th') && th'.pc.Returned?
    ensures th'.res != Hit && th'.res != Exists
  {
  }

  lemma EffectsCountChanges(cfg: Config, s: State, t: Tid, s': State)
    requires Inv(cfg, s) && StepBy(cfg, s, t, s')
    ensures var th, th' := s.threads[t], s'.threads[t];
            th'.effects == (if th.pc.Idle? then 0
                            else th.effects + if Adds(th) || Removes(s.sh, th) then 1 else 0)
  {
    ThreadEffects(cfg, t, s.sh, s.threads[t], s'.sh, s'.threads[t]);
  }

  lemma ReadKeepsEffects(cfg: Config, sh: Shared, th: Thread, th': Thread)
    requires SafeAccess(sh, th) && ReadStep(cfg, sh, th, th')
    ensures th'.effects == th.effects && !th.pc.Idle?
  {
    match th.pc
    case FProbe => case FEnter => case FLoadNum =>
    case EProbe => case EEnter => case ELoadNum =>
    case ICompare => case IRecheck =>
    case _ =>
  }

  lemma ThreadEffects(cfg: Config, t: Tid, sh: Shared, th: Thread, sh': Shared, th': Thread)
    requires ThreadStep(cfg, t, sh, th, sh', th')
    ensures th'.effects == (if th.pc.Idle? then 0
                            else th.effects + if Adds(th) || Removes(sh, th) then 1 else 0)
  {
    if sh' == sh && CallStep(sh, th, th') {
    } else if sh' == sh && ReadStep(cfg, sh, th, th') {
      ReadLive(cfg, sh, th, th');
      ReadKeepsEffects(cfg, sh, th, th');
    } else if TableStep(cfg, t, sh, th, sh', th') {
    } else {
      var sub' :| SubStep(cfg, t, SubAt(sh, th.i), th, sub', th') && sh' == PutSub(sh, th.i, sub');
      SubStepCounts(cfg, t, SubAt(sh, th.i), th, sub', th');
    }
  }

  lemma SubStepCounts(cfg: Config, t: Tid, sub: Sub, th: Thread, sub': Sub, th': Thread)
    requires UsesCell(th.pc) ==> th.idx < |sub.cells|
    requires SubStep(cfg, t, sub, th, sub', th')
    ensures !th.pc.Idle?
    ensures th'.effects == th.effects +
              if th.pc.IUnlock? || (th.pc.ECas? && sub.cells[th.idx] == Live(th.key)) then 1 else 0
  {
  }

  // ---------- a miss is true at some moment of the call ----------

  /** Thread t begins a call for key k at step a and is still in it at state b. */
  ghost predicate InCall(r: seq<State>, t: Tid, k: int, a: nat, b: nat) {
    && a < b < |r| && t < |r[a].threads| == |r[a + 1].threads|
    && r[a + 1].sh == r[a].sh && CallStep(r[a].sh, r[a].threads[t], r[a + 1].threads[t])
    && r[a + 1].threads[t].key == k
    && forall i :: a < i < b ==> t < |r[i].threads| && (!r[i].threads[t].pc.Idle? && !r[i].threads[t].pc.Returned?)
  }

  lemma {:induction false} CallKeepsHeld(cfg: Config, r: seq<State>, t: Tid, k: int, a: nat, b: nat)
    requires Run(cfg, r) && InCall(r, t, k, a, b)
    ensures t < |r[b].threads|
    ensures r[b].threads[t].key == k && r[b].threads[t].held == r[a + 1].threads[t].held
    decreases b
  {
    if b > a + 1 {
      CallKeepsHeld(cfg, r, t, k, a, b - 1);
      RunStepKeepsCall(cfg, r, t, b - 1);
    }
  }

  lemma RunStepKeepsCall(cfg: Config, r: seq<State>, t: Tid, i: nat)
    requires Run(cfg, r) && i + 1 < |r| && t < |r[i].threads| && !r[i].threads[t].pc.Idle?
    ensures t < |r[i + 1].threads|
    ensures r[i + 1].threads[t].key == r[i].threads[t].key && r[i + 1].threads[t].held == r[i].threads[t].held
  {
    assert StepAt(cfg, r, i);
    var u :| StepBy(cfg, r[i], u, r[i + 1]);
    if u == t {
      StepKeepsCall(cfg, t, r[i].sh, r[i].threads[t], r[i + 1].sh, r[i + 1].threads[t]);
    }
  }

  lemma StepKeepsCall(cfg: Config, t: Tid, sh: Shared, th: Thread, sh': Shared, th': Thread)
    requires ThreadStep(cfg, t, sh, th, sh', th') && !th.pc.Idle?
    ensures th'.held == th.held && th'.key == th.key
  {
    if ReadStep(cfg, sh, th, th') {
      ReadStepKind(cfg, sh, th, th');
    } else if TableStep(cfg, t, sh, th, sh', th') {
    } else {
      var sub' :| SubStep(cfg, t, SubAt(sh, th.i), th, sub', th') && sh' == PutSub(sh, th.i, sub');
      SubStepHeld(cfg, t, SubAt(sh, th.i), th, sub', th');
    }
  }

  /** If a key's cell is live at i and not at j, the key was absent in between. */
  lemma {:induction false} ErasedMeansAbsent(cfg: Config, r: seq<State>, i: nat, j: nat, k: int, at: Loc)
    returns (m: nat)
    requires Run(cfg, r) && i <= j < |r|
    requires LiveAt(r[i].sh, k, at) && !LiveAt(r[j].sh, k, at)
    ensures i <= m <= j && !Contains(r[m].sh, k)
    decreases j - i
  {
    if LiveAt(r[i + 1].sh, k, at) {
      m := ErasedMeansAbsent(cfg, r, i + 1, j, k, at);
    } else {
      m := i + 1;
      var t := RunStep(cfg, r, i);
      LastCellGone(cfg, r[i], t, r[i + 1], k, at);
    }
  }

  lemma LastCellGone(cfg: Config, s: State, t: Tid, s': State, k: int, at: Loc)
    requires Inv(cfg, s) && StepBy(cfg, s, t, s')
    requires LiveAt(s.sh, k, at) && !LiveAt(s'.sh, k, at)
    ensures !Contains(s'.sh, k)
  {
    StepLive(cfg, s, t, s', k, at);
    StepEffect(cfg, s, t, s', k);
  }

  /** A find that misses, or an erase that returns 0, is right about some moment
      between its call and its return: then the key was not in the map. So a key
      that stays in the map during the whole call is never missed. */
  lemma MissesAreTruthful(cfg: Config, r: seq<State>, t: Tid, k: int, a: nat, b: nat) returns (m: nat)
    requires Run(cfg, r) && InCall(r, t, k, a, b)
    requires t < |r[b].threads| && r[b].threads[t].pc.Returned?
             && (r[b].threads[t].res == Miss || r[b].threads[t].res == ErasedNone)
    ensures a <= m <= b && !Contains(r[m].sh, k)
  {
    CallKeepsHeld(cfg, r, t, k, a, b);
    RunKeepsInv(cfg, r, b);
    assert ThreadInv(cfg, t, r[b].sh, r[b].threads[t]);
    match r[a + 1].threads[t].held
    case None => m := a;
    case Some(at) => m := ErasedMeansAbsent(cfg, r, a, b, k, at);
  }
}
