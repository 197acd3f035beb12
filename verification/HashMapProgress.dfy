/** The waits of AtomicHashMap: for inserts still pending on a full array, for a locked
    cell, and for a sub-map that another thread is creating. */
module HashMapProgress {

  import opened Common
  import opened HashProbing
  import opened HashMapState
  import opened HashMapInvariant
  import opened HashMapProof
  import opened HashMapRuns
  import opened HashMapTheorems

  /** The loop the thread is in cannot end in this state. */
  predicate Blocked(s: State, t: Tid) {
    t < |s.threads| &&
    var th := s.threads[t];
    || ((th.pc.ISpinFull? || th.pc.ISpinPending?) && HasSub(s.sh, th.i) &&
        SubAt(s.sh, th.i).isFull != 2 && SubAt(s.sh, th.i).pending != 0)
    || (th.pc.IAwait? && HasSub(s.sh, th.i) && th.idx < |SubAt(s.sh, th.i).cells| &&
        SubAt(s.sh, th.i).cells[th.idx].Locked?)
    || Waits(s, t)
  }

  predicate Waits(s: State, t: Tid) {
    t < |s.threads| && s.threads[t].pc.MWaitMap? && s.threads[t].next >= s.sh.num
  }

  /** In the middle of a call. */
  predicate Working(pc: Pc) {
    !pc.Idle? && !pc.Returned?
  }

  // ---------- who is pending, and who grows the map, is a thread of the run ----------

  ghost predicate IdsExist(s: State) {
    && (forall m, u :: HasSub(s.sh, m) && u in SubAt(s.sh, m).window ==> u < |s.threads|)
    && (s.sh.grower.Building? ==> s.sh.grower.t < |s.threads|)
  }

  lemma IdsStep(cfg: Config, s: State, t: Tid, s': State)
    requires StepBy(cfg, s, t, s') && Evolve(t, s.sh, s'.sh) && IdsExist(s)
    ensures IdsExist(s')
  {
    hide ThreadStep;
    forall m, u | HasSub(s'.sh, m) && u in SubAt(s'.sh, m).window ensures u < |s'.threads| {
      if HasSub(s.sh, m) {
        assert SubEvolve(t, SubAt(s.sh, m), SubAt(s'.sh, m));
      }
    }
    if s'.sh.grower.Building? && s'.sh.grower.t != t {
      assert s'.sh.grower == Building(s'.sh.grower.t);
    }
  }

  lemma {:induction false} RunIds(cfg: Config, r: seq<State>, i: nat)
    requires Run(cfg, r) && i < |r|
    ensures IdsExist(r[i])
  {
    if i == 0 {
    } else {
      RunIds(cfg, r, i - 1);
      var t := RunStep(cfg, r, i - 1);
      IdsStep(cfg, r[i - 1], t, r[i - 1 + 1]);
    }
  }

  // ---------- somebody else can go on ----------

  predicate Creates(pc: Pc) {
    pc.MStoreMap? || pc.MPublish?
  }

  /** A pending insert never waits, nor does a thread that creates a sub-map. */
  lemma NeverWaits(s: State, u: Tid)
    requires u < |s.threads| && (InWindow(s.threads[u].pc) || Creates(s.threads[u].pc))
    ensures Working(s.threads[u].pc) && !Blocked(s, u)
  {
  }

  function NewSub(): (sub: Sub)
    ensures IsNewSub(sub)
  {
    Sub([Empty], [None], 0, 0, 0, 0, {}, {})
  }

  /** What a pending insert does next. */
  lemma PendingSteps(cfg: Config, t: Tid, sub: Sub, th: Thread) returns (sub': Sub, th': Thread)
    requires InWindow(th.pc) && SubPre(t, sub, th)
    ensures SubStep(cfg, t, sub, th, sub', th')
  {
    sub' := sub;
    match th.pc {
      case ILoadFull =>
        if sub.isFull != 0 {
          th' := Go(th, IDecFull);
        } else {
          sub' := sub.(lockers := sub.lockers + {t});
          th' := Go(th, ITryLock);
        }
      case IDecFull =>
        sub' := LeaveWindow(t, sub);
        th' := Go(th, ISpinFull);
      case ITryLock =>
        if sub.cells[th.idx] == Empty {
          sub' := SetCell(sub, th.idx, Locked(t, th.key));
          th' := Go(th, IConstruct);
        } else {
          th' := Go(th, IDecLost);
        }
      case IConstruct =>
        sub' := sub.(vals := sub.vals[th.idx := Some(th.val)]);
        th' := Go(th, IUnlock);
      case IUnlock =>
        sub' := SetCell(sub, th.idx, Live(th.key));
        th' := Go(th, IDecWon).(effects := th.effects + 1);
      case IThrowUnlock =>
        sub' := SetCell(sub, th.idx, Empty);
        th' := Go(th, IThrowDec);
      case IThrowDec =>
        sub' := LeaveWindow(t, sub);
        th' := Return(th, Threw);
      case IDecLost =>
        sub' := LeaveWindow(t, sub);
        th' := Go(th, IAssert);
      case IDecWon =>
        sub' := LeaveWindow(t, sub);
        th' := Go(th, ICount);
    }
  }

  lemma PendingCanStep(cfg: Config, s: State, u: Tid) returns (next: State)
    requires Inv(cfg, s) && u < |s.threads| && InWindow(s.threads[u].pc) && HasSub(s.sh, s.threads[u].i)
    ensures StepBy(cfg, s, u, next)
  {
    var sh, th := s.sh, s.threads[u];
    assert ThreadInv(cfg, u, sh, th);
    SafeFromInv(cfg, u, sh, th);
    PreFromInv(cfg, u, sh, th);
    var sub', th' := PendingSteps(cfg, u, SubAt(sh, th.i), th);
    hide SubStep, SharedInv, InsertInv, FindInv, EraseInv, HeldInv, Membership;
    next := State(PutSub(sh, th.i, sub'), s.threads[u := th']);
    assert ThreadStep(cfg, u, sh, th, next.sh, th');
  }

  lemma CreatorCanStep(cfg: Config, s: State, u: Tid) returns (next: State)
    requires Inv(cfg, s) && u < |s.threads| && Creates(s.threads[u].pc)
    ensures StepBy(cfg, s, u, next)
    ensures s.threads[u].pc.MStoreMap? ==>
              next.threads == s.threads[u := Go(s.threads[u], MPublish)] && next.sh.num == s.sh.num
    ensures s.threads[u].pc.MPublish? ==>
              && next.threads == s.threads[u := s.threads[u].(pc := IEnter, i := s.threads[u].next)]
              && next.sh.num == s.sh.num + 1
  {
    var sh, th := s.sh, s.threads[u];
    assert ThreadInv(cfg, u, sh, th);
    if th.pc.MStoreMap? {
      next := State(PutSub(sh, th.next, NewSub()), s.threads[u := Go(th, MPublish)]);
    } else {
      next := State(sh.(num := sh.num + 1, grower := Nobody), s.threads[u := th.(pc := IEnter, i := th.next)]);
    }
    assert TableStep(cfg, u, sh, th, next.sh, next.threads[u]);
  }

  /** An array with a pending count above zero has a pending thread; a locked cell's owner
      is one. */
  lemma SomeonePends(cfg: Config, s: State, m: nat, u: Tid)
    requires Inv(cfg, s) && IdsExist(s) && HasSub(s.sh, m) && u in SubAt(s.sh, m).window
    ensures u < |s.threads| && s.threads[u].i == m && InWindow(s.threads[u].pc)
  {
    assert ThreadInv(cfg, u, s.sh, s.threads[u]);
    assert Membership(u, SubAt(s.sh, m), m == s.threads[u].i, s.threads[u]);
  }

  /** The thread that a blocked thread waits for. */
  lemma WaitedFor(cfg: Config, s: State, t: Tid) returns (u: Tid)
    requires Inv(cfg, s) && IdsExist(s) && Blocked(s, t) && (Waits(s, t) ==> !s.sh.grower.Gone?)
    ensures u < |s.threads|
    ensures (InWindow(s.threads[u].pc) && HasSub(s.sh, s.threads[u].i)) || Creates(s.threads[u].pc)
  {
    var sh, th := s.sh, s.threads[t];
    assert ThreadInv(cfg, t, sh, th);
    if Waits(s, t) {
      u := Creator(cfg, s, t);
    } else {
      var sub := SubAt(sh, th.i);
      assert SubInv(sub);
      if th.pc.IAwait? {
        u := sub.cells[th.idx].owner;
      } else {
        assert |sub.window| != 0;
        u :| u in sub.window;
      }
      SomeonePends(cfg, s, th.i, u);
    }
  }

  lemma Creator(cfg: Config, s: State, t: Tid) returns (u: Tid)
    requires Inv(cfg, s) && IdsExist(s) && Waits(s, t) && !s.sh.grower.Gone?
    ensures u < |s.threads| && Creates(s.threads[u].pc)
    ensures s.sh.grower == Building(u) && s.threads[t].next == s.sh.num
  {
    var th := s.threads[t];
    assert ThreadInv(cfg, t, s.sh, th);
    assert th.next < MAX_SUBMAPS && s.sh.table[s.sh.num] != Null;
    u := s.sh.grower.t;
    assert ThreadInv(cfg, u, s.sh, s.threads[u]);
  }

  /** No deadlock: whenever a thread is blocked, by inserts pending on its array, by a
      locked cell or by a sub-map being created, another thread in the middle of a call is
      not blocked and has a step to make; unless the thread waits for a sub-map whose
      creation has failed. */
  lemma SomeoneMoves(cfg: Config, r: seq<State>, i: nat, t: Tid) returns (u: Tid, next: State)
    requires Run(cfg, r) && i < |r| && Blocked(r[i], t)
    requires Waits(r[i], t) ==> !r[i].sh.grower.Gone?
    ensures u < |r[i].threads| && Working(r[i].threads[u].pc) && !Blocked(r[i], u)
    ensures StepBy(cfg, r[i], u, next)
  {
    RunKeepsInv(cfg, r, i);
    RunIds(cfg, r, i);
    u := WaitedFor(cfg, r[i], t);
    NeverWaits(r[i], u);
    hide Inv, IdsExist, Blocked;
    if Creates(r[i].threads[u].pc) {
      next := CreatorCanStep(cfg, r[i], u);
    } else {
      next := PendingCanStep(cfg, r[i], u);
    }
  }

  // ---------- a sub-map whose creation failed ----------

  lemma LostStep(cfg: Config, r: seq<State>, i: nat)
    requires Run(cfg, r) && i + 1 < |r| && r[i].sh.grower.Gone?
    ensures r[i + 1].sh.grower.Gone? && r[i + 1].sh.num == r[i].sh.num
  {
    var t := RunStep(cfg, r, i);
  }

  lemma {:induction false} LostForever(cfg: Config, r: seq<State>, i: nat, j: nat)
    requires Run(cfg, r) && i <= j < |r| && r[i].sh.grower.Gone?
    ensures r[j].sh.grower.Gone? && r[j].sh.num == r[i].sh.num
    decreases j
  {
    hide Run;
    if i < j {
      LostForever(cfg, r, i, j - 1);
      LostStep(cfg, r, j - 1);
    }
  }

  lemma WaiterStays(cfg: Config, s: State, t: Tid, u: Tid, s': State)
    requires StepBy(cfg, s, u, s') && Waits(s, t)
    ensures s'.threads[t] == s.threads[t]
  {
    if u == t {
      assert ReadStep(cfg, s.sh, s.threads[t], s'.threads[t]);
    }
  }

  lemma WaitStep(cfg: Config, r: seq<State>, i: nat, t: Tid)
    requires Run(cfg, r) && i + 1 < |r| && Waits(r[i], t) && r[i].sh.grower.Gone?
    ensures Waits(r[i + 1], t)
  {
    LostStep(cfg, r, i);
    var u := RunStep(cfg, r, i);
    hide Inv, Evolve;
    WaiterStays(cfg, r[i], t, u, r[i + 1]);
  }

  /** A thread that waits for a lost sub-map waits in all later states. */
  lemma {:induction false} WaitsForever(cfg: Config, r: seq<State>, i: nat, j: nat, t: Tid)
    requires Run(cfg, r) && i <= j < |r| && Waits(r[i], t) && r[i].sh.grower.Gone?
    ensures Waits(r[j], t)
    decreases j
  {
    hide Run;
    if i < j {
      WaitsForever(cfg, r, i, j - 1, t);
      LostForever(cfg, r, i, j - 1);
      WaitStep(cfg, r, j - 1, t);
    }
  }

  lemma PublishedNext(cfg: Config, r: seq<State>, t: Tid) returns (q: seq<State>)
    requires Run(cfg, r) && Waits(Last(r), t) && !Last(r).sh.grower.Gone?
    ensures Run(cfg, q) && r <= q && t < |Last(q).threads| && Last(q).threads[t] == Last(r).threads[t]
    ensures Last(q).sh.num > Last(q).threads[t].next
  {
    RunKeepsInv(cfg, r, |r| - 1);
    RunIds(cfg, r, |r| - 1);
    var u := Creator(cfg, Last(r), t);
    q := r;
    if Last(q).threads[u].pc.MStoreMap? {
      var next := CreatorCanStep(cfg, Last(q), u);
      q := Extend(cfg, q, u, next);
      RunKeepsInv(cfg, q, |q| - 1);
    }
    var next := CreatorCanStep(cfg, Last(q), u);
    q := Extend(cfg, q, u, next);
  }

  ghost predicate GetsOn(cfg: Config, r: seq<State>, q: seq<State>, t: Tid) {
    Run(cfg, q) && r <= q && t < |Last(q).threads| && !Last(q).threads[t].pc.MWaitMap?
  }

  /** A thread that waits for a sub-map can still get on if and only if the thread that
      locked the entry is at work on it: its creation has not failed. */
  lemma GetsOnIff(cfg: Config, r: seq<State>, t: Tid)
    requires Run(cfg, r) && Waits(Last(r), t)
    ensures (exists q :: GetsOn(cfg, r, q, t)) <==> !Last(r).sh.grower.Gone?
  {
    if Last(r).sh.grower.Gone? {
      forall q ensures !GetsOn(cfg, r, q, t) {
        if Run(cfg, q) && r <= q {
          assert q[|r| - 1] == Last(r);
          WaitsForever(cfg, q, |r| - 1, |q| - 1, t);
        }
      }
    } else {
      var q := PublishedNext(cfg, r, t);
      var th := Last(q).threads[t];
      q := MoveRead(cfg, q, t, th.(pc := IEnter, i := th.next));
      assert GetsOn(cfg, r, q, t);
    }
  }

  // ---------- a run that loses a sub-map ----------

  /** With its only cell taken, the array sends an insert of another key to the next one. */
  lemma MeetTaken(cfg: Config, r: seq<State>, t: Tid) returns (r': seq<State>)
    requires Run(cfg, r) && t < |Last(r).threads| && Last(r).threads[t] == Inserter(IProbe, 1, 0)
    requires OneArray(Last(r).sh) && SubAt(Last(r).sh, 0).cells == [Live(0)]
    ensures Run(cfg, r') && Last(r') == State(Last(r).sh, Last(r).threads[t := Inserter(MLockMap, 1, 0)])
  {
    r' := MoveRead(cfg, r, t, Inserter(IAssert, 1, 0));
    r' := MoveRead(cfg, r', t, Inserter(IAwait, 1, 0));
    r' := MoveRead(cfg, r', t, Inserter(ICompare, 1, 0));
    r' := MoveRead(cfg, r', t, Inserter(MGrow, 1, 0));
    r' := MoveRead(cfg, r', t, Inserter(MLockMap, 1, 0));
    assert Last(r').threads == Last(r).threads[t := Inserter(MLockMap, 1, 0)];
  }

  lemma LoseMap(cfg: Config, r: seq<State>, t: Tid) returns (r': seq<State>)
    requires cfg.createMayThrow && Run(cfg, r) && OneArray(Last(r).sh) && |Last(r).sh.table| == MAX_SUBMAPS
    requires t < |Last(r).threads| && Last(r).threads[t] == Inserter(MLockMap, 1, 0)
    ensures Run(cfg, r') && Last(r').sh.grower.Gone?
  {
    var sh := Last(r).sh;
    var locked := sh.(table := sh.table[1 := LockedPtr], grower := Building(t));
    var next := State(locked, Last(r).threads[t := Inserter(MStoreMap, 1, 0)]);
    assert TableStep(cfg, t, sh, Inserter(MLockMap, 1, 0), locked, Inserter(MStoreMap, 1, 0));
    assert StepBy(cfg, Last(r), t, next);
    r' := Extend(cfg, r, t, next);
    var lost := Return(Inserter(MStoreMap, 1, 0), Threw);
    next := State(locked.(grower := Gone), next.threads[t := lost]);
    assert TableStep(cfg, t, locked, Inserter(MStoreMap, 1, 0), next.sh, lost);
    assert StepBy(cfg, Last(r'), t, next);
    r' := Extend(cfg, r', t, next);
  }

  lemma LossHappens(cfg: Config) returns (r: seq<State>)
    requires cfg.createMayThrow
    ensures Run(cfg, r) && Last(r).sh.grower.Gone?
  {
    r := StartRun(cfg, 1);
    r := InsertAlone(cfg, r, 0, 0);
    assert SubAt(Last(r).sh, 0).cells == [Live(0)];
    r := MarkAndReturn(cfg, r, 0, 0, 0);
    r := StartInsert(cfg, r, 0, 1);
    r := MeetTaken(cfg, r, 0);
    r := LoseMap(cfg, r, 0);
  }

  lemma NoLossStep(cfg: Config, s: State, t: Tid, s': State)
    requires !cfg.createMayThrow && StepBy(cfg, s, t, s') && !s.sh.grower.Gone?
    ensures !s'.sh.grower.Gone?
  {
    hide ReadStep, SubStep;
  }

  lemma {:induction false} NoLoss(cfg: Config, r: seq<State>, i: nat)
    requires !cfg.createMayThrow && Run(cfg, r) && i < |r|
    ensures !r[i].sh.grower.Gone?
  {
    if i == 0 {
    } else {
      NoLoss(cfg, r, i - 1);
      var t := RunStep(cfg, r, i - 1);
      NoLossStep(cfg, r[i - 1], t, r[i - 1 + 1]);
    }
  }

  /** A sub-map can be lost if and only if creating one may throw. */
  lemma LossIffCreateThrows(cfg: Config)
    ensures (exists r: seq<State>, i :: Run(cfg, r) && 0 <= i < |r| && r[i].sh.grower.Gone?) <==> cfg.createMayThrow
  {
    if cfg.createMayThrow {
      var r := LossHappens(cfg);
      assert r[|r| - 1].sh.grower.Gone?;
    } else {
      forall r: seq<State>, i: nat | Run(cfg, r) && i < |r| ensures !r[i].sh.grower.Gone? {
        NoLoss(cfg, r, i);
      }
    }
  }
}
