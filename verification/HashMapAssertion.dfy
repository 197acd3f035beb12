/** The debug assertion of insertInternal that the cell under inspection is not
    empty: it can fail, and it does so exactly when value constructors may throw. */
module HashMapAssertion {

  import opened Common
  import opened HashProbing
  import opened HashMapState
  import opened HashMapInvariant
  import opened HashMapProof
  import opened HashMapRuns
  import opened HashMapTheorems

  ghost predicate CellIsEmpty(s: State, th: Thread) {
    HasSub(s.sh, th.i) && th.idx < |SubAt(s.sh, th.i).cells| && SubAt(s.sh, th.i).cells[th.idx] == Empty
  }

  /** The assertion, for every thread that is about to evaluate it. */
  ghost predicate AssertionHolds(s: State) {
    forall t :: 0 <= t < |s.threads| && s.threads[t].pc.IAssert? ==> !CellIsEmpty(s, s.threads[t])
  }

  // ---------- constructors that do not throw ----------

  predicate PastEmpty(pc: Pc) {
    pc.IDecLost? || pc.IAssert? || pc.IAwait? || pc.ICompare?
  }

  ghost predicate NoThrowInv(s: State) {
    forall t :: 0 <= t < |s.threads| ==>
      !s.threads[t].pc.IThrowUnlock? && (PastEmpty(s.threads[t].pc) ==> !CellIsEmpty(s, s.threads[t]))
  }

  lemma SubStepKeepsCells(cfg: Config, t: Tid, sub: Sub, th: Thread, sub': Sub, th': Thread, c: nat)
    requires !th.pc.IThrowUnlock? && (UsesCell(th.pc) ==> th.idx < |sub.cells|)
    requires SubStep(cfg, t, sub, th, sub', th')
    ensures |sub'.cells| == |sub.cells|
    ensures c < |sub.cells| && sub.cells[c] != Empty ==> sub'.cells[c] != Empty
  {
    assert WritesCell(th.pc) || sub'.cells == sub.cells;
  }

  lemma SubStepPastEmpty(cfg: Config, t: Tid, sub: Sub, th: Thread, sub': Sub, th': Thread)
    requires !cfg.mayThrow && (UsesCell(th.pc) ==> th.idx < |sub.cells|)
    requires SubStep(cfg, t, sub, th, sub', th')
    ensures !th'.pc.IThrowUnlock?
    ensures PastEmpty(th'.pc) ==> th'.i == th.i && th'.idx == th.idx && Searching(th.pc)
    ensures PastEmpty(th'.pc) && !PastEmpty(th.pc) ==> UsesCell(th.pc) && sub.cells[th.idx] != Empty
  {
  }

  lemma ReadStepPastEmpty(cfg: Config, sh: Shared, th: Thread, th': Thread)
    requires SafeAccess(sh, th) && ReadStep(cfg, sh, th, th')
    ensures !th'.pc.IThrowUnlock?
    ensures PastEmpty(th'.pc) ==> th'.i == th.i && th'.idx == th.idx && UsesCell(th.pc)
    ensures PastEmpty(th'.pc) && !PastEmpty(th.pc) ==> SubAt(sh, th.i).cells[th.idx] != Empty
  {
    match th.pc
    case FProbe => case FEnter => case FLoadNum =>
    case EProbe => case EEnter => case ELoadNum =>
    case ICompare => case IRecheck =>
    case _ =>
  }

  /** What a step does to cell c of array m, and where it leaves the thread. */
  ghost predicate KeepsNonEmpty(sh: Shared, th: Thread, sh': Shared, th': Thread, m: nat, c: nat) {
    && !th'.pc.IThrowUnlock?
    && (HasSub(sh, m) && c < |SubAt(sh, m).cells| && SubAt(sh, m).cells[c] != Empty ==>
          HasSub(sh', m) && c < |SubAt(sh', m).cells| && SubAt(sh', m).cells[c] != Empty)
    && (PastEmpty(th'.pc) ==>
          th'.i == th.i && th'.idx == th.idx && HasSub(sh, th.i) && th.idx < |SubAt(sh, th.i).cells|)
    && (PastEmpty(th'.pc) && !PastEmpty(th.pc) ==> SubAt(sh, th.i).cells[th.idx] != Empty)
  }

  lemma SubStepNoThrow(cfg: Config, t: Tid, sh: Shared, th: Thread, sub': Sub, th': Thread, m: nat, c: nat)
    requires !cfg.mayThrow && !th.pc.IThrowUnlock? && UsesSub(th.pc) && SafeAccess(sh, th)
    requires SubStep(cfg, t, SubAt(sh, th.i), th, sub', th')
    requires Searching(th.pc) ==> th.idx < |SubAt(sh, th.i).cells|
    ensures KeepsNonEmpty(sh, th, PutSub(sh, th.i, sub'), th', m, c)
  {
    SubStepKeepsCells(cfg, t, SubAt(sh, th.i), th, sub', th', c);
    SubStepPastEmpty(cfg, t, SubAt(sh, th.i), th, sub', th');
    assert m != th.i && HasSub(sh, m) ==> SubAt(PutSub(sh, th.i, sub'), m) == SubAt(sh, m);
  }

  lemma ReadNoThrow(cfg: Config, sh: Shared, th: Thread, th': Thread, m: nat, c: nat)
    requires SafeAccess(sh, th) && ReadStep(cfg, sh, th, th')
    ensures KeepsNonEmpty(sh, th, sh, th', m, c)
  {
    ReadStepPastEmpty(cfg, sh, th, th');
  }

  lemma TableNoThrow(cfg: Config, t: Tid, sh: Shared, th: Thread, sh': Shared, th': Thread, m: nat, c: nat)
    requires TableInv(sh) && GrowerInv(t, sh, th) && InsertInv(cfg, t, sh, th) && TableStep(cfg, t, sh, th, sh', th')
    ensures KeepsNonEmpty(sh, th, sh', th', m, c)
  {
    TableStepTable(cfg, t, sh, th, sh', th');
    assert !PastEmpty(th'.pc);
  }

  lemma SearchIndex(cfg: Config, t: Tid, sh: Shared, th: Thread)
    requires InsertInv(cfg, t, sh, th) && Searching(th.pc)
    ensures HasSub(sh, th.i) && th.idx < |SubAt(sh, th.i).cells|
  {
    assert SearchInv(cfg, t, SubAt(sh, th.i), th);
  }

  /** Without throws no step empties a cell, and only a non-empty cell is waited for. */
  lemma ThreadStepNoThrow(cfg: Config, t: Tid, sh: Shared, th: Thread, sh': Shared, th': Thread, m: nat, c: nat)
    requires !cfg.mayThrow && !th.pc.IThrowUnlock? && ThreadStep(cfg, t, sh, th, sh', th')
    requires TableInv(sh) && GrowerInv(t, sh, th) && InsertInv(cfg, t, sh, th)
    ensures KeepsNonEmpty(sh, th, sh', th', m, c)
  {
    if Searching(th.pc) {
      SearchIndex(cfg, t, sh, th);
    }
    if sh' == sh && CallStep(sh, th, th') {
    } else if sh' == sh && ReadStep(cfg, sh, th, th') {
      ReadNoThrow(cfg, sh, th, th', m, c);
    } else if TableStep(cfg, t, sh, th, sh', th') {
      TableNoThrow(cfg, t, sh, th, sh', th', m, c);
    } else {
      var sub' :| SubStep(cfg, t, SubAt(sh, th.i), th, sub', th') && sh' == PutSub(sh, th.i, sub');
      SubStepNoThrow(cfg, t, sh, th, sub', th', m, c);
    }
  }

  lemma StepNoThrow(cfg: Config, s: State, t: Tid, s': State)
    requires !cfg.mayThrow && Inv(cfg, s) && NoThrowInv(s) && StepBy(cfg, s, t, s')
    ensures NoThrowInv(s')
  {
    assert ThreadInv(cfg, t, s.sh, s.threads[t]);
    forall u | 0 <= u < |s'.threads|
      ensures !s'.threads[u].pc.IThrowUnlock? && (PastEmpty(s'.threads[u].pc) ==> !CellIsEmpty(s', s'.threads[u]))
    {
      var tu := s.threads[u];
      ThreadStepNoThrow(cfg, t, s.sh, s.threads[t], s'.sh, s'.threads[t], tu.i, tu.idx);
      assert ThreadInv(cfg, u, s.sh, tu);
      if PastEmpty(tu.pc) {
        assert SearchInv(cfg, u, SubAt(s.sh, tu.i), tu);
      }
    }
  }

  lemma InitNoThrow(s: State)
    requires Init(s)
    ensures NoThrowInv(s)
  {
  }

  lemma NoThrowStep(cfg: Config, r: seq<State>, i: nat)
    requires !cfg.mayThrow && Run(cfg, r) && i + 1 < |r| && NoThrowInv(r[i])
    ensures NoThrowInv(r[i + 1])
  {
    var t := RunStep(cfg, r, i);
    StepNoThrow(cfg, r[i], t, r[i + 1]);
  }

  lemma {:induction false} NoThrowRun(cfg: Config, r: seq<State>, i: nat)
    requires !cfg.mayThrow && Run(cfg, r) && i < |r|
    ensures NoThrowInv(r[i])
  {
    if i == 0 {
      InitNoThrow(r[0]);
    } else {
      NoThrowRun(cfg, r, i - 1);
      NoThrowStep(cfg, r, i - 1);
    }
  }

  // ---------- constructors that throw: a run that violates the assertion ----------

  /** Two threads race for the only cell; the winner's constructor throws while the loser
      is about to evaluate the assertion for the first time. */
  lemma ThrowBreaksAssertion(cfg: Config) returns (r: seq<State>)
    requires cfg.mayThrow
    ensures Run(cfg, r) && !AssertionHolds(Last(r))
  {
    r := StartRun(cfg, 1);
    r := StartInsert(cfg, r, 0, 0);
    r := ReachTryLock(cfg, r, 0, 0, 0);
    r := StartInsert(cfg, r, 1, 0);
    r := ReachTryLock(cfg, r, 1, 0, 0);
    assert Last(r).threads == [Inserter(ITryLock, 0, 0), Inserter(ITryLock, 0, 0)];
    r := LoserWaits(cfg, r);
  }

  lemma LoserWaits(cfg: Config, r: seq<State>) returns (r': seq<State>)
    requires cfg.mayThrow && Run(cfg, r) && HasSub(Last(r).sh, 0) && SubAt(Last(r).sh, 0).cells == [Empty]
    requires Last(r).threads == [Inserter(ITryLock, 0, 0), Inserter(ITryLock, 0, 0)]
    ensures Run(cfg, r') && !AssertionHolds(Last(r'))
  {
    var locked := SetCell(SubAt(Last(r).sh, 0), 0, Locked(0, 0));
    r' := MoveSub(cfg, r, 0, locked, Inserter(IConstruct, 0, 0));
    r' := MoveSub(cfg, r', 1, locked, Inserter(IDecLost, 0, 0));
    r' := MoveSub(cfg, r', 1, LeaveWindow(1, locked), Inserter(IAssert, 0, 0));
    assert Last(r').threads == [Inserter(IConstruct, 0, 0), Inserter(IAssert, 0, 0)];
    r' := WinnerThrows(cfg, r');
  }

  lemma WinnerThrows(cfg: Config, r: seq<State>) returns (r': seq<State>)
    requires cfg.mayThrow && Run(cfg, r) && HasSub(Last(r).sh, 0) && |SubAt(Last(r).sh, 0).cells| == 1
    requires Last(r).threads == [Inserter(IConstruct, 0, 0), Inserter(IAssert, 0, 0)]
    ensures Run(cfg, r') && !AssertionHolds(Last(r'))
  {
    r' := MoveSub(cfg, r, 0, SubAt(Last(r).sh, 0), Inserter(IThrowUnlock, 0, 0));
    r' := MoveSub(cfg, r', 0, SetCell(SubAt(Last(r).sh, 0), 0, Empty), Inserter(IThrowDec, 0, 0));
    assert Last(r').threads[1] == Inserter(IAssert, 0, 0) && CellIsEmpty(Last(r'), Inserter(IAssert, 0, 0));
  }

  /** The assertion holds in every state of every run if and only if no value
      constructor throws. */
  lemma AssertionIffNoThrow(cfg: Config)
    ensures (forall r: seq<State>, i :: Run(cfg, r) && 0 <= i < |r| ==> AssertionHolds(r[i])) <==> !cfg.mayThrow
  {
    if cfg.mayThrow {
      var r := ThrowBreaksAssertion(cfg);
      assert !AssertionHolds(r[|r| - 1]);
    } else {
      forall r: seq<State>, i | Run(cfg, r) && 0 <= i < |r| ensures AssertionHolds(r[i]) {
        NoThrowRun(cfg, r, i);
      }
    }
  }
}
