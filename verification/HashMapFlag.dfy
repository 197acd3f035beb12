/** isFull_ of an array: it never returns to 0, but it may go from 2 back to 1, and
    exactly when it may. */
module HashMapFlag {

  import opened Common
  import opened HashProbing
  import opened HashMapState
  import opened HashMapInvariant
  import opened HashMapProof
  import opened HashMapRuns
  import opened HashMapTheorems

  // ---------- exactly when ----------

  /** Between the end of its insert and a store of 1 to isFull. */
  predicate Late(pc: Pc) {
    pc.ICount? || pc.ILoadFactor? || pc.IMarkFull?
  }

  predicate LateMarker(s: State, t: Tid, m: nat) {
    t < |s.threads| && s.threads[t].i == m && Late(s.threads[t].pc)
  }

  predicate FlagIs(s: State, m: nat, flag: int) {
    HasSub(s.sh, m) && SubAt(s.sh, m).isFull == flag
  }

  /** isFull is 2, and no insert is late on the array. */
  ghost predicate Settled(s: State, m: nat) {
    FlagIs(s, m, 2) && forall t :: !LateMarker(s, t, m)
  }

  lemma SubStepFlag(cfg: Config, t: Tid, sub: Sub, th: Thread, sub': Sub, th': Thread)
    requires SubPre(t, sub, th) && SubStep(cfg, t, sub, th, sub', th')
    ensures sub'.isFull == sub.isFull || th.pc.IMarkFull? || sub'.isFull == 2
    ensures Late(th'.pc) ==> th'.i == th.i && (Late(th.pc) || t in sub.lockers)
  {
    match th.pc
    case IStoreFull => case IMarkFull => case IDecWon => case ICount =>
    case _ =>
  }

  lemma ReadStepFlag(cfg: Config, sh: Shared, th: Thread, th': Thread)
    requires SafeAccess(sh, th) && ReadStep(cfg, sh, th, th') && Late(th'.pc)
    ensures th'.i == th.i && Late(th.pc)
  {
    match th.pc
    case FEnter => case FProbe => case FLoadNum =>
    case ELoadNum => case EEnter => case EProbe =>
    case ICompare => case IRecheck =>
    case _ =>
  }

  lemma TableStepFlag(cfg: Config, t: Tid, sh: Shared, th: Thread, sh': Shared, th': Thread, m: nat)
    requires TableInv(sh) && GrowerInv(t, sh, th) && InsertInv(cfg, t, sh, th) && TableStep(cfg, t, sh, th, sh', th')
    requires HasSub(sh, m)
    ensures HasSub(sh', m) && SubAt(sh', m) == SubAt(sh, m) && !Late(th'.pc)
  {
    TableStepTable(cfg, t, sh, th, sh', th');
  }

  lemma SettledStep(cfg: Config, s: State, t: Tid, s': State, m: nat)
    requires Inv(cfg, s) && StepBy(cfg, s, t, s') && Settled(s, m)
    ensures Settled(s', m)
  {
    var sh, th, sh', th' := s.sh, s.threads[t], s'.sh, s'.threads[t];
    assert ThreadInv(cfg, t, sh, th) && SubInv(SubAt(sh, m)) && !LateMarker(s, t, m);
    hide SharedInv, InsertInv, FindInv, EraseInv, HeldInv, Membership, SubStep, ReadStep, TableInv;
    if sh' == sh && ReadStep(cfg, sh, th, th') {
      if Late(th'.pc) {
        ReadStepFlag(cfg, sh, th, th');
      }
    } else if TableStep(cfg, t, sh, th, sh', th') {
      TableStepFlag(cfg, t, sh, th, sh', th', m);
    } else if !(sh' == sh && CallStep(sh, th, th')) {
      var sub' :| SubStep(cfg, t, SubAt(sh, th.i), th, sub', th') && sh' == PutSub(sh, th.i, sub');
      PreFromInv(cfg, t, sh, th);
      SubStepFlag(cfg, t, SubAt(sh, th.i), th, sub', th');
    }
    forall u ensures !LateMarker(s', u, m) {
      assert u != t ==> !LateMarker(s, u, m);
    }
  }

  /** With no insert late on the array, a flag of 2 is there to stay. */
  lemma {:induction false} TwoStays(cfg: Config, r: seq<State>, i: nat, j: nat, m: nat)
    requires Run(cfg, r) && i <= j < |r| && Settled(r[i], m)
    ensures Settled(r[j], m)
    decreases j
  {
    if i < j {
      TwoStays(cfg, r, i, j - 1, m);
      var t := RunStep(cfg, r, j - 1);
      SettledStep(cfg, r[j - 1], t, r[j - 1 + 1], m);
    }
  }

  lemma StoreOne(cfg: Config, r: seq<State>, t: Tid, m: nat) returns (r': seq<State>)
    requires Run(cfg, r) && LateMarker(Last(r), t, m) && Last(r).threads[t].pc.IMarkFull? && HasSub(Last(r).sh, m)
    ensures Run(cfg, r') && r <= r' && |r'| == |r| + 1 && FlagIs(Last(r'), m, 1)
  {
    r' := MoveSub(cfg, r, t, SubAt(Last(r).sh, m).(isFull := 1), Return(Last(r).threads[t], Inserted));
  }

  lemma LateStores(cfg: Config, r: seq<State>, t: Tid, m: nat) returns (q: seq<State>)
    requires Run(cfg, r) && LateMarker(Last(r), t, m) && HasSub(Last(r).sh, m)
    ensures Run(cfg, q) && r <= q && FlagIs(Last(q), m, 1)
    decreases if Last(r).threads[t].pc.ICount? then 2 else if Last(r).threads[t].pc.ILoadFactor? then 1 else 0
  {
    var sub, th := SubAt(Last(r).sh, m), Last(r).threads[t];
    if th.pc.ICount? {
      q := MoveSub(cfg, r, t, sub.(entries := sub.entries + 1), Go(th, ILoadFactor));
      q := LateStores(cfg, q, t, m);
    } else if th.pc.ILoadFactor? {
      q := MoveRead(cfg, r, t, Go(th, IMarkFull));
      q := LateStores(cfg, q, t, m);
    } else {
      q := StoreOne(cfg, r, t, m);
    }
  }

  ghost predicate ReachesOne(cfg: Config, r: seq<State>, q: seq<State>, m: nat) {
    Run(cfg, q) && r <= q && FlagIs(Last(q), m, 1)
  }

  /** From a state in which isFull of array m is 2 it can go back to 1 if and only if some
      thread has finished an insert there and has yet to make, or skip, its own store. */
  lemma GoesBackIff(cfg: Config, r: seq<State>, m: nat)
    requires Run(cfg, r) && FlagIs(Last(r), m, 2)
    ensures (exists q :: ReachesOne(cfg, r, q, m)) <==> exists t: Tid :: LateMarker(Last(r), t, m)
  {
    if t: Tid :| LateMarker(Last(r), t, m) {
      var q := LateStores(cfg, r, t, m);
      assert ReachesOne(cfg, r, q, m);
    } else {
      assert Settled(Last(r), m);
      forall q ensures !ReachesOne(cfg, r, q, m) {
        if Run(cfg, q) && r <= q {
          assert q[|r| - 1] == Last(r);
          TwoStays(cfg, q, |r| - 1, |q| - 1, m);
        }
      }
    }
  }

  // ---------- a run in which it does ----------

  /** Three cells; each of the keys 0, 1 and 2 has its own. */
  function ThreeCells(): Config {
    Config(Linear, (k: int) => if k < 0 then 0 else k, false, false)
  }

  lemma OwnCells()
    ensures Anchor(0, 3) == 0 && Anchor(1, 3) == 1 && Anchor(2, 3) == 2
  {
    assert NextPow2(3) == 4;
  }

  /** A full array seen at an empty cell: the thread leaves the window again. */
  lemma MeetFull(cfg: Config, r: seq<State>, t: Tid, k: int, a: nat) returns (r': seq<State>)
    requires Run(cfg, r) && t < |Last(r).threads| && Last(r).threads[t] == Inserter(IProbe, k, a)
    requires HasSub(Last(r).sh, 0)
    requires var sub := SubAt(Last(r).sh, 0);
             a < |sub.cells| && sub.cells[a] == Empty && sub.isFull == 1 && sub.pending == 0
    ensures Run(cfg, r') && HasSub(Last(r').sh, 0)
    ensures SubAt(Last(r').sh, 0).isFull == 1 && SubAt(Last(r').sh, 0).pending == 0
    ensures Last(r').threads == Last(r).threads[t := Inserter(ISpinFull, k, a)]
  {
    var joined := Joined(t, SubAt(Last(r).sh, 0));
    r' := JoinWindow(cfg, r, t, k, a);
    r' := MoveSub(cfg, r', t, joined, Inserter(IDecFull, k, a));
    r' := MoveSub(cfg, r', t, LeaveWindow(t, joined), Inserter(ISpinFull, k, a));
    assert Last(r').threads == Last(r).threads[t := Inserter(ISpinFull, k, a)];
  }

  /** Nobody is pending: it waits no longer, and stores 2. */
  lemma StoreTwo(cfg: Config, r: seq<State>, t: Tid, k: int, a: nat) returns (r': seq<State>)
    requires Run(cfg, r) && t < |Last(r).threads| && Last(r).threads[t] == Inserter(ISpinFull, k, a)
    requires HasSub(Last(r).sh, 0)
    requires SubAt(Last(r).sh, 0).isFull == 1 && SubAt(Last(r).sh, 0).pending == 0
    ensures Run(cfg, r') && FlagIs(Last(r'), 0, 2)
    ensures Last(r').threads == Last(r).threads[t := Inserter(IRecheck, k, a)]
  {
    r' := MoveRead(cfg, r, t, Inserter(ISpinPending, k, a));
    r' := MoveRead(cfg, r', t, Inserter(IStoreFull, k, a));
    r' := MoveSub(cfg, r', t, SubAt(Last(r).sh, 0).(isFull := 2), Inserter(IRecheck, k, a));
    assert Last(r').threads == Last(r).threads[t := Inserter(IRecheck, k, a)];
  }

  /** Thread 0 inserts key 0 and is about to store 1; thread 1 inserts key 1. */
  lemma TwoInsert(cfg: Config) returns (r: seq<State>)
    requires cfg == ThreeCells()
    ensures Run(cfg, r) && OneArray(Last(r).sh)
    ensures SubAt(Last(r).sh, 0).cells == [Live(0), Live(1), Empty]
    ensures SubAt(Last(r).sh, 0).isFull == 0 && SubAt(Last(r).sh, 0).pending == 0
    ensures Last(r).threads ==
            [Inserter(IMarkFull, 0, 0).(effects := 1), Inserter(IMarkFull, 1, 1).(effects := 1)]
  {
    OwnCells();
    r := StartRun(cfg, 3);
    r := InsertAlone(cfg, r, 0, 0);
    assert SubAt(Last(r).sh, 0).cells == [Live(0), Empty, Empty];
    assert Last(r).threads[1].pc.Idle?;
    r := InsertAlone(cfg, r, 1, 1);
  }

  /** Thread 1 stores 1, returns, and finds the array full on its next insert, where it
      stores 2; then thread 0 stores 1. No constructor throws. */
  lemma FlagGoesBack() returns (cfg: Config, r: seq<State>, i: nat)
    ensures Run(cfg, r) && !cfg.mayThrow && !cfg.createMayThrow
    ensures i + 1 < |r| && FlagIs(r[i], 0, 2) && FlagIs(r[i + 1], 0, 1)
  {
    cfg := ThreeCells();
    r := TwoInsert(cfg);
    r := MarkAndReturn(cfg, r, 1, 1, 1);
    OwnCells();
    r := StartInsert(cfg, r, 1, 2);
    r := MeetFull(cfg, r, 1, 2, 2);
    r := StoreTwo(cfg, r, 1, 2, 2);
    i := |r| - 1;
    assert LateMarker(Last(r), 0, 0);
    r := StoreOne(cfg, r, 0, 0);
  }
}
