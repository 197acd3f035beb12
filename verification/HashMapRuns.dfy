/** Building runs of AtomicHashMap step by step, and the run of an insert that nobody
    disturbs. */
module HashMapRuns {

  import opened Common
  import opened HashProbing
  import opened HashMapState

  function Last(r: seq<State>): State
    requires |r| > 0
  {
    r[|r| - 1]
  }

  /** One more state. */
  lemma Extend(cfg: Config, r: seq<State>, t: Tid, s': State) returns (r': seq<State>)
    requires Run(cfg, r) && StepBy(cfg, Last(r), t, s')
    ensures Run(cfg, r') && r <= r' && Last(r') == s' && |r'| == |r| + 1
  {
    r' := r + [s'];
    forall i: nat ensures StepAt(cfg, r', i) {
      assert StepAt(cfg, r, i);
      assert i + 1 == |r| ==> r'[i] == Last(r);
    }
  }

  /** State s with thread t moved, and its array replaced. */
  function Moved(s: State, t: Tid, sub: Sub, th: Thread): State
    requires t < |s.threads| && s.threads[t].i < |s.sh.table|
  {
    State(PutSub(s.sh, s.threads[t].i, sub), s.threads[t := th])
  }

  lemma MoveSub(cfg: Config, r: seq<State>, t: Tid, sub': Sub, th': Thread) returns (r': seq<State>)
    requires Run(cfg, r) && t < |Last(r).threads|
    requires var th := Last(r).threads[t];
             && HasSub(Last(r).sh, th.i) && UsesSub(th.pc) && SafeAccess(Last(r).sh, th)
             && SubStep(cfg, t, SubAt(Last(r).sh, th.i), th, sub', th')
    ensures Run(cfg, r') && r <= r' && Last(r') == Moved(Last(r), t, sub', th') && |r'| == |r| + 1
  {
    var s' := Moved(Last(r), t, sub', th');
    assert StepBy(cfg, Last(r), t, s');
    r' := Extend(cfg, r, t, s');
  }

  lemma MoveRead(cfg: Config, r: seq<State>, t: Tid, th': Thread) returns (r': seq<State>)
    requires Run(cfg, r) && t < |Last(r).threads| && SafeAccess(Last(r).sh, Last(r).threads[t])
    requires CallStep(Last(r).sh, Last(r).threads[t], th') || ReadStep(cfg, Last(r).sh, Last(r).threads[t], th')
    ensures Run(cfg, r') && r <= r' && Last(r') == State(Last(r).sh, Last(r).threads[t := th']) && |r'| == |r| + 1
  {
    var s' := State(Last(r).sh, Last(r).threads[t := th']);
    assert StepBy(cfg, Last(r), t, s');
    r' := Extend(cfg, r, t, s');
  }

  // ---------- an insert that nobody disturbs ----------

  /** Only the first array exists. */
  predicate OneArray(sh: Shared) {
    && |sh.table| > 0 && HasSub(sh, 0) && sh.num == 1
    && (forall i :: 0 < i < |sh.table| ==> sh.table[i] == Null)
    && 0 < |SubAt(sh, 0).cells| == |SubAt(sh, 0).vals|
  }

  predicate Absent(sub: Sub, k: int) {
    forall c :: 0 <= c < |sub.cells| ==> sub.cells[c] != Live(k)
  }

  /** A thread inserting key k into the first array, with its probe at cell a. */
  function Inserter(pc: Pc, k: int, a: nat): Thread {
    Thread(pc, k, 0, 1, 0, a, 0, NoResult, None, 0)
  }

  function Joined(t: Tid, sub: Sub): Sub {
    sub.(pending := sub.pending + 1, window := sub.window + {t})
  }

  /** State s with thread t at th and the first array replaced. */
  function With(s: State, t: Tid, sub: Sub, th: Thread): State
    requires t < |s.threads| && 0 < |s.sh.table|
  {
    State(PutSub(s.sh, 0, sub), s.threads[t := th])
  }

  /** An idle thread can start an insert, and stands before the first cell. */
  lemma StartInsert(cfg: Config, r: seq<State>, t: Tid, k: int) returns (r': seq<State>)
    requires Run(cfg, r) && t < |Last(r).threads| && Last(r).threads[t].pc.Idle?
    requires OneArray(Last(r).sh) && Absent(SubAt(Last(r).sh, 0), k)
    ensures Run(cfg, r') && r <= r'
    ensures var a := Anchor(cfg.hash(k), |SubAt(Last(r).sh, 0).cells|);
            Last(r') == State(Last(r).sh, Last(r).threads[t := Inserter(IProbe, k, a)])
  {
    var a := Anchor(cfg.hash(k), |SubAt(Last(r).sh, 0).cells|);
    assert !Contains(Last(r).sh, k);
    r' := MoveRead(cfg, r, t, Thread(MBegin, k, 0, 0, 0, 0, 0, NoResult, None, 0));
    r' := MoveRead(cfg, r', t, Inserter(IEnter, k, 0));
    assert EnterSub(cfg, Last(r').sh, Inserter(IEnter, k, 0), IProbe) == Inserter(IProbe, k, a);
    r' := MoveRead(cfg, r', t, Inserter(IProbe, k, a));
    assert Last(r').threads == Last(r).threads[t := Inserter(IProbe, k, a)];
  }

  /** From an empty cell on, it counts itself as pending. */
  lemma JoinWindow(cfg: Config, r: seq<State>, t: Tid, k: int, a: nat) returns (r': seq<State>)
    requires Run(cfg, r) && t < |Last(r).threads| && Last(r).threads[t] == Inserter(IProbe, k, a)
    requires HasSub(Last(r).sh, 0) && a < |SubAt(Last(r).sh, 0).cells| && SubAt(Last(r).sh, 0).cells[a] == Empty
    ensures Run(cfg, r') && r <= r'
    ensures Last(r') == With(Last(r), t, Joined(t, SubAt(Last(r).sh, 0)), Inserter(ILoadFull, k, a))
  {
    r' := MoveRead(cfg, r, t, Inserter(IIncPending, k, a));
    r' := MoveSub(cfg, r', t, Joined(t, SubAt(Last(r).sh, 0)), Inserter(ILoadFull, k, a));
    assert Last(r').threads == Last(r).threads[t := Inserter(ILoadFull, k, a)];
  }

  /** With isFull at zero it goes on to lock the cell. */
  lemma ReachTryLock(cfg: Config, r: seq<State>, t: Tid, k: int, a: nat) returns (r': seq<State>)
    requires Run(cfg, r) && t < |Last(r).threads| && Last(r).threads[t] == Inserter(IProbe, k, a)
    requires HasSub(Last(r).sh, 0) && a < |SubAt(Last(r).sh, 0).cells| && SubAt(Last(r).sh, 0).cells[a] == Empty
    requires SubAt(Last(r).sh, 0).isFull == 0
    ensures Run(cfg, r') && r <= r'
    ensures var sub := SubAt(Last(r).sh, 0);
            Last(r') == With(Last(r), t, Joined(t, sub).(lockers := sub.lockers + {t}), Inserter(ITryLock, k, a))
  {
    var sub := SubAt(Last(r).sh, 0);
    var locking := Joined(t, sub).(lockers := sub.lockers + {t});
    r' := JoinWindow(cfg, r, t, k, a);
    r' := MoveSub(cfg, r', t, locking, Inserter(ITryLock, k, a));
    assert Last(r').threads == Last(r).threads[t := Inserter(ITryLock, k, a)];
    assert Last(r').sh.table == PutSub(Last(r).sh, 0, locking).table;
  }

  /** Its key published and counted, t has left the window. */
  function WithKey(sub: Sub, k: int, a: nat): Sub
    requires a < |sub.cells| == |sub.vals|
  {
    sub.(cells := sub.cells[a := Live(k)], vals := sub.vals[a := Some(0)], entries := sub.entries + 1)
  }

  lemma LockAndUnlock(cfg: Config, r: seq<State>, t: Tid, k: int, a: nat) returns (r': seq<State>)
    requires Run(cfg, r) && t < |Last(r).threads| && Last(r).threads[t] == Inserter(ITryLock, k, a)
    requires HasSub(Last(r).sh, 0)
    requires var sub := SubAt(Last(r).sh, 0); a < |sub.cells| == |sub.vals| && sub.cells[a] == Empty
    ensures Run(cfg, r') && r <= r'
    ensures var sub := SubAt(Last(r).sh, 0);
            Last(r') == With(Last(r), t, sub.(cells := sub.cells[a := Live(k)], vals := sub.vals[a := Some(0)]),
                             Inserter(IDecWon, k, a).(effects := 1))
  {
    var sub := SubAt(Last(r).sh, 0);
    var locked := SetCell(sub, a, Locked(t, k));
    r' := MoveSub(cfg, r, t, locked, Inserter(IConstruct, k, a));
    var built := locked.(vals := sub.vals[a := Some(0)]);
    r' := MoveSub(cfg, r', t, built, Inserter(IUnlock, k, a));
    var live := SetCell(built, a, Live(k));
    r' := MoveSub(cfg, r', t, live, Inserter(IDecWon, k, a).(effects := 1));
    assert live.cells == sub.cells[a := Live(k)];
    assert Last(r').threads == Last(r).threads[t := Inserter(IDecWon, k, a).(effects := 1)];
    assert Last(r').sh.table == PutSub(Last(r).sh, 0, live).table;
  }

  lemma CountUp(cfg: Config, r: seq<State>, t: Tid, k: int, a: nat) returns (r': seq<State>)
    requires Run(cfg, r) && t < |Last(r).threads| && Last(r).threads[t] == Inserter(IDecWon, k, a).(effects := 1)
    requires HasSub(Last(r).sh, 0)
    ensures Run(cfg, r') && r <= r'
    ensures var sub := LeaveWindow(t, SubAt(Last(r).sh, 0));
            Last(r') == With(Last(r), t, sub.(entries := sub.entries + 1),
                             Inserter(IMarkFull, k, a).(effects := 1))
  {
    var sub := LeaveWindow(t, SubAt(Last(r).sh, 0));
    r' := MoveSub(cfg, r, t, sub, Inserter(ICount, k, a).(effects := 1));
    r' := MoveSub(cfg, r', t, sub.(entries := sub.entries + 1), Inserter(ILoadFactor, k, a).(effects := 1));
    r' := MoveRead(cfg, r', t, Inserter(IMarkFull, k, a).(effects := 1));
    assert Last(r').threads == Last(r).threads[t := Inserter(IMarkFull, k, a).(effects := 1)];
    assert Last(r').sh.table == PutSub(Last(r).sh, 0, sub.(entries := sub.entries + 1)).table;
  }

  /** Undisturbed, an insert whose first cell is empty gets as far as storing to isFull. */
  lemma InsertAlone(cfg: Config, r: seq<State>, t: Tid, k: int) returns (r': seq<State>)
    requires Run(cfg, r) && t < |Last(r).threads| && Last(r).threads[t].pc.Idle?
    requires OneArray(Last(r).sh) && Absent(SubAt(Last(r).sh, 0), k)
    requires var sub := SubAt(Last(r).sh, 0);
             && sub.isFull == 0 && t !in sub.window && t !in sub.lockers
             && sub.cells[Anchor(cfg.hash(k), |sub.cells|)] == Empty
    ensures Run(cfg, r') && r <= r'
    ensures var sub := SubAt(Last(r).sh, 0);
            var a := Anchor(cfg.hash(k), |sub.cells|);
            Last(r') == With(Last(r), t, WithKey(sub, k, a), Inserter(IMarkFull, k, a).(effects := 1))
  {
    var sub := SubAt(Last(r).sh, 0);
    var a := Anchor(cfg.hash(k), |sub.cells|);
    r' := StartInsert(cfg, r, t, k);
    r' := ReachTryLock(cfg, r', t, k, a);
    r' := LockAndUnlock(cfg, r', t, k, a);
    r' := CountUp(cfg, r', t, k, a);
    assert sub.window + {t} - {t} == sub.window && sub.lockers + {t} - {t} == sub.lockers;
    assert SubAt(Last(r').sh, 0) == WithKey(sub, k, a);
    assert Last(r').sh.table == PutSub(Last(r).sh, 0, WithKey(sub, k, a)).table;
    assert Last(r').threads == Last(r).threads[t := Inserter(IMarkFull, k, a).(effects := 1)];
  }

  /** The store to isFull, and the return. */
  lemma MarkAndReturn(cfg: Config, r: seq<State>, t: Tid, k: int, a: nat) returns (r': seq<State>)
    requires Run(cfg, r) && t < |Last(r).threads| && HasSub(Last(r).sh, 0)
    requires Last(r).threads[t] == Inserter(IMarkFull, k, a).(effects := 1)
    ensures Run(cfg, r') && r <= r'
    ensures Last(r') == With(Last(r), t, SubAt(Last(r).sh, 0).(isFull := 1),
                             Inserter(Idle, k, a).(effects := 1, res := Inserted))
  {
    var marked := SubAt(Last(r).sh, 0).(isFull := 1);
    r' := MoveSub(cfg, r, t, marked, Inserter(Returned, k, a).(effects := 1, res := Inserted));
    r' := MoveRead(cfg, r', t, Inserter(Idle, k, a).(effects := 1, res := Inserted));
    assert Last(r').threads == Last(r).threads[t := Inserter(Idle, k, a).(effects := 1, res := Inserted)];
  }

  /** Empty array of n cells, and two idle threads. */
  function Start(n: nat): (s: State)
    ensures n > 0 ==> Init(s) && OneArray(s.sh)
  {
    var sub := Sub(seq(n, i => Empty), seq(n, i => None), 0, 0, 0, 0, {}, {});
    var idle := Thread(Idle, 0, 0, 0, 0, 0, 0, NoResult, None, 0);
    State(Shared([Arr(sub)] + seq(MAX_SUBMAPS - 1, i => Null), 1, Nobody), [idle, idle])
  }

  lemma StartRun(cfg: Config, n: nat) returns (r: seq<State>)
    requires n > 0
    ensures Run(cfg, r) && Last(r) == Start(n)
  {
    r := [Start(n)];
  }
}
