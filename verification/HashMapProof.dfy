/** Every step of AtomicHashMap keeps the invariant. */
module HashMapProof {

  import opened Common
  import opened HashProbing
  import opened HashMapState
  import opened HashMapInvariant

  // ---------- steps that write one array ----------

  /** What a writing step needs to know about its own array and cell. */
  ghost predicate SubPre(t: Tid, sub: Sub, th: Thread) {
    && SubInv(sub)
    && Membership(t, sub, true, th)
    && (UsesCell(th.pc) ==> th.idx < |sub.cells|)
    && (OwnsCell(th.pc) ==> sub.cells[th.idx] == Locked(t, th.key))
    && (th.pc.IUnlock? ==> sub.vals[th.idx] == Some(th.val))
    && (th.pc.IStoreFull? ==> Frozen(sub))
  }

  predicate WritesCell(pc: Pc) {
    pc.ITryLock? || pc.IUnlock? || pc.IThrowUnlock? || pc.ECas?
  }

  lemma CellWriteEvolves(t: Tid, a: Sub, c: nat, x: Cell)
    requires c < |a.cells| == |a.vals| && CellEvolve(t, a.cells[c], x)
    requires Frozen(a) && a.cells[c] == Empty ==> x == Empty
    ensures SubEvolve(t, a, SetCell(a, c, x))
  {
  }

  lemma CounterWriteEvolves(t: Tid, a: Sub, b: Sub)
    requires b.cells == a.cells && |b.vals| == |a.vals| == |a.cells|
    requires forall c :: 0 <= c < |a.cells| && !(a.cells[c].Locked? && a.cells[c].owner == t) ==> b.vals[c] == a.vals[c]
    requires a.isFull != 0 ==> b.isFull != 0
    requires Frozen(a) ==> Frozen(b)
    requires b.window == a.window + {t} || b.window == a.window - {t} || b.window == a.window
    requires b.lockers == a.lockers + {t} || b.lockers == a.lockers - {t} || b.lockers == a.lockers
    ensures SubEvolve(t, a, b)
  {
  }

  lemma SubStepEvolves(cfg: Config, t: Tid, sub: Sub, th: Thread, sub': Sub, th': Thread)
    requires SubPre(t, sub, th) && SubStep(cfg, t, sub, th, sub', th')
    ensures SubEvolve(t, sub, sub')
  {
    if WritesCell(th.pc) && sub' != sub {
      CellWriteEvolves(t, sub, th.idx, sub'.cells[th.idx]);
    } else {
      CounterWriteEvolves(t, sub, sub');
    }
  }

  lemma CellWriteInv(t: Tid, sub: Sub, c: nat, x: Cell)
    requires SubInv(sub) && c < |sub.cells|
    requires x.Locked? ==> t in sub.lockers && x.owner == t
    requires x.Live? || x.Erased? ==> sub.vals[c].Some?
    ensures SubInv(SetCell(sub, c, x))
  {
  }

  lemma LeaveWindowInv(t: Tid, sub: Sub)
    requires SubInv(sub) && t in sub.window
    requires forall c :: 0 <= c < |sub.cells| && sub.cells[c].Locked? ==> sub.cells[c].owner != t
    ensures SubInv(LeaveWindow(t, sub))
  {
  }

  predicate Leaves(pc: Pc) {
    pc.IDecFull? || pc.IThrowDec? || pc.IDecLost? || pc.IDecWon?
  }

  lemma SubStepInv(cfg: Config, t: Tid, sub: Sub, th: Thread, sub': Sub, th': Thread)
    requires SubPre(t, sub, th) && SubStep(cfg, t, sub, th, sub', th')
    ensures SubInv(sub')
  {
    if WritesCell(th.pc) {
      if sub' != sub {
        CellWriteInv(t, sub, th.idx, sub'.cells[th.idx]);
      }
    } else if Leaves(th.pc) {
      LeaveWindowInv(t, sub);
    } else {
      OtherWriteInv(cfg, t, sub, th, sub', th');
    }
  }

  lemma OtherWriteInv(cfg: Config, t: Tid, sub: Sub, th: Thread, sub': Sub, th': Thread)
    requires SubPre(t, sub, th) && SubStep(cfg, t, sub, th, sub', th')
    requires !WritesCell(th.pc) && !Leaves(th.pc)
    ensures SubInv(sub')
  {
    match th.pc
    case IIncPending => case ILoadFull => case IStoreFull => case IConstruct =>
    case _ =>
  }

  lemma SubStepWindowCounters(cfg: Config, t: Tid, sub: Sub, th: Thread, sub': Sub, th': Thread)
    requires UsesCell(th.pc) ==> th.idx < |sub.cells|
    requires SubStep(cfg, t, sub, th, sub', th') && !WritesCell(th.pc)
    requires t in sub.window <==> InWindow(th.pc)
    requires t in sub.lockers <==> InLockers(th.pc)
    ensures t in sub'.window <==> InWindow(th'.pc)
    ensures t in sub'.lockers <==> InLockers(th'.pc)
    ensures th'.i == th.i
  {
    match th.pc
    case IIncPending => case ILoadFull => case IDecFull => case IStoreFull =>
    case IConstruct => case IThrowDec => case IDecLost => case IDecWon =>
    case _ =>
  }

  lemma SubStepWindow(cfg: Config, t: Tid, sub: Sub, th: Thread, sub': Sub, th': Thread)
    requires SubPre(t, sub, th) && SubStep(cfg, t, sub, th, sub', th')
    ensures t in sub'.window <==> InWindow(th'.pc)
    ensures t in sub'.lockers <==> InLockers(th'.pc)
    ensures th'.i != th.i ==> !InWindow(th'.pc)
  {
    if !WritesCell(th.pc) {
      SubStepWindowCounters(cfg, t, sub, th, sub', th');
    }
  }

  lemma SubStepLocked(cfg: Config, t: Tid, sub: Sub, th: Thread, sub': Sub, th': Thread, c: nat)
    requires SubPre(t, sub, th) && SubStep(cfg, t, sub, th, sub', th')
    requires c < |sub'.cells| && sub'.cells[c].Locked? && sub'.cells[c].owner == t
    ensures th'.i == th.i && OwnsCell(th'.pc) && c == th'.idx
  {
  }

  lemma SubStepMembership(cfg: Config, t: Tid, sub: Sub, th: Thread, sub': Sub, th': Thread)
    requires SubPre(t, sub, th) && SubStep(cfg, t, sub, th, sub', th')
    ensures Membership(t, sub', th'.i == th.i, th')
  {
    SubStepWindow(cfg, t, sub, th, sub', th');
    forall c | 0 <= c < |sub'.cells| && sub'.cells[c].Locked? && sub'.cells[c].owner == t
      ensures th'.i == th.i && OwnsCell(th'.pc) && c == th'.idx
    {
      SubStepLocked(cfg, t, sub, th, sub', th', c);
    }
  }

  lemma PreFromInv(cfg: Config, t: Tid, sh: Shared, th: Thread)
    requires SharedInv(cfg, sh) && ThreadInv(cfg, t, sh, th) && UsesSub(th.pc) && SafeAccess(sh, th)
    ensures SubPre(t, SubAt(sh, th.i), th)
  {
    assert Membership(t, SubAt(sh, th.i), th.i == th.i, th);
  }

  lemma PutSubEvolves(t: Tid, sh: Shared, i: nat, sub': Sub)
    requires HasSub(sh, i) && SubEvolve(t, SubAt(sh, i), sub')
    requires forall j :: HasSub(sh, j) ==> SubInv(SubAt(sh, j))
    ensures Evolve(t, sh, PutSub(sh, i, sub'))
  {
    var sh' := PutSub(sh, i, sub');
    forall j | HasSub(sh, j) ensures HasSub(sh', j) && SubEvolve(t, SubAt(sh, j), SubAt(sh', j)) {
      if j != i {
        assert SubAt(sh', j) == SubAt(sh, j);
      }
    }
  }

  /** Only a successful tryLockCell makes a cell occupied by a new key. */
  lemma SubStepOccupies(cfg: Config, t: Tid, sub: Sub, th: Thread, sub': Sub, th': Thread, c: nat, k: int)
    requires SubPre(t, sub, th) && SubStep(cfg, t, sub, th, sub', th')
    requires c < |sub.cells| && |sub'.cells| == |sub.cells| && OccupiedBy(sub'.cells[c], k)
    ensures OccupiedBy(sub.cells[c], k) || (th.pc.ITryLock? && c == th.idx && k == th.key)
  {
  }

  lemma SubStepCells(cfg: Config, t: Tid, sh: Shared, th: Thread, sub': Sub, th': Thread, i: nat, c: nat, k: int)
    requires SharedInv(cfg, sh) && ThreadInv(cfg, t, sh, th) && UsesSub(th.pc) && SafeAccess(sh, th)
    requires SubStep(cfg, t, SubAt(sh, th.i), th, sub', th')
    requires HasSub(sh, i)
    ensures CellInv(cfg, PutSub(sh, th.i, sub'), i, c, k)
  {
    PreFromInv(cfg, t, sh, th);
    var sub := SubAt(sh, th.i);
    SubStepEvolves(cfg, t, sub, th, sub', th');
    var sh' := PutSub(sh, th.i, sub');
    PutSubEvolves(t, sh, th.i, sub');
    var after := SubAt(sh', i);
    if c < |after.cells| && OccupiedBy(after.cells[c], k) {
      if i == th.i {
        SubStepOccupies(cfg, t, sub, th, sub', th', c, k);
        if !OccupiedBy(sub.cells[c], k) {
          assert PlacedAt(cfg, sub.cells, k, c, th.n);
        }
      }
      assert CellInv(cfg, sh, i, c, k);
      PlacedStable(cfg, t, SubAt(sh, i), after, k, c);
      FullBeforeStable(cfg, t, sh, sh', k, i);
    }
  }

  lemma SubStepShared(cfg: Config, t: Tid, sh: Shared, th: Thread, sub': Sub, th': Thread)
    requires SharedInv(cfg, sh) && ThreadInv(cfg, t, sh, th) && UsesSub(th.pc) && SafeAccess(sh, th)
    requires SubStep(cfg, t, SubAt(sh, th.i), th, sub', th')
    ensures SharedInv(cfg, PutSub(sh, th.i, sub')) && Evolve(t, sh, PutSub(sh, th.i, sub'))
  {
    hide SubStep, ThreadInv;
    PreFromInv(cfg, t, sh, th);
    var sh' := PutSub(sh, th.i, sub');
    SubStepEvolves(cfg, t, SubAt(sh, th.i), th, sub', th');
    SubStepInv(cfg, t, SubAt(sh, th.i), th, sub', th');
    PutSubEvolves(t, sh, th.i, sub');
    forall i | HasSub(sh', i) ensures SubInv(SubAt(sh', i)) {
      assert i != th.i ==> SubAt(sh', i) == SubAt(sh, i);
    }
    forall i, c: nat, k | HasSub(sh', i) ensures CellInv(cfg, sh', i, c, k) {
      SubStepCells(cfg, t, sh, th, sub', th', i, c, k);
    }
  }

  lemma SubStepMemberships(cfg: Config, t: Tid, sh: Shared, th: Thread, sub': Sub, th': Thread)
    requires SharedInv(cfg, sh) && ThreadInv(cfg, t, sh, th) && UsesSub(th.pc) && SafeAccess(sh, th)
    requires SubStep(cfg, t, SubAt(sh, th.i), th, sub', th')
    ensures forall i :: HasSub(PutSub(sh, th.i, sub'), i) ==>
              Membership(t, SubAt(PutSub(sh, th.i, sub'), i), i == th'.i, th')
  {
    PreFromInv(cfg, t, sh, th);
    var sh' := PutSub(sh, th.i, sub');
    SubStepMembership(cfg, t, SubAt(sh, th.i), th, sub', th');
    SubStepWindow(cfg, t, SubAt(sh, th.i), th, sub', th');
    forall i | HasSub(sh', i) ensures Membership(t, SubAt(sh', i), i == th'.i, th') {
      if i != th.i {
        assert SubAt(sh', i) == SubAt(sh, i) && Membership(t, SubAt(sh, i), false, th);
      }
    }
  }

  // ---------- steps that write the table ----------

  /** What a step of thread t may do to the table. */
  ghost predicate TableChange(t: Tid, a: Shared, b: Shared) {
    && |a.table| == |b.table| && a.num <= b.num
    && (forall i :: HasSub(a, i) ==> HasSub(b, i) && SubAt(b, i) == SubAt(a, i))
    && (forall i :: HasSub(b, i) && !HasSub(a, i) ==> IsNewSub(SubAt(b, i)))
    && (a.grower.Gone? ==> b.grower.Gone? && b.num == a.num)
    && (b.num == a.num < |a.table| && a.table[a.num] != Null ==> b.table[a.num] != Null)
    && (forall u :: u != t ==> (a.grower == Building(u) <==> b.grower == Building(u)))
    && (forall u :: u != t && a.grower == Building(u) && a.num < |a.table| ==>
          b.num == a.num && (a.table[a.num] == LockedPtr ==> b.table[a.num] == LockedPtr))
  }

  lemma LockMapStep(cfg: Config, t: Tid, sh: Shared, th: Thread, sh': Shared, th': Thread)
    requires TableInv(sh) && GrowerInv(t, sh, th) && InsertInv(cfg, t, sh, th)
    requires TableStep(cfg, t, sh, th, sh', th') && th.pc.MLockMap?
    ensures TableInv(sh') && TableChange(t, sh, sh') && GrowerInv(t, sh', th')
  {
    if sh.table[th.next] == Null {
      assert th.next == sh.num;
    }
  }

  lemma StoreMapStep(cfg: Config, t: Tid, sh: Shared, th: Thread, sh': Shared, th': Thread)
    requires TableInv(sh) && GrowerInv(t, sh, th)
    requires TableStep(cfg, t, sh, th, sh', th') && th.pc.MStoreMap?
    ensures TableInv(sh') && TableChange(t, sh, sh') && GrowerInv(t, sh', th')
  {
  }

  lemma PublishStep(cfg: Config, t: Tid, sh: Shared, th: Thread, sh': Shared, th': Thread)
    requires TableInv(sh) && GrowerInv(t, sh, th)
    requires TableStep(cfg, t, sh, th, sh', th') && th.pc.MPublish?
    ensures TableInv(sh') && TableChange(t, sh, sh') && GrowerInv(t, sh', th')
  {
  }

  lemma TableStepTable(cfg: Config, t: Tid, sh: Shared, th: Thread, sh': Shared, th': Thread)
    requires TableInv(sh) && GrowerInv(t, sh, th) && InsertInv(cfg, t, sh, th)
    requires TableStep(cfg, t, sh, th, sh', th')
    ensures TableInv(sh') && TableChange(t, sh, sh') && GrowerInv(t, sh', th')
  {
    match th.pc
    case MLockMap => LockMapStep(cfg, t, sh, th, sh', th');
    case MStoreMap => StoreMapStep(cfg, t, sh, th, sh', th');
    case MPublish => PublishStep(cfg, t, sh, th, sh', th');
  }

  lemma SubEvolveRefl(t: Tid, sub: Sub)
    requires SubInv(sub)
    ensures SubEvolve(t, sub, sub)
  {
  }

  lemma EvolveFromTable(t: Tid, a: Shared, b: Shared)
    requires TableChange(t, a, b) && forall i :: HasSub(a, i) ==> SubInv(SubAt(a, i))
    ensures Evolve(t, a, b)
  {
    forall i | HasSub(a, i) ensures SubEvolve(t, SubAt(a, i), SubAt(b, i)) {
      SubEvolveRefl(t, SubAt(a, i));
    }
  }

  lemma TableStepShared(cfg: Config, t: Tid, sh: Shared, th: Thread, sh': Shared, th': Thread)
    requires SharedInv(cfg, sh) && ThreadInv(cfg, t, sh, th) && TableStep(cfg, t, sh, th, sh', th')
    ensures SharedInv(cfg, sh') && Evolve(t, sh, sh')
  {
    TableStepTable(cfg, t, sh, th, sh', th');
    EvolveFromTable(t, sh, sh');
    forall i, c: nat, k | HasSub(sh', i) ensures CellInv(cfg, sh', i, c, k) {
      if HasSub(sh, i) {
        assert CellInv(cfg, sh, i, c, k);
        if c < |SubAt(sh, i).cells| && OccupiedBy(SubAt(sh, i).cells[c], k) {
          FullBeforeStable(cfg, t, sh, sh', k, i);
        }
      }
    }
  }

  // ---------- the acting thread: insert ----------

  lemma ExtendFullBefore(cfg: Config, sh: Shared, k: int, i: nat, n: nat)
    requires FullBefore(cfg, sh, k, i) && HasSub(sh, i) && FullAt(cfg, SubAt(sh, i), k, n)
    ensures FullBefore(cfg, sh, k, i + 1)
  {
  }

  lemma SubFullInv(cfg: Config, t: Tid, sh: Shared, th: Thread, n: nat)
    requires TableInv(sh) && InsertInv(cfg, t, sh, th) && Searching(th.pc)
    requires FullAt(cfg, SubAt(sh, th.i), th.key, n)
    ensures InsertInv(cfg, t, sh, SubFull(th))
  {
    ExtendFullBefore(cfg, sh, th.key, th.i, n);
  }

  /** A move inside the array search that keeps the position. */
  lemma StaySearching(cfg: Config, t: Tid, sh: Shared, th: Thread, pc: Pc)
    requires InsertInv(cfg, t, sh, th) && Searching(th.pc) && Searching(pc)
    requires SearchInv(cfg, t, SubAt(sh, th.i), Go(th, pc))
    ensures InsertInv(cfg, t, sh, Go(th, pc))
  {
  }

  lemma AdvanceSearch(cfg: Config, t: Tid, sub: Sub, th: Thread)
    requires SearchInv(cfg, t, sub, th) && th.n + 1 < |sub.cells| && Passed(cfg, sub.cells, th.key, th.n + 1)
    ensures SearchInv(cfg, t, sub, InsertAdvance(cfg, |sub.cells|, th))
  {
  }

  lemma PassOne(cfg: Config, t: Tid, sub: Sub, th: Thread)
    requires SearchInv(cfg, t, sub, th) && SettledNot(sub.cells[th.idx], th.key)
    ensures Passed(cfg, sub.cells, th.key, th.n + 1)
  {
  }

  lemma InsertAdvanceInv(cfg: Config, t: Tid, sh: Shared, th: Thread)
    requires TableInv(sh) && InsertInv(cfg, t, sh, th) && Searching(th.pc)
    requires SettledNot(SubAt(sh, th.i).cells[th.idx], th.key)
    ensures InsertInv(cfg, t, sh, InsertAdvance(cfg, |SubAt(sh, th.i).cells|, th))
  {
    var sub := SubAt(sh, th.i);
    PassOne(cfg, t, sub, th);
    if th.n + 1 >= |sub.cells| {
      SubFullInv(cfg, t, sh, th, th.n + 1);
    } else {
      AdvanceSearch(cfg, t, sub, th);
    }
  }

  lemma SearchReadMoves(cfg: Config, sh: Shared, th: Thread, th': Thread)
    requires SafeAccess(sh, th) && HasSub(sh, th.i)
    requires Searching(th.pc) && !th.pc.ICompare? && ReadStep(cfg, sh, th, th')
    requires th.pc.IRecheck? ==> SubAt(sh, th.i).cells[th.idx] != Empty
    ensures th' == Go(th, th'.pc) && Searching(th'.pc) && !OwnsCell(th'.pc) && !th'.pc.IDecFull?
    ensures th'.pc.ISpinFull? || th'.pc.ISpinPending? ==> th.pc.ISpinFull? || th.pc.ISpinPending?
    ensures th'.pc.IStoreFull? ==>
              (th.pc.ISpinFull? && SubAt(sh, th.i).isFull == 2) || (th.pc.ISpinPending? && SubAt(sh, th.i).pending == 0)
    ensures !th'.pc.IRecheck?
  {
  }

  lemma SearchReadStep(cfg: Config, t: Tid, sh: Shared, th: Thread, th': Thread)
    requires TableInv(sh) && SafeAccess(sh, th) && InsertInv(cfg, t, sh, th)
    requires HasSub(sh, th.i) && SubInv(SubAt(sh, th.i))
    requires Searching(th.pc) && !th.pc.ICompare? && ReadStep(cfg, sh, th, th')
    ensures InsertInv(cfg, t, sh, th')
  {
    if th.pc.IRecheck? && SubAt(sh, th.i).cells[th.idx] == Empty {
      SubFullInv(cfg, t, sh, th, th.n);
    } else {
      SearchReadMoves(cfg, sh, th, th');
      PendingZero(SubAt(sh, th.i));
      StaySearching(cfg, t, sh, th, th'.pc);
    }
  }

  /** A pending count of zero seen after isFull was set means nobody can insert any more. */
  lemma PendingZero(sub: Sub)
    requires SubInv(sub)
    ensures sub.isFull != 0 && sub.pending == 0 ==> Frozen(sub)
  {
    assert sub.pending == 0 ==> sub.window == {};
  }

  lemma CompareStep(cfg: Config, t: Tid, sh: Shared, th: Thread, th': Thread)
    requires TableInv(sh) && SafeAccess(sh, th) && InsertInv(cfg, t, sh, th)
    requires th.pc.ICompare? && ReadStep(cfg, sh, th, th')
    ensures InsertInv(cfg, t, sh, th')
  {
    var cell := SubAt(sh, th.i).cells[th.idx];
    if SettledNot(cell, th.key) {
      InsertAdvanceInv(cfg, t, sh, th);
    } else if th'.pc.IProbe? {
      StaySearching(cfg, t, sh, th, IProbe);
    }
  }

  lemma InsertReadStep(cfg: Config, t: Tid, sh: Shared, th: Thread, th': Thread)
    requires SharedInv(cfg, sh) && SafeAccess(sh, th) && InsertInv(cfg, t, sh, th)
    requires ReadStep(cfg, sh, th, th')
    ensures InsertInv(cfg, t, sh, th')
  {
    if th.pc.ICompare? {
      CompareStep(cfg, t, sh, th, th');
    } else if Searching(th.pc) {
      SearchReadStep(cfg, t, sh, th, th');
    } else {
      OtherReadStep(cfg, t, sh, th, th');
    }
  }

  predicate ScanPc(pc: Pc) {
    pc.FEnter? || pc.FProbe? || pc.FLoadNum? || pc.ELoadNum? || pc.EEnter? || pc.EProbe? || pc.ECas?
  }

  lemma ScanStaysScan(cfg: Config, sh: Shared, th: Thread, th': Thread)
    requires SafeAccess(sh, th) && ScanPc(th.pc) && ReadStep(cfg, sh, th, th')
    ensures ScanPc(th'.pc) || (th'.pc.Returned? && (th'.res == Miss || th'.res == Hit || th'.res == ErasedNone))
    ensures th'.effects == th.effects && th'.held == th.held && th'.key == th.key
  {
  }

  lemma NoInsertPc(cfg: Config, t: Tid, sh: Shared, th: Thread)
    requires ScanPc(th.pc) || th.pc.ECount? || th.pc.Idle?
             || (th.pc.Returned? && th.res != Inserted && th.res != Exists)
    ensures InsertInv(cfg, t, sh, th)
  {
    assert !Growing(th.pc) && !Searching(th.pc) && !AfterInsert(th) && !th.pc.IEnter? && !th.pc.IThrowDec?;
  }

  lemma EnterStep(cfg: Config, t: Tid, sh: Shared, th: Thread, th': Thread)
    requires SafeAccess(sh, th) && InsertInv(cfg, t, sh, th)
    requires th.pc.IEnter? && ReadStep(cfg, sh, th, th')
    ensures InsertInv(cfg, t, sh, th')
  {
    assert SearchInv(cfg, t, SubAt(sh, th.i), th');
  }

  lemma OtherReadStep(cfg: Config, t: Tid, sh: Shared, th: Thread, th': Thread)
    requires TableInv(sh) && SafeAccess(sh, th) && InsertInv(cfg, t, sh, th)
    requires !Searching(th.pc) && ReadStep(cfg, sh, th, th')
    ensures InsertInv(cfg, t, sh, th')
  {
    match th.pc
    case Returned => NoInsertPc(cfg, t, sh, th');
    case IEnter => EnterStep(cfg, t, sh, th, th');
    case MBegin => MapReadStep(cfg, t, sh, th, th');
    case MGrow => MapReadStep(cfg, t, sh, th, th');
    case MWaitMap => MapReadStep(cfg, t, sh, th, th');
    case ILoadFactor => MapReadStep(cfg, t, sh, th, th');
    case _ =>
      ScanStaysScan(cfg, sh, th, th');
      NoInsertPc(cfg, t, sh, th');
  }

  lemma MapReadStep(cfg: Config, t: Tid, sh: Shared, th: Thread, th': Thread)
    requires TableInv(sh) && InsertInv(cfg, t, sh, th) && SafeAccess(sh, th)
    requires th.pc.MBegin? || th.pc.MGrow? || th.pc.MWaitMap? || th.pc.ILoadFactor?
    requires ReadStep(cfg, sh, th, th')
    ensures InsertInv(cfg, t, sh, th')
  {
    match th.pc
    case MGrow => if th'.pc.Returned? { NoInsertPc(cfg, t, sh, th'); } else { GrowingIn(cfg, t, sh, th'); }
    case MWaitMap => if th'.pc.IEnter? { EnteringIn(cfg, t, sh, th'); }
    case MBegin => if th'.pc.IEnter? { EnteringIn(cfg, t, sh, th'); }
    case _ =>
  }

  lemma SearchSubStep(cfg: Config, t: Tid, sub: Sub, th: Thread, sub': Sub, th': Thread)
    requires SubPre(t, sub, th) && SearchInv(cfg, t, sub, th) && Searching(th.pc)
    requires SubStep(cfg, t, sub, th, sub', th') && SubEvolve(t, sub, sub') && Searching(th'.pc)
    ensures th' == Go(th, th'.pc) && SearchInv(cfg, t, sub', th')
  {
    PassedStable(cfg, t, sub, sub', th.key, th.n);
    SearchMoves(cfg, t, sub, th, sub', th');
  }

  lemma SearchMoves(cfg: Config, t: Tid, sub: Sub, th: Thread, sub': Sub, th': Thread)
    requires SubPre(t, sub, th) && Searching(th.pc) && |sub.vals| == |sub.cells|
    requires SubStep(cfg, t, sub, th, sub', th') && Searching(th'.pc)
    ensures th' == Go(th, th'.pc)
    ensures OwnsCell(th'.pc) ==> th.idx < |sub'.cells| && sub'.cells[th.idx] == Locked(t, th.key)
    ensures th'.pc.IUnlock? ==> th.idx < |sub'.vals| && sub'.vals[th.idx] == Some(th.val)
    ensures th'.pc.IDecFull? || th'.pc.ISpinFull? ==> th.pc.IDecFull? || sub.isFull != 0
    ensures th'.pc.IDecFull? || th'.pc.ISpinFull? ==> sub'.isFull == sub.isFull
    ensures !th'.pc.ISpinPending? && !th'.pc.IStoreFull?
    ensures th'.pc.IRecheck? ==> Frozen(sub')
  {
    match th.pc
    case IIncPending => case ILoadFull => case IDecFull => case IStoreFull =>
    case ITryLock => case IConstruct => case IUnlock => case IThrowUnlock =>
    case _ =>
  }

  /** A thread leaves the search by a write only when it unlocks its cell. */
  lemma SearchLeaves(cfg: Config, t: Tid, sub: Sub, th: Thread, sub': Sub, th': Thread)
    requires SubPre(t, sub, th) && Searching(th.pc)
    requires SubStep(cfg, t, sub, th, sub', th') && !Searching(th'.pc)
    ensures th'.pc.IThrowDec? || (th'.pc.IDecWon? && WasHere(sub', th') && sub'.vals == sub.vals)
    ensures th'.pc.IDecWon? ==> sub.vals[th.idx] == Some(th.val)
    ensures th'.i == th.i && th'.idx == th.idx && th'.val == th.val
  {
  }

  lemma SearchingIn(cfg: Config, t: Tid, sh: Shared, th: Thread)
    requires Searching(th.pc) && th.i <= th.next <= sh.num && th.i < sh.num
    requires HasSub(sh, th.i) && FullBefore(cfg, sh, th.key, th.i) && SearchInv(cfg, t, SubAt(sh, th.i), th)
    ensures InsertInv(cfg, t, sh, th)
  {
  }

  lemma InsertSearchWrite(cfg: Config, t: Tid, sh: Shared, th: Thread, sub': Sub, th': Thread)
    requires SharedInv(cfg, sh) && ThreadInv(cfg, t, sh, th) && Searching(th.pc) && SafeAccess(sh, th) && UsesSub(th.pc)
    requires SubStep(cfg, t, SubAt(sh, th.i), th, sub', th')
    ensures InsertInv(cfg, t, PutSub(sh, th.i, sub'), th')
  {
    var sub, sh' := SubAt(sh, th.i), PutSub(sh, th.i, sub');
    PreFromInv(cfg, t, sh, th);
    SubStepEvolves(cfg, t, sub, th, sub', th');
    if Searching(th'.pc) {
      SearchSubStep(cfg, t, sub, th, sub', th');
      PutSubEvolves(t, sh, th.i, sub');
      FullBeforeStable(cfg, t, sh, sh', th.key, th.i);
      SearchingIn(cfg, t, sh', th');
    } else {
      SearchLeaves(cfg, t, sub, th, sub', th');
      if th'.pc.IDecWon? {
        AfterInsertIn(cfg, t, sh', th');
      } else {
        assert !AfterInsert(th') && !Growing(th'.pc);
      }
    }
  }

  lemma WasHereStable(t: Tid, sub: Sub, sub': Sub, th: Thread)
    requires SubEvolve(t, sub, sub') && WasHere(sub, th)
    ensures WasHere(sub', th) && sub'.vals[th.idx] == sub.vals[th.idx]
  {
    assert CellEvolve(t, sub.cells[th.idx], sub'.cells[th.idx]);
  }

  lemma InsertSubStep(cfg: Config, t: Tid, sh: Shared, th: Thread, sub': Sub, th': Thread)
    requires SharedInv(cfg, sh) && ThreadInv(cfg, t, sh, th) && UsesSub(th.pc) && SafeAccess(sh, th)
    requires SubStep(cfg, t, SubAt(sh, th.i), th, sub', th')
    ensures InsertInv(cfg, t, PutSub(sh, th.i, sub'), th')
  {
    if Searching(th.pc) {
      InsertSearchWrite(cfg, t, sh, th, sub', th');
    } else if AfterInsert(th) {
      PreFromInv(cfg, t, sh, th);
      SubStepEvolves(cfg, t, SubAt(sh, th.i), th, sub', th');
      WasHereStable(t, SubAt(sh, th.i), sub', th);
      AfterInsertStep(cfg, t, SubAt(sh, th.i), th, sub', th');
      AfterInsertIn(cfg, t, PutSub(sh, th.i, sub'), th');
    } else {
      EraseWrites(cfg, t, SubAt(sh, th.i), th, sub', th');
      NoInsertPc(cfg, t, PutSub(sh, th.i, sub'), th');
    }
  }

  lemma AfterInsertIn(cfg: Config, t: Tid, sh: Shared, th: Thread)
    requires AfterInsert(th) && HasSub(sh, th.i) && WasHere(SubAt(sh, th.i), th)
    requires th.idx < |SubAt(sh, th.i).vals| && SubAt(sh, th.i).vals[th.idx] == Some(th.val)
    ensures InsertInv(cfg, t, sh, th)
  {
    assert !Searching(th.pc) && !Growing(th.pc) && !th.pc.IEnter? && !th.pc.IThrowDec?;
  }

  lemma AfterInsertStep(cfg: Config, t: Tid, sub: Sub, th: Thread, sub': Sub, th': Thread)
    requires AfterInsert(th) && SubStep(cfg, t, sub, th, sub', th')
    ensures AfterInsert(th') && th' == th.(pc := th'.pc, res := th'.res)
  {
  }

  lemma EraseWrites(cfg: Config, t: Tid, sub: Sub, th: Thread, sub': Sub, th': Thread)
    requires UsesCell(th.pc) ==> th.idx < |sub.cells|
    requires !AfterInsert(th) && !Searching(th.pc) && SubStep(cfg, t, sub, th, sub', th')
    ensures ScanPc(th'.pc) || th'.pc.ECount? || (th'.pc.Returned? && (th'.res != Inserted && th'.res != Exists))
    ensures th'.held == th.held && th'.key == th.key
  {
  }

  lemma InsertTableStep(cfg: Config, t: Tid, sh: Shared, th: Thread, sh': Shared, th': Thread)
    requires SharedInv(cfg, sh) && ThreadInv(cfg, t, sh, th) && TableStep(cfg, t, sh, th, sh', th')
    ensures InsertInv(cfg, t, sh', th')
  {
    TableStepShared(cfg, t, sh, th, sh', th');
    FullBeforeStable(cfg, t, sh, sh', th.key, th.next);
    GrowthMoves(cfg, t, sh, th, sh', th');
    if th'.pc.IEnter? {
      EnteringIn(cfg, t, sh', th');
    } else if th'.pc.Returned? {
      NoInsertPc(cfg, t, sh', th');
    } else {
      GrowingIn(cfg, t, sh', th');
    }
  }

  lemma GrowthMoves(cfg: Config, t: Tid, sh: Shared, th: Thread, sh': Shared, th': Thread)
    requires TableStep(cfg, t, sh, th, sh', th') && GrowerInv(t, sh, th) && TableInv(sh)
    ensures Growing(th.pc) && !th.pc.MGrow? && th'.next == th.next && th'.key == th.key
    ensures th'.pc.IEnter? || (Growing(th'.pc) && !th'.pc.MGrow?) || (th'.pc.Returned? && th'.res == Threw)
    ensures th'.pc.IEnter? ==> th'.i == th.next < sh'.num && HasSub(sh', th.next)
  {
  }

  lemma GrowingIn(cfg: Config, t: Tid, sh: Shared, th: Thread)
    requires Growing(th.pc) && th.next < MAX_SUBMAPS && th.next <= sh.num && FullBefore(cfg, sh, th.key, th.next)
    ensures InsertInv(cfg, t, sh, th)
  {
    assert !Searching(th.pc) && !AfterInsert(th);
  }

  lemma EnteringIn(cfg: Config, t: Tid, sh: Shared, th: Thread)
    requires th.pc.IEnter? && th.i <= th.next <= sh.num && th.i < sh.num
    requires HasSub(sh, th.i) && FullBefore(cfg, sh, th.key, th.i)
    ensures InsertInv(cfg, t, sh, th)
  {
    assert !Searching(th.pc) && !AfterInsert(th) && !Growing(th.pc);
  }

  // ---------- the acting thread: find and erase ----------

  /** A cell that still holds the key sits ahead on the probe sequence of its array. */
  lemma HeldPosition(cfg: Config, sh: Shared, th: Thread) returns (p: nat)
    requires SharedInv(cfg, sh) && HeldLive(sh, th)
    ensures var at := th.held.value;
            && HasSub(sh, at.map_) && at.map_ < sh.num
            && PlacedAt(cfg, SubAt(sh, at.map_).cells, th.key, at.cell, p)
  {
    var at := th.held.value;
    assert CellInv(cfg, sh, at.map_, at.cell, th.key);
    p :| PlacedAt(cfg, SubAt(sh, at.map_).cells, th.key, at.cell, p);
  }

  /** If the key is still where it was and in the scanned array, the scan is not past it
      and the cell under it is either that cell or settled with another key. */
  lemma ScanMeetsHeld(cfg: Config, sh: Shared, th: Thread)
    requires SharedInv(cfg, sh) && ScanInv(cfg, sh, th) && HeldLive(sh, th) && th.i == th.held.value.map_
    ensures th.idx == th.held.value.cell ||
            (SettledNot(SubAt(sh, th.i).cells[th.idx], th.key) && th.n + 1 < |SubAt(sh, th.i).cells|)
  {
    var p := HeldPosition(cfg, sh, th);
  }

  lemma ScanAdvance(cfg: Config, sh: Shared, th: Thread, th': Thread, pc: Pc)
    requires ScanInv(cfg, sh, th) && th.n + 1 < |SubAt(sh, th.i).cells|
    requires HeldLive(sh, th) && th.i == th.held.value.map_ ==> th.idx != th.held.value.cell
    requires th' == th.(pc := pc, n := th.n + 1,
                        idx := NextProbe(cfg.kind, th.idx, th.n + 1, |SubAt(sh, th.i).cells|))
    ensures ScanInv(cfg, sh, th')
  {
  }

  lemma FindProbeStep(cfg: Config, sh: Shared, th: Thread, th': Thread)
    requires SharedInv(cfg, sh) && HeldInv(sh, th) && FindInv(cfg, sh, th) && SafeAccess(sh, th)
    requires th.pc.FProbe? && ReadStep(cfg, sh, th, th')
    ensures FindInv(cfg, sh, th')
  {
    if HeldLive(sh, th) {
      var p := HeldPosition(cfg, sh, th);
      if th.i == th.held.value.map_ {
        ScanMeetsHeld(cfg, sh, th);
      }
    }
    if th'.pc.FProbe? {
      ScanAdvance(cfg, sh, th, th', FProbe);
    }
  }

  lemma EraseProbeStep(cfg: Config, sh: Shared, th: Thread, th': Thread)
    requires SharedInv(cfg, sh) && HeldInv(sh, th) && EraseInv(cfg, sh, th) && SafeAccess(sh, th)
    requires th.pc.EProbe? && ReadStep(cfg, sh, th, th')
    ensures EraseInv(cfg, sh, th')
  {
    if HeldLive(sh, th) {
      var p := HeldPosition(cfg, sh, th);
      if th.i == th.held.value.map_ {
        ScanMeetsHeld(cfg, sh, th);
      }
    }
    if th'.pc.ECas? && HeldLive(sh, th) {
      OneCellPerKey(cfg, sh, th.key, th.held.value, Loc(th.i, th.idx));
    }
    if th'.pc.EProbe? {
      ScanAdvance(cfg, sh, th, th', EProbe);
    }
  }

  lemma FindOtherStep(cfg: Config, sh: Shared, th: Thread, th': Thread)
    requires SharedInv(cfg, sh) && HeldInv(sh, th) && FindInv(cfg, sh, th) && SafeAccess(sh, th)
    requires (th.pc.FEnter? || th.pc.FLoadNum?) && ReadStep(cfg, sh, th, th')
    ensures FindInv(cfg, sh, th')
  {
    if HeldLive(sh, th) {
      var p := HeldPosition(cfg, sh, th);
    }
  }

  lemma EraseOtherStep(cfg: Config, sh: Shared, th: Thread, th': Thread)
    requires SharedInv(cfg, sh) && HeldInv(sh, th) && EraseInv(cfg, sh, th) && SafeAccess(sh, th)
    requires (th.pc.EEnter? || th.pc.ELoadNum?) && ReadStep(cfg, sh, th, th')
    ensures EraseInv(cfg, sh, th')
  {
    if HeldLive(sh, th) {
      var p := HeldPosition(cfg, sh, th);
    }
  }

  predicate FindPc(th: Thread) {
    th.pc.FEnter? || th.pc.FProbe? || th.pc.FLoadNum? || (th.pc.Returned? && (th.res == Hit || th.res == Miss))
  }

  predicate ErasePc(th: Thread) {
    || th.pc.ELoadNum? || th.pc.EEnter? || th.pc.EProbe? || th.pc.ECas? || th.pc.ECount?
    || (th.pc.Returned? && (th.res == ErasedOne || th.res == ErasedNone))
  }

  /** A read step stays inside its call. */
  lemma ReadStepKind(cfg: Config, sh: Shared, th: Thread, th': Thread)
    requires SafeAccess(sh, th) && ReadStep(cfg, sh, th, th')
    ensures FindPc(th') ==> th.pc.FEnter? || th.pc.FProbe? || th.pc.FLoadNum?
    ensures ErasePc(th') ==> th.pc.ELoadNum? || th.pc.EEnter? || th.pc.EProbe?
    ensures th'.held == th.held && th'.key == th.key
  {
    match th.pc
    case FEnter => case FProbe => case FLoadNum =>
    case ELoadNum => case EEnter => case EProbe =>
    case _ =>
  }

  lemma ReadStepScans(cfg: Config, t: Tid, sh: Shared, th: Thread, th': Thread)
    requires SharedInv(cfg, sh) && ThreadInv(cfg, t, sh, th) && SafeAccess(sh, th) && ReadStep(cfg, sh, th, th')
    ensures HeldInv(sh, th') && FindInv(cfg, sh, th') && EraseInv(cfg, sh, th')
  {
    ReadStepKind(cfg, sh, th, th');
    if FindPc(th') {
      if th.pc.FProbe? {
        FindProbeStep(cfg, sh, th, th');
      } else {
        FindOtherStep(cfg, sh, th, th');
      }
    } else if ErasePc(th') {
      if th.pc.EProbe? {
        EraseProbeStep(cfg, sh, th, th');
      } else {
        EraseOtherStep(cfg, sh, th, th');
      }
    }
  }

  lemma CasFails(cfg: Config, sh: Shared, th: Thread)
    requires SharedInv(cfg, sh) && HeldInv(sh, th) && EraseInv(cfg, sh, th) && th.pc.ECas?
    requires SubAt(sh, th.i).cells[th.idx] != Live(th.key)
    ensures FindInv(cfg, sh, EraseNext(th)) && EraseInv(cfg, sh, EraseNext(th))
  {
  }

  lemma NoScanPc(cfg: Config, sh: Shared, th: Thread)
    requires !FindPc(th)
    requires ErasePc(th) ==> (th.pc.ECount? && HasSub(sh, th.i)) || (th.pc.Returned? && th.res == ErasedOne)
    ensures FindInv(cfg, sh, th) && EraseInv(cfg, sh, th)
  {
  }

  lemma SubStepScans(cfg: Config, t: Tid, sh: Shared, th: Thread, sub': Sub, th': Thread)
    requires SharedInv(cfg, sh) && ThreadInv(cfg, t, sh, th) && UsesSub(th.pc) && SafeAccess(sh, th)
    requires SubStep(cfg, t, SubAt(sh, th.i), th, sub', th')
    ensures FindInv(cfg, PutSub(sh, th.i, sub'), th') && EraseInv(cfg, PutSub(sh, th.i, sub'), th')
  {
    var sh' := PutSub(sh, th.i, sub');
    if th.pc.ECas? && SubAt(sh, th.i).cells[th.idx] != Live(th.key) {
      CasFails(cfg, sh, th);
      assert sh'.table == sh.table;
    } else {
      SubStepKind(cfg, t, SubAt(sh, th.i), th, sub', th');
      NoScanPc(cfg, sh', th');
    }
  }

  lemma SubStepKind(cfg: Config, t: Tid, sub: Sub, th: Thread, sub': Sub, th': Thread)
    requires UsesCell(th.pc) ==> th.idx < |sub.cells|
    requires SubStep(cfg, t, sub, th, sub', th')
    requires th.pc.ECas? ==> sub.cells[th.idx] == Live(th.key)
    ensures !FindPc(th')
    ensures ErasePc(th') ==> (th'.pc.ECount? && th'.i == th.i) || (th'.pc.Returned? && th'.res == ErasedOne)
  {
  }

  lemma SubStepHeld(cfg: Config, t: Tid, sub: Sub, th: Thread, sub': Sub, th': Thread)
    requires UsesCell(th.pc) ==> th.idx < |sub.cells|
    requires SubStep(cfg, t, sub, th, sub', th')
    ensures th'.held == th.held && th'.key == th.key
  {
  }

  // ---------- the acting thread: the remaining parts of its invariant ----------

  lemma ReadStepEffects(cfg: Config, sh: Shared, th: Thread, th': Thread)
    requires SafeAccess(sh, th) && ReadStep(cfg, sh, th, th') && EffectsInv(th)
    ensures EffectsInv(th')
  {
    match th.pc
    case FEnter => case FProbe => case FLoadNum =>
    case ELoadNum => case EEnter => case EProbe =>
    case ICompare => case IRecheck =>
    case _ =>
  }

  lemma SubStepEffects(cfg: Config, t: Tid, sub: Sub, th: Thread, sub': Sub, th': Thread)
    requires UsesCell(th.pc) ==> th.idx < |sub.cells|
    requires SubStep(cfg, t, sub, th, sub', th') && EffectsInv(th)
    ensures EffectsInv(th')
  {
  }

  /** Reading neither enters nor leaves the window and owns no cell. */
  lemma ReadStepWindow(cfg: Config, sh: Shared, th: Thread, th': Thread)
    requires SafeAccess(sh, th) && ReadStep(cfg, sh, th, th')
    ensures !InWindow(th.pc) && !InWindow(th'.pc)
    ensures !th.pc.MStoreMap? && !th.pc.MPublish? && (!th'.pc.MStoreMap? && !th'.pc.MPublish?)
  {
    match th.pc
    case FEnter => case FProbe => case FLoadNum =>
    case ELoadNum => case EEnter => case EProbe =>
    case ICompare => case IRecheck =>
    case _ =>
  }

  lemma OutsideWindow(t: Tid, sub: Sub, h: bool, h': bool, th: Thread, th': Thread)
    requires Membership(t, sub, h, th) && !InWindow(th.pc) && !InWindow(th'.pc)
    ensures Membership(t, sub, h', th')
  {
  }

  lemma OutsideWindows(t: Tid, sh: Shared, th: Thread, th': Thread)
    requires forall i :: HasSub(sh, i) ==> Membership(t, SubAt(sh, i), i == th.i, th)
    requires !InWindow(th.pc) && !InWindow(th'.pc)
    ensures forall i :: HasSub(sh, i) ==> Membership(t, SubAt(sh, i), i == th'.i, th')
  {
    forall i | HasSub(sh, i) ensures Membership(t, SubAt(sh, i), i == th'.i, th') {
      OutsideWindow(t, SubAt(sh, i), i == th.i, i == th'.i, th, th');
    }
  }

  lemma ReadStepGrower(cfg: Config, t: Tid, sh: Shared, th: Thread, th': Thread)
    requires GrowerInv(t, sh, th) && SafeAccess(sh, th) && ReadStep(cfg, sh, th, th')
    ensures GrowerInv(t, sh, th')
  {
    ReadStepWindow(cfg, sh, th, th');
    if th'.pc.MWaitMap? {
      StaysWaiting(cfg, sh, th, th');
    }
  }

  lemma StaysWaiting(cfg: Config, sh: Shared, th: Thread, th': Thread)
    requires SafeAccess(sh, th) && ReadStep(cfg, sh, th, th') && th'.pc.MWaitMap?
    ensures th' == th
  {
    match th.pc
    case FEnter => case FProbe => case FLoadNum =>
    case ELoadNum => case EEnter => case EProbe =>
    case ICompare => case IRecheck =>
    case _ =>
  }

  lemma ReadStepThread(cfg: Config, t: Tid, sh: Shared, th: Thread, th': Thread)
    requires SharedInv(cfg, sh) && ThreadInv(cfg, t, sh, th) && SafeAccess(sh, th) && ReadStep(cfg, sh, th, th')
    ensures ThreadInv(cfg, t, sh, th')
  {
    ReadStepWindow(cfg, sh, th, th');
    ReadStepGrower(cfg, t, sh, th, th');
    hide InsertInv, FindInv, EraseInv, HeldInv, GrowerInv, EffectsInv, Membership, ReadStep, TableInv;
    OutsideWindows(t, sh, th, th');
    InsertReadStep(cfg, t, sh, th, th');
    ReadStepScans(cfg, t, sh, th, th');
    ReadStepEffects(cfg, sh, th, th');
  }

  lemma CallStepThread(cfg: Config, t: Tid, sh: Shared, th: Thread, th': Thread)
    requires SharedInv(cfg, sh) && ThreadInv(cfg, t, sh, th) && CallStep(sh, th, th')
    ensures ThreadInv(cfg, t, sh, th')
  {
    OutsideWindows(t, sh, th, th');
    if th'.pc.MBegin? {
      assert !Growing(th'.pc) && !Searching(th'.pc) && !AfterInsert(th');
    } else {
      NoInsertPc(cfg, t, sh, th');
    }
    CallStepScans(cfg, sh, th, th');
  }

  lemma CallStepScans(cfg: Config, sh: Shared, th: Thread, th': Thread)
    requires TableInv(sh) && CallStep(sh, th, th')
    ensures HeldInv(sh, th') && FindInv(cfg, sh, th') && EraseInv(cfg, sh, th')
  {
  }

  lemma SubStepThread(cfg: Config, t: Tid, sh: Shared, th: Thread, sub': Sub, th': Thread)
    requires SharedInv(cfg, sh) && ThreadInv(cfg, t, sh, th) && UsesSub(th.pc) && SafeAccess(sh, th)
    requires SubStep(cfg, t, SubAt(sh, th.i), th, sub', th')
    ensures ThreadInv(cfg, t, PutSub(sh, th.i, sub'), th')
  {
    var sh' := PutSub(sh, th.i, sub');
    SubStepShared(cfg, t, sh, th, sub', th');
    SubStepHeld(cfg, t, SubAt(sh, th.i), th, sub', th');
    HeldStays(t, sh, sh', th, th');
    SubStepGrowers(cfg, t, sh, th, sub', th');
    hide InsertInv, FindInv, EraseInv, HeldInv, GrowerInv, Membership, SubStep, TableInv, CellInv;
    SubStepMemberships(cfg, t, sh, th, sub', th');
    InsertSubStep(cfg, t, sh, th, sub', th');
    SubStepScans(cfg, t, sh, th, sub', th');
    SubStepEffects(cfg, t, SubAt(sh, th.i), th, sub', th');
  }

  lemma HeldStays(t: Tid, sh: Shared, sh': Shared, th: Thread, th': Thread)
    requires HeldInv(sh, th) && Evolve(t, sh, sh') && th'.held == th.held && th'.key == th.key
    ensures HeldInv(sh', th')
  {
    HeldStable(t, sh, sh', th);
  }

  lemma SubStepGrowers(cfg: Config, t: Tid, sh: Shared, th: Thread, sub': Sub, th': Thread)
    requires GrowerInv(t, sh, th) && UsesSub(th.pc) && SafeAccess(sh, th)
    requires SubStep(cfg, t, SubAt(sh, th.i), th, sub', th')
    ensures GrowerInv(t, PutSub(sh, th.i, sub'), th')
  {
    SubStepGrower(cfg, t, SubAt(sh, th.i), th, sub', th');
  }

  lemma SubStepGrower(cfg: Config, t: Tid, sub: Sub, th: Thread, sub': Sub, th': Thread)
    requires UsesCell(th.pc) ==> th.idx < |sub.cells|
    requires SubStep(cfg, t, sub, th, sub', th')
    ensures !th'.pc.MStoreMap? && !th'.pc.MPublish?
  {
  }

  lemma TableStepThread(cfg: Config, t: Tid, sh: Shared, th: Thread, sh': Shared, th': Thread)
    requires SharedInv(cfg, sh) && ThreadInv(cfg, t, sh, th) && TableStep(cfg, t, sh, th, sh', th')
    ensures ThreadInv(cfg, t, sh', th')
  {
    TableStepShared(cfg, t, sh, th, sh', th');
    TableStepTable(cfg, t, sh, th, sh', th');
    InsertTableStep(cfg, t, sh, th, sh', th');
    HeldStable(t, sh, sh', th);
    TableStepMembership(cfg, t, sh, th, sh', th');
    TableStepRest(cfg, t, sh, th, sh', th');
  }

  lemma TableStepRest(cfg: Config, t: Tid, sh: Shared, th: Thread, sh': Shared, th': Thread)
    requires TableStep(cfg, t, sh, th, sh', th') && EffectsInv(th)
    ensures th'.held == th.held && th'.key == th.key
    ensures FindInv(cfg, sh', th') && EraseInv(cfg, sh', th') && EffectsInv(th')
  {
  }

  lemma TableStepMembership(cfg: Config, t: Tid, sh: Shared, th: Thread, sh': Shared, th': Thread)
    requires TableStep(cfg, t, sh, th, sh', th') && TableChange(t, sh, sh')
    requires forall i :: HasSub(sh, i) ==> Membership(t, SubAt(sh, i), i == th.i, th)
    ensures forall i :: HasSub(sh', i) ==> Membership(t, SubAt(sh', i), i == th'.i, th')
  {
    forall i | HasSub(sh', i) ensures Membership(t, SubAt(sh', i), i == th'.i, th') {
      if HasSub(sh, i) {
        assert Membership(t, SubAt(sh, i), i == th.i, th);
        OutsideWindow(t, SubAt(sh, i), i == th.i, i == th'.i, th, th');
      }
    }
  }

  // ---------- the invariant holds in every reachable state ----------

  /** The step of a thread keeps the shared invariant and its own, within what others rely on. */
  lemma ThreadStepKeeps(cfg: Config, t: Tid, sh: Shared, th: Thread, sh': Shared, th': Thread)
    requires SharedInv(cfg, sh) && ThreadInv(cfg, t, sh, th) && ThreadStep(cfg, t, sh, th, sh', th')
    ensures SharedInv(cfg, sh') && ThreadInv(cfg, t, sh', th') && Evolve(t, sh, sh')
  {
    if sh' == sh && CallStep(sh, th, th') {
      CallStepThread(cfg, t, sh, th, th');
      EvolveFromTable(t, sh, sh);
    } else if sh' == sh && ReadStep(cfg, sh, th, th') {
      ReadStepThread(cfg, t, sh, th, th');
      EvolveFromTable(t, sh, sh);
    } else if TableStep(cfg, t, sh, th, sh', th') {
      TableStepShared(cfg, t, sh, th, sh', th');
      TableStepThread(cfg, t, sh, th, sh', th');
    } else {
      var sub' :| SubStep(cfg, t, SubAt(sh, th.i), th, sub', th') && sh' == PutSub(sh, th.i, sub');
      SubStepShared(cfg, t, sh, th, sub', th');
      SubStepThread(cfg, t, sh, th, sub', th');
    }
  }

  lemma StepKeepsInv(cfg: Config, s: State, t: Tid, s': State)
    requires Inv(cfg, s) && StepBy(cfg, s, t, s')
    ensures Inv(cfg, s') && Evolve(t, s.sh, s'.sh)
  {
    ThreadStepKeeps(cfg, t, s.sh, s.threads[t], s'.sh, s'.threads[t]);
    forall u | 0 <= u < |s'.threads| ensures ThreadInv(cfg, u, s'.sh, s'.threads[u]) {
      if u != t {
        ThreadInvStable(cfg, t, u, s.sh, s'.sh, s.threads[u]);
      }
    }
  }

  lemma InitThread(cfg: Config, t: Tid, sh: Shared, th: Thread)
    requires th.pc.Idle? && th.held == None && sh.grower.Nobody?
    requires forall i :: HasSub(sh, i) ==> IsNewSub(SubAt(sh, i))
    ensures ThreadInv(cfg, t, sh, th)
  {
    NoInsertPc(cfg, t, sh, th);
  }

  lemma InitShared(cfg: Config, s: State)
    requires Init(s)
    ensures SharedInv(cfg, s.sh) && forall i :: HasSub(s.sh, i) ==> IsNewSub(SubAt(s.sh, i))
  {
    assert forall i :: HasSub(s.sh, i) ==> i == 0;
  }

  lemma InitInv(cfg: Config, s: State)
    requires Init(s)
    ensures Inv(cfg, s)
  {
    InitShared(cfg, s);
    forall t | 0 <= t < |s.threads| ensures ThreadInv(cfg, t, s.sh, s.threads[t]) {
      InitThread(cfg, t, s.sh, s.threads[t]);
    }
  }
}
