/** The invariant of AtomicHashMap, and what one thread may rely on when others step. */
module HashMapInvariant {

  import opened Common
  import opened HashProbing
  import opened HashMapState

  // ---------- cells and probe prefixes ----------

  /** A cell that no longer changes, except from live to erased, and is not key k. */
  predicate SettledNot(cell: Cell, k: int) {
    cell.Erased? || (cell.Live? && cell.key != k)
  }

  /** A cell that holds key k, or that its inserter has locked for k. */
  predicate OccupiedBy(cell: Cell, k: int) {
    (cell.Live? || cell.Locked?) && cell.key == k
  }

  /** The first n cells of k's probe sequence are settled with other keys. */
  ghost predicate Passed(cfg: Config, cells: seq<Cell>, k: int, n: nat) {
    && n <= |cells|
    && forall m :: 0 <= m < n ==> SettledNot(cells[ProbeAt(cfg, |cells|, k, m)], k)
  }

  /** No thread can lock an empty cell any more. */
  predicate Frozen(sub: Sub) {
    sub.isFull != 0 && sub.lockers == {}
  }

  ghost predicate FullAt(cfg: Config, sub: Sub, k: int, n: nat) {
    && Passed(cfg, sub.cells, k, n)
    && (n < |sub.cells| ==> Frozen(sub) && sub.cells[ProbeAt(cfg, |sub.cells|, k, n)] == Empty)
  }

  /** Key k is not in this array and can never be inserted into it. */
  ghost predicate FullFor(cfg: Config, sub: Sub, k: int) {
    exists n :: FullAt(cfg, sub, k, n)
  }

  ghost predicate FullBefore(cfg: Config, sh: Shared, k: int, i: nat) {
    forall j :: 0 <= j < i ==> HasSub(sh, j) && FullFor(cfg, SubAt(sh, j), k)
  }

  ghost predicate PlacedAt(cfg: Config, cells: seq<Cell>, k: int, c: nat, n: nat) {
    n < |cells| && ProbeAt(cfg, |cells|, k, n) == c && Passed(cfg, cells, k, n)
  }

  /** Cell c lies on k's probe sequence behind settled cells only. */
  ghost predicate Placed(cfg: Config, cells: seq<Cell>, k: int, c: nat) {
    exists n :: PlacedAt(cfg, cells, k, c, n)
  }

  // ---------- invariant of shared memory ----------

  predicate SubInv(sub: Sub) {
    && 0 < |sub.cells| == |sub.vals|
    && sub.pending == |sub.window|
    && sub.lockers <= sub.window
    && 0 <= sub.isFull <= 2
    && (sub.isFull == 2 ==> Frozen(sub))
    && (forall c :: 0 <= c < |sub.cells| && sub.cells[c].Locked? ==> sub.cells[c].owner in sub.lockers)
    && (forall c :: 0 <= c < |sub.cells| && (sub.cells[c].Live? || sub.cells[c].Erased?) ==> sub.vals[c].Some?)
  }

  /** Sub-maps below num are arrays; only the entry at num may be locked or
      awaiting publication, and then exactly one thread is at work on it. */
  predicate TableInv(sh: Shared) {
    && |sh.table| == MAX_SUBMAPS
    && 1 <= sh.num <= MAX_SUBMAPS
    && (forall i :: 0 <= i < sh.num ==> sh.table[i].Arr?)
    && (forall i :: sh.num < i < MAX_SUBMAPS ==> sh.table[i] == Null)
    && (sh.num == MAX_SUBMAPS ==> sh.grower.Nobody?)
    && (sh.num < MAX_SUBMAPS ==> (sh.grower.Nobody? <==> sh.table[sh.num] == Null))
    && (sh.grower.Gone? ==> sh.table[sh.num] == LockedPtr)
  }

  ghost predicate CellInv(cfg: Config, sh: Shared, i: nat, c: nat, k: int)
    requires HasSub(sh, i)
  {
    c < |SubAt(sh, i).cells| && OccupiedBy(SubAt(sh, i).cells[c], k) ==>
      && Placed(cfg, SubAt(sh, i).cells, k, c)
      && FullBefore(cfg, sh, k, i)
      && i < sh.num
  }

  ghost predicate SharedInv(cfg: Config, sh: Shared) {
    && TableInv(sh)
    && (forall i :: HasSub(sh, i) ==> SubInv(SubAt(sh, i)))
    && (forall i, c, k :: HasSub(sh, i) ==> CellInv(cfg, sh, i, c, k))
  }

  ghost predicate OccupiedAt(sh: Shared, k: int, at: Loc) {
    HasSub(sh, at.map_) && at.cell < |SubAt(sh, at.map_).cells| && OccupiedBy(SubAt(sh, at.map_).cells[at.cell], k)
  }

  /** An array that is full for a key holds it in none of its cells. */
  lemma FullExcludes(cfg: Config, sub: Sub, k: int, c: nat)
    requires FullFor(cfg, sub, k) && c < |sub.cells| && OccupiedBy(sub.cells[c], k)
    ensures !Placed(cfg, sub.cells, k, c)
  {
    var n :| FullAt(cfg, sub, k, n);
    forall p ensures !PlacedAt(cfg, sub.cells, k, c, p) {
    }
  }

  /** Over all sub-maps, a key is live or being inserted in at most one cell. */
  lemma OneCellPerKey(cfg: Config, sh: Shared, k: int, x: Loc, y: Loc)
    requires SharedInv(cfg, sh) && OccupiedAt(sh, k, x) && OccupiedAt(sh, k, y)
    ensures x == y
  {
    assert CellInv(cfg, sh, x.map_, x.cell, k) && CellInv(cfg, sh, y.map_, y.cell, k);
    if x.map_ < y.map_ {
      FullExcludes(cfg, SubAt(sh, x.map_), k, x.cell);
    } else if y.map_ < x.map_ {
      FullExcludes(cfg, SubAt(sh, y.map_), k, y.cell);
    } else {
      var p :| PlacedAt(cfg, SubAt(sh, x.map_).cells, k, x.cell, p);
      var q :| PlacedAt(cfg, SubAt(sh, x.map_).cells, k, y.cell, q);
    }
  }

  // ---------- invariant of one thread ----------

  predicate InWindow(pc: Pc) {
    pc.ILoadFull? || pc.IDecFull? || InLockers(pc)
  }

  predicate InLockers(pc: Pc) {
    pc.ITryLock? || OwnsCell(pc) || pc.IThrowDec? || pc.IDecLost? || pc.IDecWon?
  }

  predicate OwnsCell(pc: Pc) {
    pc.IConstruct? || pc.IUnlock? || pc.IThrowUnlock?
  }

  /** What the history fields of array i say about thread t. */
  ghost predicate Membership(t: Tid, sub: Sub, here: bool, th: Thread) {
    && (t in sub.window <==> here && InWindow(th.pc))
    && (t in sub.lockers <==> here && InLockers(th.pc))
    && (forall c :: 0 <= c < |sub.cells| && sub.cells[c].Locked? && sub.cells[c].owner == t ==>
          here && OwnsCell(th.pc) && c == th.idx)
  }

  ghost predicate GrowerInv(t: Tid, sh: Shared, th: Thread) {
    && (sh.grower == Building(t) <==> th.pc.MStoreMap? || th.pc.MPublish?)
    && (th.pc.MStoreMap? ==> th.next == sh.num < |sh.table| && sh.table[th.next] == LockedPtr)
    && (th.pc.MPublish? ==> th.next == sh.num < |sh.table| && sh.table[th.next].Arr?)
    && (th.pc.MWaitMap? ==> th.next <= sh.num && (th.next == sh.num < |sh.table| ==> sh.table[th.next] != Null))
  }

  predicate Growing(pc: Pc) {
    pc.MGrow? || pc.MLockMap? || pc.MStoreMap? || pc.MPublish? || pc.MWaitMap?
  }

  /** insert is looking for its cell in array i. */
  predicate Searching(pc: Pc) {
    || pc.IProbe? || pc.IIncPending? || pc.ILoadFull? || pc.IDecFull? || pc.ISpinFull?
    || pc.ISpinPending? || pc.IStoreFull? || pc.IRecheck? || pc.ITryLock? || pc.IConstruct?
    || pc.IUnlock? || pc.IThrowUnlock? || pc.IDecLost? || pc.IAssert? || pc.IAwait? || pc.ICompare?
  }

  /** insert has published its key in cell idx of array i. */
  predicate AfterInsert(th: Thread) {
    || th.pc.IDecWon? || th.pc.ICount? || th.pc.ILoadFactor? || th.pc.IMarkFull?
    || (th.pc.Returned? && th.res == Inserted)
  }

  ghost predicate SearchInv(cfg: Config, t: Tid, sub: Sub, th: Thread) {
    && th.n < |sub.cells|
    && th.idx == ProbeAt(cfg, |sub.cells|, th.key, th.n)
    && Passed(cfg, sub.cells, th.key, th.n)
    && (OwnsCell(th.pc) ==> sub.cells[th.idx] == Locked(t, th.key))
    && (th.pc.IUnlock? ==> th.idx < |sub.vals| && sub.vals[th.idx] == Some(th.val))
    && (th.pc.IDecFull? || th.pc.ISpinFull? || th.pc.ISpinPending? ==> sub.isFull != 0)
    && (th.pc.IStoreFull? || th.pc.IRecheck? ==> Frozen(sub))
  }

  /** Cell idx held the thread's key, and still does unless it was erased. */
  predicate WasHere(sub: Sub, th: Thread) {
    th.idx < |sub.cells| && (sub.cells[th.idx] == Live(th.key) || sub.cells[th.idx] == Erased)
  }

  ghost predicate InsertInv(cfg: Config, t: Tid, sh: Shared, th: Thread) {
    && (Growing(th.pc) ==> th.next <= sh.num && FullBefore(cfg, sh, th.key, th.next))
    && (Growing(th.pc) && !th.pc.MGrow? ==> th.next < MAX_SUBMAPS)
    && (th.pc.IEnter? || Searching(th.pc) ==>
          th.i <= th.next <= sh.num && th.i < sh.num && HasSub(sh, th.i) && FullBefore(cfg, sh, th.key, th.i))
    && (Searching(th.pc) ==> SearchInv(cfg, t, SubAt(sh, th.i), th))
    && (th.pc.IThrowDec? ==> HasSub(sh, th.i))
    && (AfterInsert(th) ==>
          HasSub(sh, th.i) && WasHere(SubAt(sh, th.i), th) &&
          th.idx < |SubAt(sh, th.i).vals| && SubAt(sh, th.i).vals[th.idx] == Some(th.val))
    && (th.pc.Returned? && th.res == Exists ==> HasSub(sh, th.i) && WasHere(SubAt(sh, th.i), th))
  }

  ghost predicate HeldLive(sh: Shared, th: Thread) {
    th.held.Some? && LiveAt(sh, th.key, th.held.value)
  }

  /** A cell that held the key when the call began still does, or was erased. */
  ghost predicate HeldInv(sh: Shared, th: Thread) {
    th.held.Some? ==>
      && HasSub(sh, th.held.value.map_)
      && th.held.value.cell < |SubAt(sh, th.held.value.map_).cells|
      && (LiveAt(sh, th.key, th.held.value) || SubAt(sh, th.held.value.map_).cells[th.held.value.cell] == Erased)
  }

  /** The scan of find or erase has not yet gone past the cell held. */
  ghost predicate Ahead(cfg: Config, cap: nat, th: Thread, at: Loc) {
    || th.i < at.map_
    || (th.i == at.map_ && forall m :: 0 <= m < th.n && m < cap ==> ProbeAt(cfg, cap, th.key, m) != at.cell)
  }

  ghost predicate ScanInv(cfg: Config, sh: Shared, th: Thread) {
    && HasSub(sh, th.i)
    && th.n < |SubAt(sh, th.i).cells|
    && th.idx == ProbeAt(cfg, |SubAt(sh, th.i).cells|, th.key, th.n)
    && (HeldLive(sh, th) ==> Ahead(cfg, |SubAt(sh, th.i).cells|, th, th.held.value))
  }

  ghost predicate FindInv(cfg: Config, sh: Shared, th: Thread) {
    && (th.pc.FEnter? || th.pc.FProbe? ==>
          && HasSub(sh, th.i)
          && (th.i > 0 ==> th.i < th.next <= sh.num)
          && (th.i > 0 && HeldLive(sh, th) ==> th.held.value.map_ < th.next))
    && (th.pc.FEnter? && HeldLive(sh, th) ==> th.i <= th.held.value.map_)
    && (th.pc.FProbe? ==> ScanInv(cfg, sh, th))
    && (th.pc.FLoadNum? && HeldLive(sh, th) ==> 0 < th.held.value.map_)
    && (th.pc.Returned? && th.res == Miss ==> !HeldLive(sh, th))
    && (th.pc.Returned? && th.res == Hit ==> HasSub(sh, th.i) && WasHere(SubAt(sh, th.i), th))
  }

  ghost predicate EraseInv(cfg: Config, sh: Shared, th: Thread) {
    && (th.pc.EEnter? || th.pc.EProbe? || th.pc.ECas? ==>
          && th.i < th.next <= sh.num && HasSub(sh, th.i)
          && (HeldLive(sh, th) ==> th.held.value.map_ < th.next))
    && (th.pc.EEnter? && HeldLive(sh, th) ==> th.i <= th.held.value.map_)
    && (th.pc.EProbe? ==> ScanInv(cfg, sh, th))
    && (th.pc.ECas? ==>
          && WasHere(SubAt(sh, th.i), th)
          && (HeldLive(sh, th) ==> th.held.value == Loc(th.i, th.idx)))
    && (th.pc.ECount? ==> HasSub(sh, th.i))
    && (th.pc.Returned? && th.res == ErasedNone ==> !HeldLive(sh, th))
  }

  /** How many effective steps the current call has taken. */
  predicate EffectsInv(th: Thread) {
    && (th.pc.Returned? ==> th.effects == (if th.res == Inserted || th.res == ErasedOne then 1 else 0))
    && (!th.pc.Returned? && !th.pc.Idle? ==> th.effects == (if AfterInsert(th) || th.pc.ECount? then 1 else 0))
  }

  ghost predicate ThreadInv(cfg: Config, t: Tid, sh: Shared, th: Thread) {
    && (forall i :: HasSub(sh, i) ==> Membership(t, SubAt(sh, i), i == th.i, th))
    && GrowerInv(t, sh, th)
    && InsertInv(cfg, t, sh, th)
    && HeldInv(sh, th)
    && FindInv(cfg, sh, th)
    && EraseInv(cfg, sh, th)
    && EffectsInv(th)
  }

  ghost predicate Inv(cfg: Config, s: State) {
    && SharedInv(cfg, s.sh)
    && forall t :: 0 <= t < |s.threads| ==> ThreadInv(cfg, t, s.sh, s.threads[t])
  }

  // ---------- what a step of thread t may do to shared memory ----------

  predicate CellEvolve(t: Tid, a: Cell, b: Cell) {
    match a
    case Empty => b == Empty || (b.Locked? && b.owner == t)
    case Locked(u, k) => b == a || (u == t && (b == Empty || b == Live(k)))
    case Live(_) => b == a || b == Erased
    case Erased => b == a
  }

  ghost predicate SubEvolve(t: Tid, a: Sub, b: Sub) {
    && |a.cells| == |b.cells| && |a.vals| == |b.vals| == |a.cells|
    && (forall c :: 0 <= c < |a.cells| ==> CellEvolve(t, a.cells[c], b.cells[c]))
    && (forall c :: 0 <= c < |a.cells| && !(a.cells[c].Locked? && a.cells[c].owner == t) ==> b.vals[c] == a.vals[c])
    && (a.isFull != 0 ==> b.isFull != 0)
    && (Frozen(a) ==> Frozen(b) && forall c :: 0 <= c < |a.cells| && a.cells[c] == Empty ==> b.cells[c] == Empty)
    && (forall u :: u != t ==> (u in a.window <==> u in b.window) && (u in a.lockers <==> u in b.lockers))
  }

  ghost predicate Evolve(t: Tid, a: Shared, b: Shared) {
    && |a.table| == |b.table|
    && a.num <= b.num
    && (forall i :: HasSub(a, i) ==> HasSub(b, i) && SubEvolve(t, SubAt(a, i), SubAt(b, i)))
    && (forall i :: HasSub(b, i) && !HasSub(a, i) ==> IsNewSub(SubAt(b, i)))
    && (a.grower.Gone? ==> b.grower.Gone? && b.num == a.num)
    && (b.num == a.num < |a.table| && a.table[a.num] != Null ==> b.table[a.num] != Null)
    && (forall u :: u != t ==> (a.grower == Building(u) <==> b.grower == Building(u)))
    && (forall u :: u != t && a.grower == Building(u) && a.num < |a.table| ==>
          b.num == a.num && (a.table[a.num] == LockedPtr ==> b.table[a.num] == LockedPtr))
  }

  // ---------- stability under steps of other threads ----------

  lemma PassedStable(cfg: Config, t: Tid, a: Sub, b: Sub, k: int, n: nat)
    requires SubEvolve(t, a, b) && Passed(cfg, a.cells, k, n)
    ensures Passed(cfg, b.cells, k, n)
  {
  }

  lemma FullForStable(cfg: Config, t: Tid, a: Sub, b: Sub, k: int)
    requires SubEvolve(t, a, b) && FullFor(cfg, a, k)
    ensures FullFor(cfg, b, k)
  {
    var n :| FullAt(cfg, a, k, n);
    PassedStable(cfg, t, a, b, k, n);
    assert FullAt(cfg, b, k, n);
  }

  lemma FullBeforeStable(cfg: Config, t: Tid, a: Shared, b: Shared, k: int, i: nat)
    requires Evolve(t, a, b) && FullBefore(cfg, a, k, i)
    ensures FullBefore(cfg, b, k, i)
  {
    forall j | 0 <= j < i ensures HasSub(b, j) && FullFor(cfg, SubAt(b, j), k) {
      assert HasSub(a, j);
      FullForStable(cfg, t, SubAt(a, j), SubAt(b, j), k);
    }
  }

  lemma PlacedStable(cfg: Config, t: Tid, a: Sub, b: Sub, k: int, c: nat)
    requires SubEvolve(t, a, b) && Placed(cfg, a.cells, k, c)
    ensures Placed(cfg, b.cells, k, c)
  {
    var n :| PlacedAt(cfg, a.cells, k, c, n);
    PassedStable(cfg, t, a, b, k, n);
    assert PlacedAt(cfg, b.cells, k, c, n);
  }

  lemma MembershipStable(t: Tid, u: Tid, a: Shared, b: Shared, th: Thread, i: nat)
    requires u != t && Evolve(t, a, b) && HasSub(b, i)
    requires HasSub(a, i) ==> Membership(u, SubAt(a, i), i == th.i, th)
    requires !HasSub(a, i) && i == th.i ==> !InWindow(th.pc)
    ensures Membership(u, SubAt(b, i), i == th.i, th)
  {
    if HasSub(a, i) {
      assert SubEvolve(t, SubAt(a, i), SubAt(b, i));
      forall c | 0 <= c < |SubAt(b, i).cells| && SubAt(b, i).cells[c].Locked? && SubAt(b, i).cells[c].owner == u
        ensures i == th.i && OwnsCell(th.pc) && c == th.idx
      {
        assert CellEvolve(t, SubAt(a, i).cells[c], SubAt(b, i).cells[c]);
      }
    }
  }

  lemma InsertStable(cfg: Config, t: Tid, u: Tid, a: Shared, b: Shared, th: Thread)
    requires u != t && Evolve(t, a, b) && InsertInv(cfg, u, a, th)
    ensures InsertInv(cfg, u, b, th)
  {
    if Growing(th.pc) {
      FullBeforeStable(cfg, t, a, b, th.key, th.next);
    }
    if th.pc.IEnter? || Searching(th.pc) {
      FullBeforeStable(cfg, t, a, b, th.key, th.i);
    }
    if Searching(th.pc) {
      var x, y := SubAt(a, th.i), SubAt(b, th.i);
      PassedStable(cfg, t, x, y, th.key, th.n);
      assert CellEvolve(t, x.cells[th.idx], y.cells[th.idx]);
    }
    if AfterInsert(th) || (th.pc.Returned? && th.res == Exists) {
      assert CellEvolve(t, SubAt(a, th.i).cells[th.idx], SubAt(b, th.i).cells[th.idx]);
    }
  }

  lemma HeldStable(t: Tid, a: Shared, b: Shared, th: Thread)
    requires Evolve(t, a, b) && HeldInv(a, th)
    ensures HeldInv(b, th)
    ensures HeldLive(b, th) ==> HeldLive(a, th)
  {
    if th.held.Some? {
      var at := th.held.value;
      assert CellEvolve(t, SubAt(a, at.map_).cells[at.cell], SubAt(b, at.map_).cells[at.cell]);
    }
  }

  lemma ScansStable(cfg: Config, t: Tid, a: Shared, b: Shared, th: Thread)
    requires Evolve(t, a, b) && HeldInv(a, th) && FindInv(cfg, a, th) && EraseInv(cfg, a, th)
    ensures HeldInv(b, th) && FindInv(cfg, b, th) && EraseInv(cfg, b, th)
  {
    HeldStable(t, a, b, th);
    if HasSub(a, th.i) {
      assert SubEvolve(t, SubAt(a, th.i), SubAt(b, th.i));
      if th.idx < |SubAt(a, th.i).cells| {
        assert CellEvolve(t, SubAt(a, th.i).cells[th.idx], SubAt(b, th.i).cells[th.idx]);
      }
    }
  }

  lemma MembershipsStable(cfg: Config, t: Tid, u: Tid, a: Shared, b: Shared, th: Thread)
    requires u != t && Evolve(t, a, b) && InsertInv(cfg, u, a, th)
    requires forall i :: HasSub(a, i) ==> Membership(u, SubAt(a, i), i == th.i, th)
    ensures forall i :: HasSub(b, i) ==> Membership(u, SubAt(b, i), i == th.i, th)
  {
    assert InWindow(th.pc) ==> HasSub(a, th.i);
    forall i | HasSub(b, i) ensures Membership(u, SubAt(b, i), i == th.i, th) {
      MembershipStable(t, u, a, b, th, i);
    }
  }

  lemma GrowerStable(t: Tid, u: Tid, a: Shared, b: Shared, th: Thread)
    requires u != t && Evolve(t, a, b) && GrowerInv(u, a, th)
    ensures GrowerInv(u, b, th)
  {
    assert th.pc.MPublish? ==> HasSub(a, a.num);
  }

  /** A step of thread t keeps the invariant of every other thread. */
  lemma ThreadInvStable(cfg: Config, t: Tid, u: Tid, a: Shared, b: Shared, th: Thread)
    requires u != t && Evolve(t, a, b) && ThreadInv(cfg, u, a, th)
    ensures ThreadInv(cfg, u, b, th)
  {
    MembershipsStable(cfg, t, u, a, b, th);
    GrowerStable(t, u, a, b, th);
    InsertStable(cfg, t, u, a, b, th);
    ScansStable(cfg, t, a, b, th);
  }
}
