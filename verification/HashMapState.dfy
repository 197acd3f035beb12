/** AtomicHashMap and its AtomicHashArray sub-maps as a step system: shared
    memory, one program counter per thread, one step per atomic access.
    Fields marked "history" record the past for the proofs; no step tests them. */
module HashMapState {

  import opened Common
  import opened HashProbing

  const MAX_SUBMAPS: nat := 16

  /** The key word of a cell. The owner and key of a locked cell are history. */
  datatype Cell = Empty | Locked(owner: Tid, key: int) | Live(key: int) | Erased

  /** One AtomicHashArray. window (history): threads between their increment and
      decrement of the pending count. lockers (history): those of them that read
      isFull as zero. */
  datatype Sub = Sub(
    cells: seq<Cell>, vals: seq<Option<int>>,
    isFull: int, pending: int, entries: int, erases: int,
    window: set<Tid>, lockers: set<Tid>)

  /** One entry of the sub-map table. */
  datatype Slot = Null | LockedPtr | Arr(sub: Sub)

  /** Who is at work on the table entry at index num (history): nobody, the thread that
      locked it, or that thread is gone, since creating the array threw. */
  datatype Grower = Nobody | Building(t: Tid) | Gone

  datatype Shared = Shared(table: seq<Slot>, num: nat, grower: Grower)

  datatype Result =
    | NoResult
    | Inserted | Exists | Threw | MapFull
    | Hit | Miss
    | ErasedOne | ErasedNone

  datatype Pc =
    | Idle | Returned
    // AtomicHashMap::insertInternal
    | MBegin | IEnter | MGrow | MLockMap | MStoreMap | MPublish | MWaitMap
    // AtomicHashArray::insertInternal
    | IProbe | IIncPending | ILoadFull | IDecFull | ISpinFull | ISpinPending | IStoreFull | IRecheck
    | ITryLock | IConstruct | IUnlock | IThrowUnlock | IThrowDec | IDecLost
    | IAssert // the debug assertion that the cell is not empty
    | IAwait | ICompare
    | IDecWon | ICount | ILoadFactor | IMarkFull
    // findInternal of both classes
    | FEnter | FProbe | FLoadNum
    // erase of both classes
    | ELoadNum | EEnter | EProbe | ECas | ECount

  datatype Loc = Loc(map_: nat, cell: nat)

  /** Registers of one thread. i is the sub-map in use, next the number of
      sub-maps the current loop runs over, idx the cell and n the probes done.
      held and effects (history): where the key was live when the call began,
      and how many steps of the call changed the set of live keys. */
  datatype Thread = Thread(
    pc: Pc, key: int, val: int, next: nat, i: nat, idx: nat, n: nat,
    res: Result, held: Option<Loc>, effects: nat)

  datatype State = State(sh: Shared, threads: seq<Thread>)

  // ---------- shared-memory helpers ----------

  predicate HasSub(sh: Shared, i: nat) {
    i < |sh.table| && sh.table[i].Arr?
  }

  function SubAt(sh: Shared, i: nat): Sub
    requires HasSub(sh, i)
  {
    sh.table[i].sub
  }

  function PutSub(sh: Shared, i: nat, sub: Sub): Shared
    requires i < |sh.table|
  {
    sh.(table := sh.table[i := Arr(sub)])
  }

  /** A freshly created array: every cell empty, every counter zero. */
  predicate IsNewSub(sub: Sub) {
    && 0 < |sub.cells| == |sub.vals|
    && (forall c :: 0 <= c < |sub.cells| ==> sub.cells[c] == Empty && sub.vals[c] == None)
    && sub.isFull == 0 && sub.pending == 0 && sub.entries == 0 && sub.erases == 0
    && sub.window == {} && sub.lockers == {}
  }

  ghost predicate LiveAt(sh: Shared, k: int, at: Loc) {
    HasSub(sh, at.map_) && at.cell < |SubAt(sh, at.map_).cells| && SubAt(sh, at.map_).cells[at.cell] == Live(k)
  }

  /** The set of keys the map holds. */
  ghost predicate Contains(sh: Shared, k: int) {
    exists at :: LiveAt(sh, k, at)
  }

  // ---------- the steps ----------

  function Go(th: Thread, pc: Pc): Thread {
    th.(pc := pc)
  }

  function Return(th: Thread, res: Result): Thread {
    th.(pc := Returned, res := res)
  }

  /** insertInternal of an array returned its capacity: try the next sub-map,
      grow, or, when even the newest sub-map is full, start over. */
  function SubFull(th: Thread): Thread {
    if th.i < th.next then
      if th.i + 1 < th.next then th.(pc := IEnter, i := th.i + 1) else Go(th, MGrow)
    else
      Go(th, MBegin)
  }

  /** One more cell probed by insert. */
  function InsertAdvance(cfg: Config, cap: nat, th: Thread): Thread
    requires th.idx < cap
  {
    if th.n + 1 >= cap then SubFull(th)
    else th.(pc := IProbe, n := th.n + 1, idx := NextProbe(cfg.kind, th.idx, th.n + 1, cap))
  }

  /** find is done with sub-map i without a hit. */
  function FindNext(th: Thread): Thread {
    if th.i == 0 then Go(th, FLoadNum)
    else if th.i + 1 < th.next then th.(pc := FEnter, i := th.i + 1)
    else Return(th, Miss)
  }

  function FindAdvance(cfg: Config, cap: nat, th: Thread): Thread
    requires th.idx < cap
  {
    if th.n + 1 >= cap then FindNext(th)
    else th.(pc := FProbe, n := th.n + 1, idx := NextProbe(cfg.kind, th.idx, th.n + 1, cap))
  }

  /** erase of one array returned 0. */
  function EraseNext(th: Thread): Thread {
    if th.i + 1 < th.next then th.(pc := EEnter, i := th.i + 1) else Return(th, ErasedNone)
  }

  function EraseAdvance(cfg: Config, cap: nat, th: Thread): Thread
    requires th.idx < cap
  {
    if th.n + 1 >= cap then EraseNext(th)
    else th.(pc := EProbe, n := th.n + 1, idx := NextProbe(cfg.kind, th.idx, th.n + 1, cap))
  }

  predicate UsesCell(pc: Pc) {
    || pc.IProbe? || pc.IRecheck? || pc.ITryLock? || pc.IConstruct? || pc.IUnlock?
    || pc.IThrowUnlock? || pc.IAssert? || pc.IAwait? || pc.ICompare?
    || pc.FProbe? || pc.EProbe? || pc.ECas?
  }

  predicate UsesSub(pc: Pc) {
    || UsesCell(pc)
    || pc.IEnter? || pc.IIncPending? || pc.ILoadFull? || pc.IDecFull? || pc.ISpinFull?
    || pc.ISpinPending? || pc.IStoreFull? || pc.IThrowDec? || pc.IDecLost? || pc.IDecWon?
    || pc.ICount? || pc.ILoadFactor? || pc.IMarkFull?
    || pc.FEnter? || pc.EEnter? || pc.ECount?
  }

  /** The pointers and indices the next step of a thread dereferences are valid. */
  predicate SafeAccess(sh: Shared, th: Thread) {
    && (UsesSub(th.pc) ==> HasSub(sh, th.i))
    && (UsesCell(th.pc) ==> th.idx < |SubAt(sh, th.i).cells|)
  }

  /** Entering array i: the probe sequence starts at the key's anchor. */
  function EnterSub(cfg: Config, sh: Shared, th: Thread, pc: Pc): Thread
    requires HasSub(sh, th.i) && |SubAt(sh, th.i).cells| > 0
  {
    th.(pc := pc, n := 0, idx := Anchor(cfg.hash(th.key), |SubAt(sh, th.i).cells|))
  }

  /** Steps of a call that read shared memory only. */
  ghost predicate ReadStep(cfg: Config, sh: Shared, th: Thread, th': Thread)
    requires SafeAccess(sh, th)
  {
    match th.pc
    case Returned => th' == Go(th, Idle)
    case MBegin => th' == th.(pc := if sh.num > 0 then IEnter else MGrow, next := sh.num, i := 0)
    case MGrow => // throws at the table limit, or when the growth fraction leaves no room (not modelled: any time)
      th' == Return(th, MapFull) || (th.next < MAX_SUBMAPS && th' == Go(th, MLockMap))
    case MWaitMap => th' == if th.next >= sh.num then th else th.(pc := IEnter, i := th.next)
    case IEnter => |SubAt(sh, th.i).cells| > 0 && th' == EnterSub(cfg, sh, th, IProbe)
    case FEnter => |SubAt(sh, th.i).cells| > 0 && th' == EnterSub(cfg, sh, th, FProbe)
    case EEnter => |SubAt(sh, th.i).cells| > 0 && th' == EnterSub(cfg, sh, th, EProbe)
    case IProbe => th' == Go(th, if SubAt(sh, th.i).cells[th.idx] == Empty then IIncPending else IAssert)
    case ISpinFull => th' == Go(th, if SubAt(sh, th.i).isFull == 2 then IStoreFull else ISpinPending)
    case ISpinPending => th' == Go(th, if SubAt(sh, th.i).pending == 0 then IStoreFull else ISpinFull)
    case IRecheck => th' == if SubAt(sh, th.i).cells[th.idx] == Empty then SubFull(th) else Go(th, IAssert)
    case IAssert => th' == Go(th, IAwait)
    case IAwait => th' == if SubAt(sh, th.i).cells[th.idx].Locked? then th else Go(th, ICompare)
    case ICompare =>
      var cells := SubAt(sh, th.i).cells;
      th' == (match cells[th.idx]
              case Empty => Go(th, IProbe)
              case Locked(_, _) => Go(th, IProbe)
              case Live(k) => if k == th.key then Return(th, Exists) else InsertAdvance(cfg, |cells|, th)
              case Erased => InsertAdvance(cfg, |cells|, th))
    case ILoadFactor => th' == Go(th, IMarkFull) || th' == Return(th, Inserted)
    case FProbe =>
      var cells := SubAt(sh, th.i).cells;
      th' == (if cells[th.idx] == Live(th.key) then Return(th, Hit)
              else if cells[th.idx] == Empty then FindNext(th)
              else FindAdvance(cfg, |cells|, th))
    case FLoadNum =>
      th' == if 1 < sh.num then th.(pc := FEnter, next := sh.num, i := 1)
             else Return(th.(next := sh.num), Miss)
    case ELoadNum =>
      th' == if 0 < sh.num then th.(pc := EEnter, next := sh.num, i := 0)
             else Return(th.(next := sh.num), ErasedNone)
    case EProbe =>
      var cells := SubAt(sh, th.i).cells;
      th' == (if cells[th.idx].Empty? || cells[th.idx].Locked? then EraseNext(th)
              else if cells[th.idx] == Live(th.key) then Go(th, ECas)
              else EraseAdvance(cfg, |cells|, th))
    case _ => false
  }

  /** Steps that write one array. */
  ghost predicate SubStep(cfg: Config, t: Tid, sub: Sub, th: Thread, sub': Sub, th': Thread)
    requires UsesCell(th.pc) ==> th.idx < |sub.cells|
  {
    match th.pc
    case IIncPending =>
      sub' == sub.(pending := sub.pending + 1, window := sub.window + {t}) && th' == Go(th, ILoadFull)
    case ILoadFull =>
      if sub.isFull != 0 then sub' == sub && th' == Go(th, IDecFull)
      else sub' == sub.(lockers := sub.lockers + {t}) && th' == Go(th, ITryLock)
    case IDecFull =>
      sub' == LeaveWindow(t, sub) && th' == Go(th, ISpinFull)
    case IStoreFull =>
      sub' == sub.(isFull := 2) && th' == Go(th, IRecheck)
    case ITryLock =>
      if sub.cells[th.idx] == Empty
      then sub' == SetCell(sub, th.idx, Locked(t, th.key)) && th' == Go(th, IConstruct)
      else sub' == sub && th' == Go(th, IDecLost)
    case IConstruct =>
      || (cfg.mayThrow && sub' == sub && th' == Go(th, IThrowUnlock))
      || (th.idx < |sub.vals| && sub' == sub.(vals := sub.vals[th.idx := Some(th.val)]) && th' == Go(th, IUnlock))
    case IUnlock =>
      sub' == SetCell(sub, th.idx, Live(th.key)) && th' == Go(th, IDecWon).(effects := th.effects + 1)
    case IThrowUnlock =>
      sub' == SetCell(sub, th.idx, Empty) && th' == Go(th, IThrowDec)
    case IThrowDec =>
      sub' == LeaveWindow(t, sub) && th' == Return(th, Threw)
    case IDecLost =>
      sub' == LeaveWindow(t, sub) && th' == Go(th, IAssert)
    case IDecWon =>
      sub' == LeaveWindow(t, sub) && th' == Go(th, ICount)
    case ICount =>
      sub' == sub.(entries := sub.entries + 1) && th' == Go(th, ILoadFactor)
    case IMarkFull =>
      sub' == sub.(isFull := 1) && th' == Return(th, Inserted)
    case ECas =>
      if sub.cells[th.idx] == Live(th.key)
      then sub' == SetCell(sub, th.idx, Erased) && th' == Go(th, ECount).(effects := th.effects + 1)
      else sub' == sub && th' == EraseNext(th)
    case ECount =>
      sub' == sub.(erases := sub.erases + 1) && th' == Return(th, ErasedOne)
    case _ => false
  }

  function LeaveWindow(t: Tid, sub: Sub): Sub {
    sub.(pending := sub.pending - 1, window := sub.window - {t}, lockers := sub.lockers - {t})
  }

  function SetCell(sub: Sub, idx: nat, cell: Cell): Sub
    requires idx < |sub.cells|
  {
    sub.(cells := sub.cells[idx := cell])
  }

  /** Steps that write the sub-map table. */
  ghost predicate TableStep(cfg: Config, t: Tid, sh: Shared, th: Thread, sh': Shared, th': Thread) {
    match th.pc
    case MLockMap =>
      th.next < |sh.table| &&
      if sh.table[th.next] == Null
      then sh' == sh.(table := sh.table[th.next := LockedPtr], grower := Building(t)) && th' == Go(th, MStoreMap)
      else sh' == sh && th' == Go(th, MWaitMap)
    case MStoreMap => // when create throws, nobody unlocks the entry
      || (cfg.createMayThrow && sh' == sh.(grower := Gone) && th' == Return(th, Threw))
      || (th.next < |sh.table| && th' == Go(th, MPublish) &&
          exists sub :: IsNewSub(sub) && sh' == PutSub(sh, th.next, sub))
    case MPublish =>
      sh' == sh.(num := sh.num + 1, grower := Nobody) && th' == th.(pc := IEnter, i := th.next)
    case _ => false
  }

  /** A thread begins a call; held records where the key is live, if anywhere. */
  ghost predicate CallStep(sh: Shared, th: Thread, th': Thread) {
    && th.pc.Idle?
    && (th'.pc.MBegin? || th'.pc.FEnter? || th'.pc.ELoadNum?)
    && th' == th.(pc := th'.pc, key := th'.key, val := th'.val, next := 0, i := 0, idx := 0, n := 0,
                  res := NoResult, held := th'.held, effects := 0)
    && match th'.held
       case Some(at) => LiveAt(sh, th'.key, at)
       case None => !Contains(sh, th'.key)
  }

  ghost predicate ThreadStep(cfg: Config, t: Tid, sh: Shared, th: Thread, sh': Shared, th': Thread) {
    && SafeAccess(sh, th)
    && (|| (sh' == sh && CallStep(sh, th, th'))
        || (sh' == sh && ReadStep(cfg, sh, th, th'))
        || TableStep(cfg, t, sh, th, sh', th')
        || (UsesSub(th.pc) && exists sub' ::
              SubStep(cfg, t, SubAt(sh, th.i), th, sub', th') && sh' == PutSub(sh, th.i, sub')))
  }

  ghost predicate StepBy(cfg: Config, s: State, t: Tid, s': State) {
    && t < |s.threads| == |s'.threads|
    && ThreadStep(cfg, t, s.sh, s.threads[t], s'.sh, s'.threads[t])
    && forall u :: 0 <= u < |s.threads| && u != t ==> s'.threads[u] == s.threads[u]
  }

  ghost predicate Next(cfg: Config, s: State, s': State) {
    exists t :: StepBy(cfg, s, t, s')
  }

  /** One array, no other sub-map, every thread idle. */
  ghost predicate Init(s: State) {
    && |s.sh.table| == MAX_SUBMAPS
    && s.sh.num == 1 && s.sh.grower.Nobody?
    && s.sh.table[0].Arr? && IsNewSub(s.sh.table[0].sub)
    && (forall i :: 1 <= i < MAX_SUBMAPS ==> s.sh.table[i] == Null)
    && (forall t :: 0 <= t < |s.threads| ==> s.threads[t].pc.Idle? && s.threads[t].held == None)
  }

  ghost predicate StepAt(cfg: Config, r: seq<State>, i: nat) {
    i + 1 < |r| ==> Next(cfg, r[i], r[i + 1])
  }

  /** A run: any number of threads, steps interleaved in any order. */
  ghost predicate Run(cfg: Config, r: seq<State>) {
    |r| > 0 && Init(r[0]) && forall i :: StepAt(cfg, r, i)
  }
}
