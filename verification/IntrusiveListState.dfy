/** AtomicIntrusiveLinkedList as a step system: any number of threads insert at the
    head while one thread sweeps. One step is one access to the shared head or one
    turn of a private loop. Fields marked "history" record the past for the proofs;
    no step tests them. */
module IntrusiveListState {

  import opened Common

  type Item = nat
  type Hooks = map<Item, Option<Item>>

  /** One thread inside insertHead(item). seen is the local oldHead. */
  datatype Inserter =
    | Outside
    | Linking(item: Item, seen: Option<Item>)   // about to store next(item)
    | Swapping(item: Item, seen: Option<Item>)  // about to compare and swap

  /** The sweeping thread. */
  datatype Sweeper =
    | Resting
    | Reversing(head: Option<Item>, rhead: Option<Item>)
    | Unlinking(head: Option<Item>)
    | Calling(item: Item, head: Option<Item>)   // func(item) is about to be called

  datatype Order = Fifo | Lifo

  /** What one exchange took, oldest element first, and the order it is called in. */
  datatype Batch = Batch(items: seq<Item>, order: Order)

  /** Histories: list, the elements not yet taken, oldest first; due, those the sweeper
      has taken and not yet called, in the order of the calls to come; turned, how many
      of them the loop of reverse has turned round; pushes, every element inserted, in the
      order of the successful swaps; trues, how many of these swaps made insertHead
      return true; batches, one per exchange that found a list; calls, the elements
      func was called on. */
  datatype State = State(
    head: Option<Item>, hooks: Hooks, inserters: seq<Inserter>, sweeper: Sweeper,
    list: seq<Item>, due: seq<Item>, turned: nat,
    pushes: seq<Item>, trues: nat, batches: seq<Batch>, calls: seq<Item>)

  function Next(hooks: Hooks, x: Item): Option<Item> {
    if x in hooks then hooks[x] else None
  }

  function Backwards(s: seq<Item>): (r: seq<Item>)
    ensures |r| == |s| && forall i :: 0 <= i < |s| ==> r[i] == s[|s| - 1 - i]
  {
    seq(|s|, i requires 0 <= i < |s| => s[|s| - 1 - i])
  }

  function Rest(s: seq<Item>): seq<Item> {
    if s == [] then [] else s[1..]
  }

  /** The order in which a batch is handed to func. */
  function InOrder(b: Batch): seq<Item> {
    if b.order.Fifo? then b.items else Backwards(b.items)
  }

  function Taken(batches: seq<Batch>): seq<Item> {
    if batches == [] then []
    else Taken(batches[..|batches| - 1]) + batches[|batches| - 1].items
  }

  function Handed(batches: seq<Batch>): seq<Item> {
    if batches == [] then []
    else Handed(batches[..|batches| - 1]) + InOrder(batches[|batches| - 1])
  }

  /** The element a thread is inserting. */
  predicate Inserts(i: Inserter, x: Item) {
    !i.Outside? && i.item == x
  }

  /** An element the program may insert: in no list, nobody's insertion, not taken. */
  ghost predicate Free(s: State, x: Item) {
    && x !in s.list && x !in s.due
    && forall t :: 0 <= t < |s.inserters| ==> !Inserts(s.inserters[t], x)
  }

  ghost predicate Init(s: State) {
    && s.head.None? && s.sweeper.Resting?
    && (forall t :: 0 <= t < |s.inserters| ==> s.inserters[t].Outside?)
    && s.list == [] && s.due == [] && s.turned == 0
    && s.pushes == [] && s.trues == 0 && s.batches == [] && s.calls == []
    && forall x :: x in s.hooks ==> s.hooks[x].None?
  }

  // ---------- insertHead ----------

  ghost predicate LoadHead(s: State, s': State, t: Tid, x: Item)
    requires t < |s.inserters|
  {
    && s.inserters[t].Outside? && Free(s, x)
    && s' == s.(inserters := s.inserters[t := Linking(x, s.head)])
  }

  ghost predicate StoreNext(s: State, s': State, t: Tid)
    requires t < |s.inserters|
  {
    var i := s.inserters[t];
    && i.Linking?
    && s' == s.(hooks := s.hooks[i.item := i.seen],
                inserters := s.inserters[t := Swapping(i.item, i.seen)])
  }

  ghost predicate SwapHead(s: State, s': State, t: Tid)
    requires t < |s.inserters|
  {
    var i := s.inserters[t];
    && i.Swapping? && s.head == i.seen
    && s' == s.(head := Some(i.item), inserters := s.inserters[t := Outside],
                list := s.list + [i.item], pushes := s.pushes + [i.item],
                trues := s.trues + if i.seen.None? then 1 else 0)
  }

  /** A weak compare-and-swap may also fail when the head is the one expected. */
  ghost predicate SwapFails(s: State, s': State, t: Tid)
    requires t < |s.inserters|
  {
    var i := s.inserters[t];
    && i.Swapping?
    && s' == s.(inserters := s.inserters[t := Linking(i.item, s.head)])
  }

  // ---------- sweepOnce, reverseSweep ----------

  ghost predicate Exchange(s: State, s': State, order: Order) {
    && s.sweeper.Resting? && s.head.Some?
    && s' == s.(head := None, list := [], turned := 0,
                sweeper := if order.Fifo? then Reversing(s.head, None) else Unlinking(s.head),
                due := if order.Fifo? then s.list else Backwards(s.list),
                batches := s.batches + [Batch(s.list, order)])
  }

  ghost predicate Turn(s: State, s': State) {
    && s.sweeper.Reversing? && s.sweeper.head.Some?
    && var x := s.sweeper.head.value;
       s' == s.(hooks := s.hooks[x := s.sweeper.rhead], turned := s.turned + 1,
                sweeper := Reversing(Next(s.hooks, x), Some(x)))
  }

  ghost predicate Turned(s: State, s': State) {
    && s.sweeper.Reversing? && s.sweeper.head.None?
    && s' == s.(sweeper := Unlinking(s.sweeper.rhead))
  }

  ghost predicate Unlink(s: State, s': State) {
    && s.sweeper.Unlinking? && s.sweeper.head.Some?
    && var x := s.sweeper.head.value;
       s' == s.(hooks := s.hooks[x := None], sweeper := Calling(x, Next(s.hooks, x)))
  }

  /** From here on func owns the element, and may insert it again. */
  ghost predicate Call(s: State, s': State) {
    && s.sweeper.Calling?
    && s' == s.(sweeper := Unlinking(s.sweeper.head),
                due := Rest(s.due), calls := s.calls + [s.sweeper.item])
  }

  ghost predicate Unlinked(s: State, s': State) {
    && s.sweeper.Unlinking? && s.sweeper.head.None?
    && s' == s.(sweeper := Resting)
  }

  ghost predicate InserterStep(s: State, s': State, t: Tid)
    requires t < |s.inserters|
  {
    (exists x :: LoadHead(s, s', t, x)) || StoreNext(s, s', t) || SwapHead(s, s', t) || SwapFails(s, s', t)
  }

  ghost predicate SweeperStep(s: State, s': State) {
    || (exists order :: Exchange(s, s', order))
    || Turn(s, s') || Turned(s, s') || Unlink(s, s') || Call(s, s') || Unlinked(s, s')
  }

  ghost predicate Step(s: State, s': State) {
    SweeperStep(s, s') || exists t: Tid :: t < |s.inserters| && InserterStep(s, s', t)
  }

  ghost predicate Run(r: seq<State>) {
    |r| > 0 && Init(r[0]) && forall i :: 0 <= i < |r| - 1 ==> Step(r[i], r[i + 1])
  }
}
