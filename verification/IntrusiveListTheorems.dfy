/** What every run of the intrusive list keeps, and what follows for its callers. */
module IntrusiveListTheorems {

  import opened Common
  import opened IntrusiveListState

  function Before(q: seq<Item>, i: nat): Option<Item>
    requires i <= |q|
  {
    if i == 0 then None else Some(q[i - 1])
  }

  function After(q: seq<Item>, i: nat): Option<Item>
    requires i < |q|
  {
    if i + 1 == |q| then None else Some(q[i + 1])
  }

  /** h heads the chain of the first k elements of q, newest first. */
  ghost predicate Descends(hooks: Hooks, q: seq<Item>, k: nat, h: Option<Item>) {
    && k <= |q|
    && h == Before(q, k)
    && forall i {:trigger Next(hooks, q[i])} :: 0 <= i < k ==> Next(hooks, q[i]) == Before(q, i)
  }

  /** h heads the chain of the elements of q from k on, in the order of q. */
  ghost predicate Ascends(hooks: Hooks, q: seq<Item>, k: nat, h: Option<Item>) {
    && k <= |q|
    && h == (if k == |q| then None else Some(q[k]))
    && forall i {:trigger Next(hooks, q[i])} :: k <= i < |q| ==> Next(hooks, q[i]) == After(q, i)
  }

  ghost predicate Distinct(q: seq<Item>) {
    forall i, j :: 0 <= i < j < |q| ==> q[i] != q[j]
  }

  ghost predicate Apart(s: State) {
    && Distinct(s.list) && Distinct(s.due)
    && forall i, j :: 0 <= i < |s.list| && 0 <= j < |s.due| ==> s.list[i] != s.due[j]
  }

  ghost predicate InserterOk(s: State, t: Tid)
    requires t < |s.inserters|
  {
    var i := s.inserters[t];
    && (!i.Outside? ==> i.item !in s.list && i.item !in s.due)
    && (i.Swapping? ==> Next(s.hooks, i.item) == i.seen)
    && forall u :: 0 <= u < |s.inserters| && u != t && !i.Outside? ==> !Inserts(s.inserters[u], i.item)
  }

  ghost predicate SweeperOk(s: State) {
    match s.sweeper
    case Resting => s.due == []
    case Reversing(h, r) =>
      && s.turned <= |s.due|
      && Descends(s.hooks, s.due, |s.due| - s.turned, h)
      && Ascends(s.hooks, s.due, |s.due| - s.turned, r)
    case Unlinking(h) => Ascends(s.hooks, s.due, 0, h)
    case Calling(x, h) =>
      && s.due != [] && s.due[0] == x && Next(s.hooks, x).None?
      && Ascends(s.hooks, s.due, 1, h)
  }

  ghost predicate FreeHooks(s: State) {
    forall x :: Free(s, x) ==> Next(s.hooks, x).None?
  }

  ghost predicate Shape(s: State) {
    && Descends(s.hooks, s.list, |s.list|, s.head)
    && SweeperOk(s)
    && Apart(s)
    && (forall t :: 0 <= t < |s.inserters| ==> InserterOk(s, t))
    && FreeHooks(s)
  }

  ghost predicate History(s: State) {
    && s.pushes == Taken(s.batches) + s.list
    && s.calls + s.due == Handed(s.batches)
    && s.trues == |s.batches| + if s.list == [] then 0 else 1
  }

  ghost predicate Inv(s: State) {
    Shape(s) && History(s)
  }

  lemma InitInv(s: State)
    requires Init(s)
    ensures Inv(s)
  {
  }

  // ---------- the shape survives every step ----------

  lemma DescendsKept(hooks: Hooks, q: seq<Item>, k: nat, h: Option<Item>, x: Item, v: Option<Item>)
    requires Descends(hooks, q, k, h) && forall i :: 0 <= i < k ==> q[i] != x
    ensures Descends(hooks[x := v], q, k, h)
  {
    assert forall i :: 0 <= i < k ==> Next(hooks[x := v], q[i]) == Next(hooks, q[i]);
  }

  lemma AscendsKept(hooks: Hooks, q: seq<Item>, k: nat, h: Option<Item>, x: Item, v: Option<Item>)
    requires Ascends(hooks, q, k, h) && forall i :: k <= i < |q| ==> q[i] != x
    ensures Ascends(hooks[x := v], q, k, h)
  {
    assert forall i :: k <= i < |q| ==> Next(hooks[x := v], q[i]) == Next(hooks, q[i]);
  }

  lemma SweeperKept(s: State, s': State, x: Item, v: Option<Item>)
    requires SweeperOk(s) && x !in s.due && s'.hooks == s.hooks[x := v]
    requires s'.sweeper == s.sweeper && s'.due == s.due && s'.turned == s.turned
    ensures SweeperOk(s')
  {
    match s.sweeper
    case Resting =>
    case Reversing(h, r) =>
      DescendsKept(s.hooks, s.due, |s.due| - s.turned, h, x, v);
      AscendsKept(s.hooks, s.due, |s.due| - s.turned, r, x, v);
    case Unlinking(h) => AscendsKept(s.hooks, s.due, 0, h, x, v);
    case Calling(y, h) => AscendsKept(s.hooks, s.due, 1, h, x, v);
  }

  /** Insertions under way are not disturbed by a sweeper that stays within its batch. */
  lemma InsertersKept(s: State, s': State)
    requires (forall t :: 0 <= t < |s.inserters| ==> InserterOk(s, t)) && s'.inserters == s.inserters
    requires forall x :: x in s'.list || x in s'.due ==> x in s.list || x in s.due
    requires forall x :: x !in s.due ==> Next(s'.hooks, x) == Next(s.hooks, x)
    ensures forall t :: 0 <= t < |s'.inserters| ==> InserterOk(s', t)
  {
    forall t | 0 <= t < |s'.inserters| ensures InserterOk(s', t) {
      assert InserterOk(s, t);
    }
  }

  lemma LoadHeadShape(s: State, s': State, t: Tid, x: Item)
    requires Shape(s) && t < |s.inserters| && LoadHead(s, s', t, x)
    ensures Shape(s')
  {
    forall u | 0 <= u < |s'.inserters| ensures InserterOk(s', u) {
      assert InserterOk(s, u);
    }
    FreedByNobody(s, s', t, x);
  }

  /** A thread that goes on inserting frees nothing. */
  lemma FreedByNobody(s: State, s': State, t: Tid, x: Item)
    requires t < |s.inserters| == |s'.inserters| && s'.list == s.list && s'.due == s.due
    requires s.inserters[t].Outside? || Inserts(s.inserters[t], x)
    requires Inserts(s'.inserters[t], x)
    requires forall u :: 0 <= u < |s.inserters| && u != t ==> s'.inserters[u] == s.inserters[u]
    ensures forall y :: Free(s', y) ==> Free(s, y) && y != x
  {
    forall y | Free(s', y) ensures Free(s, y) && y != x {
      assert !Inserts(s'.inserters[t], y);
      forall u | 0 <= u < |s.inserters| ensures !Inserts(s.inserters[u], y) {
        assert !Inserts(s'.inserters[u], y);
      }
    }
  }

  lemma StoreNextShape(s: State, s': State, t: Tid)
    requires Shape(s) && t < |s.inserters| && StoreNext(s, s', t)
    ensures Shape(s')
  {
    var i := s.inserters[t];
    assert InserterOk(s, t);
    DescendsKept(s.hooks, s.list, |s.list|, s.head, i.item, i.seen);
    SweeperKept(s, s', i.item, i.seen);
    StoreNextInserters(s, s', t);
    FreedByNobody(s, s', t, i.item);
  }

  lemma StoreNextInserters(s: State, s': State, t: Tid)
    requires (forall u :: 0 <= u < |s.inserters| ==> InserterOk(s, u))
    requires t < |s.inserters| && StoreNext(s, s', t)
    ensures forall u :: 0 <= u < |s'.inserters| ==> InserterOk(s', u)
  {
    assert InserterOk(s, t);
    forall u | 0 <= u < |s'.inserters| ensures InserterOk(s', u) {
      assert InserterOk(s, u);
      assert u != t ==> !Inserts(s.inserters[u], s.inserters[t].item);
    }
  }

  lemma ChainGrows(hooks: Hooks, q: seq<Item>, h: Option<Item>, x: Item)
    requires Descends(hooks, q, |q|, h) && Next(hooks, x) == h
    ensures Descends(hooks, q + [x], |q| + 1, Some(x))
  {
    assert forall i :: 0 <= i < |q| ==> Before(q + [x], i) == Before(q, i);
  }

  lemma SwapHeadShape(s: State, s': State, t: Tid)
    requires Shape(s) && t < |s.inserters| && SwapHead(s, s', t)
    ensures Shape(s')
  {
    var x := s.inserters[t].item;
    assert InserterOk(s, t);
    ChainGrows(s.hooks, s.list, s.head, x);
    assert s'.list[|s.list|] == x && forall i :: 0 <= i < |s.list| ==> s'.list[i] == s.list[i];
    forall u | 0 <= u < |s'.inserters| ensures InserterOk(s', u) {
      assert InserterOk(s, u);
      assert u != t ==> !Inserts(s.inserters[u], x);
    }
    forall y | Free(s', y) ensures Free(s, y) {
      forall u | 0 <= u < |s.inserters| ensures !Inserts(s.inserters[u], y) {
        assert !Inserts(s'.inserters[u], y);
      }
    }
  }

  lemma SwapFailsShape(s: State, s': State, t: Tid)
    requires Shape(s) && t < |s.inserters| && SwapFails(s, s', t)
    ensures Shape(s')
  {
    assert InserterOk(s, t);
    forall u | 0 <= u < |s'.inserters| ensures InserterOk(s', u) {
      assert InserterOk(s, u);
    }
    FreedByNobody(s, s', t, s.inserters[t].item);
  }

  lemma ChainBackwards(hooks: Hooks, q: seq<Item>, h: Option<Item>)
    requires Descends(hooks, q, |q|, h)
    ensures Ascends(hooks, Backwards(q), 0, h)
  {
    var b := Backwards(q);
    forall i | 0 <= i < |b| ensures Next(hooks, b[i]) == After(b, i) {
      assert b[i] == q[|q| - 1 - i] && After(b, i) == Before(q, |q| - 1 - i);
    }
  }

  lemma ExchangeShape(s: State, s': State, order: Order)
    requires Shape(s) && Exchange(s, s', order)
    ensures Shape(s')
  {
    BackwardsHasSame(s.list);
    assert forall x :: x in s'.due <==> x in s.list;
    InsertersKept(s, s');
    ChainBackwards(s.hooks, s.list, s.head);
    assert forall y :: Free(s', y) ==> Free(s, y);
  }

  lemma TurnChains(hooks: Hooks, q: seq<Item>, k: nat, r: Option<Item>)
    requires 0 < k <= |q| && Distinct(q)
    requires Descends(hooks, q, k, Some(q[k - 1])) && Ascends(hooks, q, k, r)
    ensures Descends(hooks[q[k - 1] := r], q, k - 1, Next(hooks, q[k - 1]))
    ensures Ascends(hooks[q[k - 1] := r], q, k - 1, Some(q[k - 1]))
  {
    DescendsKept(hooks, q, k - 1, Next(hooks, q[k - 1]), q[k - 1], r);
    AscendsKept(hooks, q, k, r, q[k - 1], r);
  }

  lemma TurnSweeper(s: State, s': State)
    requires SweeperOk(s) && Distinct(s.due) && Turn(s, s')
    ensures SweeperOk(s')
  {
    assert 0 < |s.due| - s.turned;
    TurnChains(s.hooks, s.due, |s.due| - s.turned, s.sweeper.rhead);
  }

  lemma TurnShape(s: State, s': State)
    requires Shape(s) && Turn(s, s')
    ensures Shape(s')
  {
    var x := s.sweeper.head.value;
    assert x in s.due;
    TurnSweeper(s, s');
    DescendsKept(s.hooks, s.list, |s.list|, s.head, x, s.sweeper.rhead);
    InsertersKept(s, s');
    assert forall y :: Free(s', y) ==> Free(s, y);
  }

  lemma UnlinkShape(s: State, s': State)
    requires Shape(s) && Unlink(s, s')
    ensures Shape(s')
  {
    var x := s.sweeper.head.value;
    assert x == s.due[0];
    DescendsKept(s.hooks, s.list, |s.list|, s.head, x, None);
    AscendsKept(s.hooks, s.due, 1, Next(s.hooks, x), x, None);
    InsertersKept(s, s');
    assert forall y :: Free(s', y) ==> Free(s, y);
  }

  lemma CallShape(s: State, s': State)
    requires Shape(s) && Call(s, s')
    ensures Shape(s')
  {
    assert s.due == [s.sweeper.item] + s'.due;
    assert forall i :: 0 <= i < |s'.due| ==> s'.due[i] == s.due[i + 1];
    InsertersKept(s, s');
    forall y | Free(s', y) ensures Next(s'.hooks, y).None? {
      if y != s.sweeper.item {
        assert Free(s, y);
      }
    }
  }

  lemma PauseShape(s: State, s': State)
    requires Shape(s) && (Turned(s, s') || Unlinked(s, s'))
    ensures Shape(s')
  {
    InsertersKept(s, s');
    assert forall y :: Free(s', y) ==> Free(s, y);
  }

  /** Every step keeps the list and the sweeper's fragment two chains without common
      elements, and disturbs no insertion. */
  lemma StepShape(s: State, s': State)
    requires Shape(s) && Step(s, s')
    ensures Shape(s')
  {
    hide Shape;
    if SweeperStep(s, s') {
      if order :| Exchange(s, s', order) {
        ExchangeShape(s, s', order);
      } else if Turn(s, s') {
        TurnShape(s, s');
      } else if Unlink(s, s') {
        UnlinkShape(s, s');
      } else if Call(s, s') {
        CallShape(s, s');
      } else {
        PauseShape(s, s');
      }
    } else {
      var t: Tid :| t < |s.inserters| && InserterStep(s, s', t);
      if x :| LoadHead(s, s', t, x) {
        LoadHeadShape(s, s', t, x);
      } else if StoreNext(s, s', t) {
        StoreNextShape(s, s', t);
      } else if SwapHead(s, s', t) {
        SwapHeadShape(s, s', t);
      } else {
        SwapFailsShape(s, s', t);
      }
    }
  }

  // ---------- the histories ----------

  lemma ExchangeHistory(s: State, s': State, order: Order)
    requires History(s) && s.due == [] && s.list != [] && Exchange(s, s', order)
    ensures History(s')
  {
    var b := Batch(s.list, order);
    assert s'.batches[..|s'.batches| - 1] == s.batches;
    assert s'.batches[|s'.batches| - 1] == b;
    assert InOrder(b) == s'.due;
    assert s.calls + s.due == s.calls;
    assert s'.pushes == Taken(s'.batches) + s'.list;
  }

  lemma StepHistory(s: State, s': State)
    requires Inv(s) && Step(s, s')
    ensures History(s')
  {
    hide Free, InserterOk, FreeHooks, Apart, Ascends, Taken, Handed;
    if order :| Exchange(s, s', order) {
      ExchangeHistory(s, s', order);
    } else if Call(s, s') {
      assert s.due == [s.sweeper.item] + s'.due;
      assert s'.calls + s'.due == s.calls + s.due;
    } else if t: Tid :| t < |s.inserters| && SwapHead(s, s', t) {
      assert s'.pushes == Taken(s.batches) + s'.list;
    }
  }

  lemma {:induction false} RunInv(r: seq<State>, i: nat)
    requires Run(r) && i < |r|
    ensures Inv(r[i])
  {
    if i == 0 {
      InitInv(r[0]);
    } else {
      RunInv(r, i - 1);
      StepShape(r[i - 1], r[i - 1 + 1]);
      StepHistory(r[i - 1], r[i - 1 + 1]);
    }
  }

  // ---------- what callers rely on ----------

  lemma BackwardsHasSame(q: seq<Item>)
    ensures forall x :: x in Backwards(q) <==> x in q
    ensures Distinct(q) ==> Distinct(Backwards(q))
  {
    forall x | x in q ensures x in Backwards(q) {
      var i :| 0 <= i < |q| && q[i] == x;
      assert Backwards(q)[|q| - 1 - i] == x;
    }
  }

  lemma {:induction false} BackwardsCounts(q: seq<Item>)
    ensures multiset(Backwards(q)) == multiset(q)
  {
    if q != [] {
      var n := |q| - 1;
      BackwardsCounts(q[..n]);
      assert Backwards(q) == [q[n]] + Backwards(q[..n]);
      assert q == q[..n] + [q[n]];
    }
  }

  lemma {:induction false} HandedCounts(batches: seq<Batch>)
    ensures multiset(Handed(batches)) == multiset(Taken(batches))
  {
    if batches != [] {
      HandedCounts(batches[..|batches| - 1]);
      BackwardsCounts(batches[|batches| - 1].items);
    }
  }

  lemma {:induction false} HandedInOrder(batches: seq<Batch>)
    requires forall b :: b in batches ==> b.order.Fifo?
    ensures Handed(batches) == Taken(batches)
  {
    if batches != [] {
      HandedInOrder(batches[..|batches| - 1]);
      assert batches[|batches| - 1] in batches;
    }
  }

  /** No element is lost and none is called twice: at every moment each insertion has
      been called, waits in the sweeper's hands, or is still in the list. */
  lemma EveryInsertionOnce(r: seq<State>, i: nat)
    requires Run(r) && i < |r|
    ensures multiset(r[i].pushes) == multiset(r[i].calls) + multiset(r[i].due) + multiset(r[i].list)
  {
    var s := r[i];
    RunInv(r, i);
    HandedCounts(s.batches);
    assert multiset(s.calls + s.due) == multiset(Taken(s.batches));
  }

  /** sweep: while nobody calls reverseSweep, func sees the elements in exactly the order
      of the successful swaps, and between sweeps all that were taken have been seen. */
  lemma CallsFollowInsertions(r: seq<State>, i: nat)
    requires Run(r) && i < |r| && forall b :: b in r[i].batches ==> b.order.Fifo?
    ensures r[i].pushes == r[i].calls + r[i].due + r[i].list
    ensures r[i].sweeper.Resting? ==> r[i].pushes == r[i].calls + r[i].list
  {
    RunInv(r, i);
    HandedInOrder(r[i].batches);
  }

  /** reverseSweep: each batch comes newest first, the batches one after the other. */
  lemma BatchesAreHandedOver(r: seq<State>, i: nat)
    requires Run(r) && i < |r|
    ensures r[i].calls + r[i].due == Handed(r[i].batches)
    ensures r[i].pushes == Taken(r[i].batches) + r[i].list
    ensures r[i].sweeper.Resting? ==> r[i].calls == Handed(r[i].batches)
  {
    RunInv(r, i);
  }

  /** An element handed to func has a null hook, and so has every element that may be
      inserted: the assertion on entry to insertHead holds. */
  lemma HooksAreNull(r: seq<State>, i: nat, x: Item)
    requires Run(r) && i < |r|
    requires (r[i].sweeper.Calling? && r[i].sweeper.item == x) || Free(r[i], x)
    ensures Next(r[i].hooks, x).None?
  {
    RunInv(r, i);
  }

  /** insertHead returns true as often as an exchange finds a list, and once more
      while there is one. */
  lemma TruesCountBatches(r: seq<State>, i: nat)
    requires Run(r) && i < |r|
    ensures r[i].trues == |r[i].batches| + if r[i].head.None? then 0 else 1
  {
    RunInv(r, i);
  }

  /** insertHead returns true if and only if its element is alone in the list. */
  lemma TrueMeansAlone(r: seq<State>, i: nat, t: Tid)
    requires Run(r) && i + 1 < |r| && t < |r[i].inserters| && SwapHead(r[i], r[i + 1], t)
    ensures r[i + 1].trues > r[i].trues <==> r[i + 1].list == [r[i].inserters[t].item]
  {
    RunInv(r, i);
  }
}
