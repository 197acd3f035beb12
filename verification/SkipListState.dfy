/** ConcurrentSkipList and its node recycler as a step system. A step has at most
    one access to memory that another thread may change or see at that moment:
    accesses to a node the thread has locked, and to a node nobody else can reach
    yet, are joined to the step beside them.
    Fields marked "history" record the past for the proofs; no step tests them. */
module SkipListState {

  import opened Common

  const NIL: nat := 0

  /** MAX_HEIGHT. */
  datatype Config = Config(maxHeight: nat)

  ghost predicate ValidConfig(cfg: Config) {
    2 <= cfg.maxHeight < 64
  }

  /** SkipListNode. maker, marker (history): who created it, and who marked it. */
  datatype Node = Node(height: nat, key: int, isHead: bool, marked: bool, full: bool,
                       skip: seq<nat>, lock: Option<Tid>, maker: Tid, marker: Tid)

  /** Per layer (history): the nodes linked there, the head among them, and the
      nodes that once were. counted (history): the nodes that size stands for. */
  datatype List = List(nodes: seq<Node>, head: nat, size: int,
                       lin: seq<set<nat>>, gone: seq<set<nat>>, counted: set<nat>)

  /** NodeRecycler, and which nodes it has destroyed. refset (history): the accessors
      that refs counts. eras (history): for each accessor that may still use nodes,
      the nodes that had left each layer when it began. binned (history): all nodes
      ever added. collector, pending (history): the accessor that is destroying a
      batch, and what is left of it. */
  datatype Recycler = Recycler(bin: seq<nat>, dirty: bool, refs: int, lock: Option<Tid>, freed: set<nat>,
                               refset: set<Tid>, eras: map<Tid, seq<set<nat>>>, binned: set<nat>,
                               collector: Option<Tid>, pending: seq<nat>)

  datatype Op = Find | Add | Remove

  datatype Result =
    | NoResult
    | Missing | Found(at: nat)          // find
    | Added(node: nat) | Existing(found: nat)
    | Removed | NotRemoved

  datatype Pc =
    | Outside | Idle | Returned
    | SMax | SHead | SNode                           // findInsertionPointGetMaxLayer
    | AMarked | AWait | APick                        // addOrGetData after the search
    | RFull | RMarked | RLock | RMark                // remove after the search
    | Lk | LkCheck | LkSucc                          // lockNodesForChange
    | ACreate | ALink | AFull | ACount
    | RUnlink | RCount
    | Unlock                                         // the guards go out of scope
    | AHeight | GHead | GLock | GCopy | GCas | GDestroy | GUnlock   // growHeight
    | Recycle | RUnlock
    | FHead | FDown | FRight | FMarked               // findNodeDownRight, find
    | LDirty | LRefs | LLock | LTest | LSwap | LDestroy | LDec | LDecIn   // releaseRef

  /** Registers of one accessor, used by one thread at a time. guards: the
      predecessors locked, in the order of locking. win (history): what had
      left each layer when the search began. */
  datatype Thread = Thread(
    pc: Pc, op: Op, key: int, res: Result,
    max: nat, layer: nat, pred: nat, foundLayer: int, foundNode: nat,
    preds: seq<nat>, succs: seq<nat>, height: nat, guards: seq<nat>, done: bool,
    target: nat, isMarked: bool, oldHead: nat, newHead: nat, batch: seq<nat>,
    win: seq<set<nat>>)

  datatype State = State(l: List, rec: Recycler, threads: seq<Thread>)

  // ---------- nodes ----------

  predicate IsNode(l: List, x: nat) {
    0 < x < |l.nodes|
  }

  function Skip(l: List, k: nat, x: nat): nat {
    if x < |l.nodes| && k < |l.nodes[x].skip| then l.nodes[x].skip[k] else NIL
  }

  predicate Marked(l: List, x: nat) {
    x < |l.nodes| && l.nodes[x].marked
  }

  predicate Full(l: List, x: nat) {
    x < |l.nodes| && l.nodes[x].full
  }

  function Height(l: List, x: nat): nat {
    if x < |l.nodes| then l.nodes[x].height else 0
  }

  /** greater(data, node). */
  predicate Greater(l: List, d: int, x: nat) {
    IsNode(l, x) && l.nodes[x].key < d
  }

  /** less(data, node). */
  predicate Less(l: List, d: int, x: nat) {
    x == NIL || (x < |l.nodes| && d < l.nodes[x].key)
  }

  function SetNode(l: List, x: nat, n: Node): List
    requires x < |l.nodes|
  {
    l.(nodes := l.nodes[x := n])
  }

  function SetSkip(l: List, k: nat, x: nat, y: nat): List
    requires x < |l.nodes| && k < |l.nodes[x].skip|
  {
    SetNode(l, x, l.nodes[x].(skip := l.nodes[x].skip[k := y]))
  }

  function SetLock(l: List, x: nat, o: Option<Tid>): List
    requires x < |l.nodes|
  {
    SetNode(l, x, l.nodes[x].(lock := o))
  }

  // ---------- the pointers a step dereferences ----------

  predicate Usable(l: List, freed: set<nat>, x: nat) {
    IsNode(l, x) && x !in freed
  }

  /** The link of x at layer k may be read, and so may the node it leads to. */
  predicate CanFollow(l: List, freed: set<nat>, k: nat, x: nat) {
    && Usable(l, freed, x) && k < |l.nodes[x].skip|
    && (l.nodes[x].skip[k] != NIL ==> Usable(l, freed, l.nodes[x].skip[k]))
  }

  predicate SafeAccess(cfg: Config, l: List, rec: Recycler, th: Thread) {
    && |th.preds| == |th.succs| == cfg.maxHeight == |l.lin| == |l.gone|
    && match th.pc
       case SMax | SHead | FHead | AHeight | GHead => Usable(l, rec.freed, l.head) && Height(l, l.head) > 0
       case SNode => th.layer < cfg.maxHeight && CanFollow(l, rec.freed, th.layer, th.pred)
       case FDown => th.layer > 0 && CanFollow(l, rec.freed, th.layer - 1, th.pred)
       case FRight => CanFollow(l, rec.freed, th.layer, th.pred)
       case AMarked | AWait | RFull | RMarked | RLock | FMarked => Usable(l, rec.freed, th.foundNode)
       case RMark => Usable(l, rec.freed, th.target)
       case RUnlock => Usable(l, rec.freed, th.target)
       case Lk => th.layer < th.height <= th.max + 1 <= cfg.maxHeight && Usable(l, rec.freed, th.preds[th.layer])
       case LkCheck =>
         && th.layer < th.height <= cfg.maxHeight && Usable(l, rec.freed, th.preds[th.layer])
         && th.layer < |l.nodes[th.preds[th.layer]].skip|
       case LkSucc => th.layer < th.height <= cfg.maxHeight && Usable(l, rec.freed, th.succs[th.layer])
       case ACreate => true
       case ALink =>
         && th.layer < th.height <= cfg.maxHeight
         && Usable(l, rec.freed, th.target) && th.layer < |l.nodes[th.target].skip|
         && Usable(l, rec.freed, th.preds[th.layer]) && th.layer < |l.nodes[th.preds[th.layer]].skip|
         && th.preds[th.layer] != th.target
       case AFull => Usable(l, rec.freed, th.target)
       case RUnlink =>
         && th.layer < cfg.maxHeight
         && Usable(l, rec.freed, th.target) && th.layer < |l.nodes[th.target].skip|
         && Usable(l, rec.freed, th.preds[th.layer]) && th.layer < |l.nodes[th.preds[th.layer]].skip|
       case Unlock => th.guards != [] ==> Usable(l, rec.freed, th.guards[|th.guards| - 1])
       case GLock | GCopy | GUnlock => Usable(l, rec.freed, th.oldHead)
       case GCas => Usable(l, rec.freed, th.oldHead) && Usable(l, rec.freed, th.newHead)
       case LDestroy => th.batch != [] ==> Usable(l, rec.freed, th.batch[0])
       case _ => true
  }

  // ---------- local steps ----------

  function Go(th: Thread, pc: Pc): Thread {
    th.(pc := pc)
  }

  function Return(th: Thread, res: Result): Thread {
    th.(pc := Returned, res := res)
  }

  function StartLocking(th: Thread): Thread {
    th.(pc := Lk, layer := 0, guards := [])
  }

  function SearchDone(th: Thread): Thread {
    if th.op.Add? then Go(th, if th.foundLayer >= 0 then AMarked else APick)
    else if th.isMarked then StartLocking(th)
    else if th.foundLayer < 0 then Return(th, NotRemoved)
    else Go(th, RFull)
  }

  /** findInsertionPoint leaves the current layer, x being the node it stopped at. */
  function LayerDone(l: List, th: Thread, x: nat): Thread
    requires th.layer < |th.preds| == |th.succs|
  {
    var hit := th.foundLayer == -1 && !Less(l, th.key, x);
    var fl := if hit then th.layer as int else th.foundLayer;
    var fn := if hit then x else th.foundNode;
    var th1 := th.(foundLayer := fl, foundNode := fn, preds := th.preds[th.layer := th.pred],
                   succs := th.succs[th.layer := if fl >= 0 then fn else x]);
    if th.layer > 0 then th1.(layer := th.layer - 1) else SearchDone(th1)
  }

  /** One more layer is locked and valid. */
  function LayerLocked(th: Thread): Thread {
    if th.layer + 1 < th.height then th.(pc := Lk, layer := th.layer + 1)
    else if th.op.Add? then th.(pc := ACreate, layer := 0)
    else Go(th, RUnlink)
  }

  /** Each load of shared list memory, with the local work up to the next access. */
  ghost predicate ReadStep(cfg: Config, l: List, rec: Recycler, th: Thread, th': Thread)
    requires SafeAccess(cfg, l, rec, th)
  {
    match th.pc
    case Returned => th' == Go(th, Idle)
    case SMax =>
      th' == th.(pc := SHead, max := Height(l, l.head) - 1, foundLayer := -1, foundNode := NIL, win := l.gone)
    case SHead => th' == th.(pc := SNode, pred := l.head, layer := th.max)
    case SNode =>
      var x := Skip(l, th.layer, th.pred);
      th' == if Greater(l, th.key, x) then th.(pred := x) else LayerDone(l, th, x)
    case AMarked => th' == Go(th, if Marked(l, th.foundNode) then SMax else AWait)
    case AWait => th' == if Full(l, th.foundNode) then Return(th, Existing(th.foundNode)) else th
    case APick => 1 <= th'.height <= th.max + 1 && th' == StartLocking(th.(height := th'.height))
    case RFull =>
      th' == if Full(l, th.foundNode) && Height(l, th.foundNode) - 1 == th.foundLayer then Go(th, RMarked)
             else Return(th, NotRemoved)
    case RMarked => th' == if Marked(l, th.foundNode) then Return(th, NotRemoved) else Go(th, RLock)
    case Lk => th.layer > 0 && th.preds[th.layer] == th.preds[th.layer - 1] && th' == Go(th, LkCheck)
    case LkCheck =>
      var p := th.preds[th.layer];
      th' == if Marked(l, p) || Skip(l, th.layer, p) != th.succs[th.layer] then Go(th, Unlock)
             else if th.op.Add? && th.succs[th.layer] != NIL then Go(th, LkSucc)
             else LayerLocked(th)
    case LkSucc => th' == if Marked(l, th.succs[th.layer]) then Go(th, Unlock) else LayerLocked(th)
    case Unlock =>
      th.guards == [] && th' == Go(th, if !th.done then SMax else if th.op.Add? then AHeight else Recycle)
    case AHeight =>
      || th' == Return(th, Added(th.target))
      || (Height(l, l.head) < cfg.maxHeight && th' == th.(pc := GHead, height := Height(l, l.head) + 1))
    case GHead =>
      th' == if Height(l, l.head) >= th.height then Return(th, Added(th.target))
             else th.(pc := GLock, oldHead := l.head)
    case FHead =>
      th' == th.(pc := FDown, pred := l.head, layer := Height(l, l.head), win := l.gone)
    case FDown =>
      var x := Skip(l, th.layer - 1, th.pred);
      th' == if Less(l, th.key, x) then (if th.layer == 1 then Return(th, Missing) else th.(layer := th.layer - 1))
             else if Greater(l, th.key, x) then th.(pc := FRight, layer := th.layer - 1, pred := x)
             else th.(pc := FMarked, foundNode := x)
    case FRight =>
      var x := Skip(l, th.layer, th.pred);
      th' == if Greater(l, th.key, x) then th.(pred := x)
             else if !Less(l, th.key, x) then th.(pc := FMarked, foundNode := x)
             else if th.layer == 0 then Return(th, Missing) else Go(th, FDown)
    case FMarked => th' == Return(th, if Marked(l, th.foundNode) then Missing else Found(th.foundNode))
    case _ => false
  }

  // ---------- steps that write the list ----------

  function NewNode(height: nat, key: int, t: Tid): Node {
    Node(height, key, false, false, false, seq(height, i => NIL), None, t, 0)
  }

  /** preds[k]->setSkip(k, newNode), after newNode->setSkip(k, succs[k]). */
  function LinkNode(l: List, k: nat, p: nat, x: nat, y: nat): List
    requires p < |l.nodes| && k < |l.nodes[p].skip| && x < |l.nodes| && k < |l.nodes[x].skip|
    requires k < |l.lin| && p != x
  {
    SetSkip(SetSkip(l, k, x, y), k, p, x).(lin := l.lin[k := l.lin[k] + {x}])
  }

  /** preds[k]->setSkip(k, nodeToDelete->skip(k)). */
  function UnlinkNode(l: List, k: nat, p: nat, x: nat): List
    requires p < |l.nodes| && k < |l.nodes[p].skip| && x < |l.nodes| && k < |l.nodes[x].skip|
    requires k < |l.lin| == |l.gone|
  {
    SetSkip(l, k, p, l.nodes[x].skip[k]).(lin := l.lin[k := l.lin[k] - {x}], gone := l.gone[k := l.gone[k] + {x}])
  }

  /** The successful compare_exchange of head_, with the mark on the old head,
      which is only ever read under its lock. */
  function SwapHead(l: List, from: nat, to: nat, t: Tid): List
    requires from < |l.nodes| && to < |l.nodes| && |l.lin| == |l.gone|
  {
    SetNode(l, from, l.nodes[from].(marked := true, marker := t)).(
      head := to,
      lin := seq(|l.lin|, k requires 0 <= k < |l.lin| =>
        if k < l.nodes[to].height then l.lin[k] - {from} + {to} else l.lin[k]),
      gone := seq(|l.gone|, k requires 0 <= k < |l.gone| =>
        if k < l.nodes[from].height then l.gone[k] + {from} else l.gone[k]))
  }

  /** create and copyHead: the links of the locked head, the rest null. */
  function CopiedHead(l: List, from: nat, height: nat, key: int, t: Tid): Node
    requires from < |l.nodes|
  {
    Node(height, key, true, l.nodes[from].marked, l.nodes[from].full,
      seq(height, k requires 0 <= k => Skip(l, k, from)), None, t, 0)
  }

  ghost predicate WriteStep(cfg: Config, t: Tid, l: List, rec: Recycler, th: Thread, l': List, th': Thread)
    requires SafeAccess(cfg, l, rec, th)
  {
    match th.pc
    case RLock =>
      l.nodes[th.foundNode].lock == None && l' == SetLock(l, th.foundNode, Some(t)) &&
      th' == th.(pc := RMark, target := th.foundNode, height := Height(l, th.foundNode))
    case RMark =>
      if Marked(l, th.target) then l' == l && th' == th.(pc := RUnlock, res := NotRemoved)
      else
        && l' == SetNode(l, th.target, l.nodes[th.target].(marked := true, marker := t))
        && th' == StartLocking(th.(isMarked := true))
    case Lk =>
      var p := th.preds[th.layer];
      !(th.layer > 0 && p == th.preds[th.layer - 1]) && l.nodes[p].lock == None &&
      l' == SetLock(l, p, Some(t)) && th' == th.(pc := LkCheck, guards := th.guards + [p])
    case ACreate =>
      l' == l.(nodes := l.nodes + [NewNode(th.height, th.key, t)]) && th' == th.(pc := ALink, target := |l.nodes|)
    case ALink =>
      l' == LinkNode(l, th.layer, th.preds[th.layer], th.target, th.succs[th.layer]) &&
      th' == if th.layer + 1 < th.height then th.(layer := th.layer + 1) else Go(th, AFull)
    case AFull => l' == SetNode(l, th.target, l.nodes[th.target].(full := true)) && th' == Go(th, ACount)
    case ACount =>
      l' == l.(size := l.size + 1, counted := l.counted + {th.target}) && th' == th.(pc := Unlock, done := true)
    case RUnlink =>
      l' == UnlinkNode(l, th.layer, th.preds[th.layer], th.target) &&
      th' == if th.layer > 0 then th.(layer := th.layer - 1) else Go(th, RCount)
    case RCount =>
      l' == l.(size := l.size - 1, counted := l.counted - {th.target}) && th' == th.(pc := Unlock, done := true)
    case Unlock =>
      th.guards != [] && l' == SetLock(l, th.guards[|th.guards| - 1], None) &&
      th' == th.(guards := th.guards[..|th.guards| - 1])
    case RUnlock => l' == SetLock(l, th.target, None) && th' == th.(pc := Returned, isMarked := false)
    case GLock =>
      l.nodes[th.oldHead].lock == None && l' == SetLock(l, th.oldHead, Some(t)) && th' == Go(th, GCopy)
    case GCopy =>
      exists any :: l' == l.(nodes := l.nodes + [CopiedHead(l, th.oldHead, th.height, any, t)]) &&
                    th' == th.(pc := GCas, newHead := |l.nodes|)
    case GCas =>
      if l.head == th.oldHead then l' == SwapHead(l, th.oldHead, th.newHead, t) && th' == Go(th, GUnlock)
      else l' == l && th' == Go(th, GDestroy)
    case GUnlock =>
      l' == SetLock(l, th.oldHead, None) &&
      th' == if th.newHead != NIL then Go(th, Recycle) else Return(th, Added(th.target))
    case _ => false
  }

  // ---------- accessors and the recycler ----------

  ghost predicate RecStep(t: Tid, l: List, rec: Recycler, th: Thread, rec': Recycler, th': Thread) {
    match th.pc
    case Outside =>
      && rec' == rec.(refs := rec.refs + 1, refset := rec.refset + {t}, eras := rec.eras[t := l.gone])
      && th' == Go(th, Idle)
    case Recycle =>
      var x := if th.op == Remove then th.target else th.oldHead;
      rec.lock == None && rec' == rec.(bin := rec.bin + [x], dirty := true, binned := rec.binned + {x}) &&
      th' == if th.op == Remove then th.(pc := RUnlock, res := Removed) else Return(th, Added(th.target))
    case GDestroy => rec' == rec.(freed := rec.freed + {th.newHead}) && th' == th.(pc := GUnlock, newHead := NIL)
    case Idle => rec' == rec.(eras := rec.eras - {t}) && th' == Go(th, LDirty)
    case LDirty => rec' == rec && th' == Go(th, if rec.dirty then LRefs else LDec)
    case LRefs => rec' == rec && th' == Go(th, if rec.refs > 1 then LDec else LLock)
    case LLock => rec.lock == None && rec' == rec.(lock := Some(t)) && th' == Go(th, LTest)
    case LTest =>
      if rec.bin == [] || rec.refs > 1 then rec' == rec && th' == Go(th, LDecIn)
      else rec' == rec.(collector := Some(t)) && th' == Go(th, LSwap)
    case LSwap =>
      && rec' == rec.(bin := [], dirty := false, lock := None, pending := rec.bin)
      && th' == th.(pc := LDestroy, batch := rec.bin)
    case LDestroy =>
      if th.batch == [] then rec' == rec.(collector := None) && th' == Go(th, LDec)
      else
        && rec' == rec.(freed := rec.freed + {th.batch[0]},
                        pending := if rec.pending == [] then [] else rec.pending[1..])
        && th' == th.(batch := th.batch[1..])
    case LDec => rec' == rec.(refs := rec.refs - 1, refset := rec.refset - {t}) && th' == Go(th, Outside)
    case LDecIn =>
      && rec' == rec.(refs := rec.refs - 1, refset := rec.refset - {t}, lock := None)
      && th' == Go(th, Outside)
    case _ => false
  }

  /** A call of find, add or remove on the accessor. */
  ghost predicate CallStep(cfg: Config, th: Thread, th': Thread) {
    && th.pc.Idle?
    && |th'.preds| == |th'.succs| == cfg.maxHeight
    && th' == Thread(if th'.op.Find? then FHead else SMax, th'.op, th'.key, NoResult,
                     0, 0, NIL, -1, NIL, th'.preds, th'.succs, 0, [], false, NIL, false, NIL, NIL, [], th'.win)
  }

  ghost predicate ThreadStep(cfg: Config, t: Tid, l: List, rec: Recycler, th: Thread, l': List, rec': Recycler,
      th': Thread) {
    && SafeAccess(cfg, l, rec, th)
    && (|| (l' == l && rec' == rec && CallStep(cfg, th, th'))
        || (l' == l && rec' == rec && ReadStep(cfg, l, rec, th, th'))
        || (rec' == rec && WriteStep(cfg, t, l, rec, th, l', th'))
        || (l' == l && RecStep(t, l, rec, th, rec', th')))
  }

  ghost predicate StepBy(cfg: Config, s: State, t: Tid, s': State) {
    && t < |s.threads| == |s'.threads|
    && ThreadStep(cfg, t, s.l, s.rec, s.threads[t], s'.l, s'.rec, s'.threads[t])
    && forall u :: 0 <= u < |s.threads| && u != t ==> s'.threads[u] == s.threads[u]
  }

  ghost predicate Next(cfg: Config, s: State, s': State) {
    exists t :: StepBy(cfg, s, t, s')
  }

  ghost predicate NewHead(cfg: Config, h: Node) {
    && 1 <= h.height <= cfg.maxHeight && |h.skip| == h.height
    && h.isHead && !h.marked && !h.full && h.lock == None
    && forall k :: 0 <= k < h.height ==> h.skip[k] == NIL
  }

  /** An empty list whose head has any allowed height; nobody has an accessor. */
  ghost predicate Init(cfg: Config, s: State) {
    && ValidConfig(cfg)
    && |s.l.nodes| == 2 && s.l.head == 1 && s.l.size == 0 && s.l.counted == {}
    && NewHead(cfg, s.l.nodes[1])
    && |s.l.lin| == |s.l.gone| == cfg.maxHeight
    && (forall k :: 0 <= k < cfg.maxHeight ==>
          s.l.lin[k] == (if k < s.l.nodes[1].height then {1} else {}) && s.l.gone[k] == {})
    && s.l.nodes[0] == Node(1, 0, false, false, false, [NIL], None, 0, 0)
    && s.rec == Recycler([], false, 0, None, {}, {}, map[], {}, None, [])
    && (forall t :: 0 <= t < |s.threads| ==>
          && s.threads[t].pc.Outside? && s.threads[t].guards == []
          && |s.threads[t].preds| == |s.threads[t].succs| == cfg.maxHeight
          && !s.threads[t].isMarked)
  }

  ghost predicate StepAt(cfg: Config, r: seq<State>, i: nat) {
    i + 1 < |r| ==> Next(cfg, r[i], r[i + 1])
  }

  /** A run: any number of accessors, steps interleaved in any order. */
  ghost predicate Run(cfg: Config, r: seq<State>) {
    |r| > 0 && Init(cfg, r[0]) && forall i :: StepAt(cfg, r, i)
  }
}
