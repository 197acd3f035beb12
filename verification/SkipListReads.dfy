/** Steps that only read the list, and the steps of the recycler, keep the
    invariant of the accessor that makes them. */
module SkipListReads {

  import opened Common
  import opened SkipListState
  import opened SkipListInvariant
  import opened SkipListSteps

  // ---------- parts of the invariant that a step leaves idle ----------

  lemma NoGuards(u: Tid, l: List, th: Thread)
    requires th.guards == []
    requires !HoldsGuards(th.pc) || th.pc.Unlock? ||
             (th.pc.Lk? && th.layer == 0 < th.height <= th.max + 1 <= |th.preds|)
    ensures GuardInv(u, l, th)
  {
  }

  lemma SameOwner(u: Tid, l: List, th: Thread, th': Thread)
    requires OwnerInv(u, l, th)
    requires th'.guards == th.guards && th'.target == th.target && th'.oldHead == th.oldHead && th'.win == th.win
    requires HoldsTarget(th') <==> HoldsTarget(th)
    requires HoldsOldHead(th'.pc) <==> HoldsOldHead(th.pc)
    requires (UsesWin(th'.pc) && HoldsTarget(th) ==> UsesWin(th.pc)) && !th'.pc.GLock?
    ensures OwnerInv(u, l, th')
  {
  }

  predicate NotAdding(th: Thread) {
    !Adding(th.pc) && (th.pc.ACreate? ==> 1 <= th.height)
  }

  predicate NotRemoving(th: Thread) {
    !th.isMarked && !th.pc.RMarked? && !th.pc.RLock? && !th.pc.RMark? && !th.pc.RUnlink?
  }

  predicate NotGrowing(th: Thread) {
    !Growing(th.pc) && !(th.pc.Recycle? && th.op.Add?)
  }

  lemma Idles(cfg: Config, u: Tid, l: List, th: Thread)
    ensures NotAdding(th) ==> AddInv(u, l, th)
    ensures NotGrowing(th) ==> GrowInv(cfg, u, l, th)
    ensures !Finding(th.pc) ==> FindInv(l, th)
  {
  }

  lemma NoRemove(l: List, th: Thread)
    requires NotRemoving(th)
    ensures RemoveInv(l, th)
  {
  }

  /** Between searching again and the first unlinking, a marked target stays as it is. */
  lemma KeepRemove(l: List, th: Thread, th': Thread)
    requires RemoveInv(l, th) && th.isMarked && Retrying(th)
    requires th'.isMarked && th'.op == th.op && th'.target == th.target && th'.key == th.key && th'.height == th.height
    requires th'.pc.SMax? || th'.pc.SHead? || th'.pc.SNode? || Locking(th'.pc) || (th'.pc.Unlock? && !th'.done)
    requires th'.pc.SHead? || th'.pc.SNode? ==> 1 <= th.height <= th'.max + 1
    ensures RemoveInv(l, th')
  {
  }

  lemma StartRemove(l: List, th: Thread, th': Thread)
    requires RemoveInv(l, th) && th.isMarked && Retrying(th)
    requires th'.isMarked && th'.op == th.op && th'.target == th.target && th'.key == th.key && th'.height == th.height
    requires th'.pc.RUnlink? && th'.layer + 1 == th.height
    ensures RemoveInv(l, th')
  {
  }

  // ---------- lockNodesForChange ----------

  ghost predicate LockMove(l: List, th: Thread, th': Thread) {
    && Locking(th.pc) && th.layer < |th.preds| == |th.succs|
    && th' == th.(pc := th'.pc, layer := th'.layer)
    && (th'.pc.Unlock? || th'.pc.LkCheck? || th'.pc.LkSucc? || th' == LayerLocked(th))
    && (th'.pc.LkCheck? ==> th.pc.Lk? && th.layer > 0 && th.preds[th.layer] == th.preds[th.layer - 1])
    && (th.pc.Lk? ==> th'.pc.LkCheck?)
    && (th'.pc.LkSucc? ==> th.pc.LkCheck? && th.succs[th.layer] != NIL)
    && (th'.pc.Unlock? || th'.pc.LkCheck? || th'.pc.LkSucc? ==> th'.layer == th.layer)
    && (th.pc.LkCheck? && !th'.pc.Unlock? ==>
          !Marked(l, th.preds[th.layer]) && Skip(l, th.layer, th.preds[th.layer]) == th.succs[th.layer])
  }

  lemma LockReadShape(cfg: Config, l: List, rec: Recycler, th: Thread, th': Thread)
    requires SafeAccess(cfg, l, rec, th) && ReadStep(cfg, l, rec, th, th') && Locking(th.pc)
    ensures LockMove(l, th, th')
  {
    hide SafeAccess, ReadStep, LockMove;
    if th.pc.LkCheck? {
      CheckReadShape(cfg, l, rec, th, th');
    } else {
      OtherLockRead(cfg, l, rec, th, th');
    }
  }

  lemma CheckReadShape(cfg: Config, l: List, rec: Recycler, th: Thread, th': Thread)
    requires SafeAccess(cfg, l, rec, th) && ReadStep(cfg, l, rec, th, th') && th.pc.LkCheck?
    ensures LockMove(l, th, th')
  {
  }

  lemma OtherLockRead(cfg: Config, l: List, rec: Recycler, th: Thread, th': Thread)
    requires SafeAccess(cfg, l, rec, th) && ReadStep(cfg, l, rec, th, th') && (th.pc.Lk? || th.pc.LkSucc?)
    ensures LockMove(l, th, th')
  {
    match th.pc
    case Lk => case LkSucc =>
  }

  lemma LockReadValid(t: Tid, l: List, th: Thread, th': Thread, j: nat)
    requires GuardInv(t, l, th) && LockMove(l, th, th') && CheckedFrom(th') <= j < CheckedTo(th')
    ensures Validated(l, t, th', j)
  {
    if j < CheckedTo(th) {
      assert Validated(l, t, th, j);
    }
  }

  lemma LockReadGuards(t: Tid, l: List, th: Thread, th': Thread)
    requires GuardInv(t, l, th) && LockMove(l, th, th')
    ensures GuardInv(t, l, th')
  {
    forall j | CheckedFrom(th') <= j < CheckedTo(th') ensures Validated(l, t, th', j) {
      LockReadValid(t, l, th, th', j);
    }
    if th.pc.Lk? {
      assert Validated(l, t, th, th.layer - 1);
    }
  }

  lemma LockReadRemove(l: List, th: Thread, th': Thread)
    requires RemoveInv(l, th) && FlowInv(th) && LockMove(l, th, th') && th.layer < th.height
    ensures RemoveInv(l, th')
  {
    if th.op.Add? {
      NoRemove(l, th');
    } else if th'.pc.RUnlink? {
      StartRemove(l, th, th');
    } else {
      KeepRemove(l, th, th');
    }
  }

  lemma LockReads(cfg: Config, t: Tid, l: List, rec: Recycler, th: Thread, th': Thread)
    requires ThreadInv(cfg, t, l, th) && SafeAccess(cfg, l, rec, th) && ReadStep(cfg, l, rec, th, th') && Locking(th.pc)
    ensures ThreadInv(cfg, t, l, th')
  {
    hide SearchInv, GuardInv, OwnerInv, AddInv, RemoveInv, GrowInv, FindInv;
    LockReadShape(cfg, l, rec, th, th');
    LockMoves(cfg, t, l, th, th');
  }

  lemma LockMoveCore(cfg: Config, t: Tid, l: List, th: Thread, th': Thread)
    requires SearchInv(cfg, l, th) && GuardInv(t, l, th) && OwnerInv(t, l, th) && LockMove(l, th, th')
    ensures SearchInv(cfg, l, th') && GuardInv(t, l, th') && OwnerInv(t, l, th') && th.layer < th.height
  {
    assert th.layer < th.height by {
      hide SearchInv, OwnerInv;
    }
    assert SearchInv(cfg, l, th') by {
      hide GuardInv, OwnerInv;
      MovedSearch(cfg, l, th, th');
    }
    hide SearchInv, GuardInv, OwnerInv;
    LockReadGuards(t, l, th, th');
    SameOwner(t, l, th, th');
  }

  lemma LockMoves(cfg: Config, t: Tid, l: List, th: Thread, th': Thread)
    requires ThreadInv(cfg, t, l, th) && LockMove(l, th, th')
    ensures ThreadInv(cfg, t, l, th')
  {
    hide SearchInv, GuardInv, OwnerInv, AddInv, RemoveInv, GrowInv, FindInv;
    LockMoveCore(cfg, t, l, th, th');
    LockReadRemove(l, th, th');
    Idles(cfg, t, l, th');
  }

  // ---------- reads after the search ----------

  predicate Checks(pc: Pc) {
    pc.AMarked? || pc.AWait? || pc.APick? || pc.RFull? || pc.RMarked?
  }

  ghost predicate CheckMove(l: List, th: Thread, th': Thread) {
    && Checks(th.pc)
    && th' == th.(pc := th'.pc, layer := th'.layer, guards := th'.guards, height := th'.height, res := th'.res)
    && match th.pc
       case AMarked => (th'.pc.SMax? || th'.pc.AWait?) && th'.guards == th.guards
       case AWait => (th'.pc.AWait? || th'.pc.Returned?) && th'.guards == th.guards
       case APick => th'.pc.Lk? && th'.layer == 0 && th'.guards == [] && 1 <= th'.height <= th.max + 1
       case RFull =>
         && (th'.pc.Returned? || th'.pc.RMarked?) && th'.guards == th.guards
         && (th'.pc.RMarked? ==> Full(l, th.foundNode) && Height(l, th.foundNode) == th.foundLayer + 1)
       case _ => (th'.pc.Returned? || th'.pc.RLock?) && th'.guards == th.guards
  }

  lemma CheckShape(cfg: Config, l: List, rec: Recycler, th: Thread, th': Thread)
    requires SafeAccess(cfg, l, rec, th) && ReadStep(cfg, l, rec, th, th') && Checks(th.pc)
    ensures CheckMove(l, th, th')
  {
    match th.pc
    case AMarked => case AWait => case APick => case RFull => case RMarked =>
  }

  predicate CheckFlow(th: Thread) {
    FlowInv(th) && Checks(th.pc)
  }

  lemma CheckRemove(l: List, th: Thread, th': Thread)
    requires RemoveInv(l, th) && CheckFlow(th) && CheckMove(l, th, th')
    ensures RemoveInv(l, th')
  {
    if !th'.pc.RMarked? && !th'.pc.RLock? {
      NoRemove(l, th');
    }
  }

  lemma CheckCore(cfg: Config, t: Tid, l: List, th: Thread, th': Thread)
    requires SearchInv(cfg, l, th) && GuardInv(t, l, th) && OwnerInv(t, l, th) && CheckMove(l, th, th') && CheckFlow(th)
    requires th.guards == []
    ensures SearchInv(cfg, l, th') && GuardInv(t, l, th') && OwnerInv(t, l, th')
  {
    MovedSearch(cfg, l, th, th');
    NoGuards(t, l, th');
    SameOwner(t, l, th, th');
  }

  lemma CheckMoves(cfg: Config, t: Tid, l: List, th: Thread, th': Thread)
    requires ThreadInv(cfg, t, l, th) && CheckMove(l, th, th')
    ensures ThreadInv(cfg, t, l, th')
  {
    hide SearchInv, GuardInv, OwnerInv, AddInv, RemoveInv, GrowInv, FindInv;
    CheckCore(cfg, t, l, th, th');
    CheckRemove(l, th, th');
    Idles(cfg, t, l, th');
  }

  // ---------- the search itself ----------

  ghost predicate SearchMove(th: Thread, th': Thread) {
    && (th.pc.SHead? || th.pc.SNode?)
    && th' == th.(pc := th'.pc, pred := th'.pred, layer := th'.layer, preds := th'.preds, succs := th'.succs,
                  foundLayer := th'.foundLayer, foundNode := th'.foundNode, guards := th'.guards, res := th'.res)
    && |th'.preds| == |th.preds| && |th'.succs| == |th.succs|
    && (th'.guards == th.guards || (th'.guards == [] && th'.pc.Lk?))
    && (|| th'.pc.SNode? || (th.op.Add? && (th'.pc.AMarked? || th'.pc.APick?))
        || (!th.op.Add? && th.isMarked && th'.pc.Lk? && th'.layer == 0 && th'.guards == [])
        || (!th.op.Add? && !th.isMarked && (th'.pc.RFull? || th'.pc.Returned?)))
  }

  lemma SearchShape(cfg: Config, l: List, rec: Recycler, th: Thread, th': Thread)
    requires SafeAccess(cfg, l, rec, th) && ReadStep(cfg, l, rec, th, th') && (th.pc.SHead? || th.pc.SNode?)
    ensures SearchMove(th, th')
  {
    match th.pc
    case SHead => case SNode =>
  }

  lemma SearchRemove(l: List, th: Thread, th': Thread)
    requires RemoveInv(l, th) && FlowInv(th) && SearchMove(th, th')
    ensures RemoveInv(l, th')
  {
    if th.isMarked {
      KeepRemove(l, th, th');
    }
  }

  lemma SearchCore(cfg: Config, t: Tid, l: List, th: Thread, th': Thread)
    requires GuardInv(t, l, th) && OwnerInv(t, l, th) && RemoveInv(l, th) && FlowInv(th)
    requires SearchMove(th, th') && SearchInv(cfg, l, th')
    ensures GuardInv(t, l, th') && OwnerInv(t, l, th')
  {
    NoGuards(t, l, th');
    SameOwner(t, l, th, th');
  }

  lemma SearchMoves(cfg: Config, t: Tid, l: List, th: Thread, th': Thread)
    requires ThreadInv(cfg, t, l, th) && SearchMove(th, th') && SearchInv(cfg, l, th')
    ensures ThreadInv(cfg, t, l, th')
  {
    hide SearchInv, GuardInv, OwnerInv, AddInv, RemoveInv, GrowInv, FindInv;
    SearchCore(cfg, t, l, th, th');
    SearchRemove(l, th, th');
    Idles(cfg, t, l, th');
  }

  lemma RetryHeight(cfg: Config, l: List, th: Thread)
    requires ListInv(cfg, l) && RemoveInv(l, th) && th.pc.SMax? && th.isMarked
    ensures 1 <= th.height <= Height(l, l.head) && Reg(l, l.gone, 0, th.target)
  {
    assert NodeOk(cfg, l.nodes[th.target]);
    var k := th.height - 1;
    assert Ever(l, k, th.target) && !Gone(l, k, th.target) && LinOk(l, k, th.target);
    assert Ever(l, 0, th.target) && !Gone(l, 0, th.target);
  }

  /** A new search begins with a new snapshot. */
  ghost predicate Restart(l: List, th: Thread, th': Thread) {
    && th' == th.(pc := th'.pc, pred := th'.pred, layer := th'.layer, max := th'.max, foundLayer := th'.foundLayer,
                  foundNode := th'.foundNode, win := l.gone)
    && ((th.pc.SMax? && th'.pc.SHead? && th'.max + 1 == Height(l, l.head)) || (th.pc.FHead? && th'.pc.FDown?))
  }

  lemma RestartOwner(t: Tid, l: List, th: Thread, th': Thread)
    requires OwnerInv(t, l, th) && Restart(l, th, th') && (th.isMarked ==> Reg(l, l.gone, 0, th.target))
    ensures OwnerInv(t, l, th')
  {
  }

  lemma RestartRemove(l: List, th: Thread, th': Thread)
    requires RemoveInv(l, th) && FlowInv(th) && Restart(l, th, th')
    requires th.isMarked ==> 1 <= th.height <= Height(l, l.head)
    ensures RemoveInv(l, th')
  {
    if th.isMarked {
      KeepRemove(l, th, th');
    } else {
      NoRemove(l, th');
    }
  }

  lemma RestartCore(cfg: Config, t: Tid, l: List, th: Thread, th': Thread)
    requires ListInv(cfg, l) && GuardInv(t, l, th) && OwnerInv(t, l, th) && RemoveInv(l, th) && FlowInv(th)
    requires Restart(l, th, th')
    ensures GuardInv(t, l, th') && OwnerInv(t, l, th') && RemoveInv(l, th')
  {
    if th.isMarked {
      RetryHeight(cfg, l, th);
    }
    NoGuards(t, l, th');
    RestartOwner(t, l, th, th');
    RestartRemove(l, th, th');
  }

  lemma RestartMoves(cfg: Config, t: Tid, l: List, th: Thread, th': Thread)
    requires ListInv(cfg, l) && ThreadInv(cfg, t, l, th) && Restart(l, th, th')
    requires SearchInv(cfg, l, th') && FindInv(l, th')
    ensures ThreadInv(cfg, t, l, th')
  {
    hide SearchInv, GuardInv, OwnerInv, AddInv, RemoveInv, GrowInv, FindInv;
    RestartCore(cfg, t, l, th, th');
    Idles(cfg, t, l, th');
  }

  lemma SearchingReads(cfg: Config, t: Tid, l: List, rec: Recycler, th: Thread, th': Thread)
    requires ListInv(cfg, l) && ThreadInv(cfg, t, l, th) && SafeAccess(cfg, l, rec, th)
             && ReadStep(cfg, l, rec, th, th')
    requires Searching(th.pc)
    ensures ThreadInv(cfg, t, l, th')
  {
    hide SearchInv, GuardInv, OwnerInv, AddInv, RemoveInv, GrowInv, FindInv;
    if th.pc.SMax? {
      SearchStarts(cfg, l, rec, th, th');
      Idles(cfg, t, l, th');
      RestartMoves(cfg, t, l, th, th');
    } else {
      if th.pc.SHead? {
        HeadLoaded(cfg, l, rec, th, th');
      } else {
        SearchReads(cfg, l, rec, th, th');
      }
      SearchShape(cfg, l, rec, th, th');
      SearchMoves(cfg, t, l, th, th');
    }
  }

  // ---------- find ----------

  lemma FindRest(cfg: Config, t: Tid, l: List, th: Thread, th': Thread)
    requires ThreadInv(cfg, t, l, th) && FindMove(th, th') && SearchInv(cfg, l, th') && FindInv(l, th')
    ensures ThreadInv(cfg, t, l, th')
  {
    hide SearchInv, GuardInv, OwnerInv, AddInv, RemoveInv, GrowInv, FindInv;
    NoGuards(t, l, th');
    SameOwner(t, l, th, th');
    NoRemove(l, th');
    Idles(cfg, t, l, th');
  }

  lemma FindingReads(cfg: Config, t: Tid, l: List, rec: Recycler, th: Thread, th': Thread)
    requires ListInv(cfg, l) && ThreadInv(cfg, t, l, th) && SafeAccess(cfg, l, rec, th)
             && ReadStep(cfg, l, rec, th, th')
    requires th.pc.FHead? || Finding(th.pc)
    ensures ThreadInv(cfg, t, l, th')
  {
    hide SearchInv, GuardInv, OwnerInv, AddInv, RemoveInv, GrowInv, FindInv;
    if th.pc.FHead? {
      FindStarts(cfg, l, rec, th, th');
      RestartMoves(cfg, t, l, th, th');
    } else {
      FindSearch(cfg, l, rec, th, th');
      if !th.pc.FMarked? {
        FindReads(cfg, l, rec, th, th');
      } else {
        Idles(cfg, t, l, th');
      }
      FindRest(cfg, t, l, th, th');
    }
  }

  // ---------- the other reads ----------

  lemma UnlockedRemove(l: List, th: Thread, th': Thread)
    requires RemoveInv(l, th) && FlowInv(th) && th.pc.Unlock?
    requires th' == Go(th, if !th.done then SMax else if th.op.Add? then AHeight else Recycle)
    ensures RemoveInv(l, th')
  {
    if th.op.Add? {
      NoRemove(l, th');
    }
  }

  lemma UnlockedReads(cfg: Config, t: Tid, l: List, th: Thread, th': Thread)
    requires ThreadInv(cfg, t, l, th) && th.pc.Unlock? && th.guards == []
    requires th' == Go(th, if !th.done then SMax else if th.op.Add? then AHeight else Recycle)
    ensures ThreadInv(cfg, t, l, th')
  {
    hide SearchInv, GuardInv, OwnerInv, AddInv, RemoveInv, GrowInv, FindInv;
    QuietFrom(cfg, l, th, th');
    NoGuards(t, l, th');
    SameOwner(t, l, th, th');
    Idles(cfg, t, l, th');
    UnlockedRemove(l, th, th');
  }

  ghost predicate HeightMove(cfg: Config, l: List, th: Thread, th': Thread) {
    && (th.pc.AHeight? || th.pc.GHead?)
    && th' == th.(pc := th'.pc, res := th'.res, height := th'.height, oldHead := th'.oldHead)
    && (|| th'.pc.Returned?
        || (th.pc.AHeight? && th'.pc.GHead? && 1 <= th'.height <= cfg.maxHeight)
        || (th.pc.GHead? && th'.pc.GLock? && th'.height == th.height && th'.oldHead == l.head &&
            Height(l, l.head) < th.height))
  }

  lemma HeightCore(cfg: Config, t: Tid, l: List, th: Thread, th': Thread)
    requires ListInv(cfg, l) && SearchInv(cfg, l, th) && GuardInv(t, l, th) && OwnerInv(t, l, th)
    requires HeightMove(cfg, l, th, th') && FlowInv(th)
    ensures SearchInv(cfg, l, th') && GuardInv(t, l, th') && OwnerInv(t, l, th')
  {
    QuietFrom(cfg, l, th, th');
    NoGuards(t, l, th');
    if th'.pc.GLock? {
      HeadReg(cfg, l, th.win, 0);
    }
    HeightOwner(t, l, th, th');
  }

  lemma HeightGrow(cfg: Config, t: Tid, l: List, th: Thread, th': Thread)
    requires ListInv(cfg, l) && GrowInv(cfg, t, l, th) && HeightMove(cfg, l, th, th')
    ensures GrowInv(cfg, t, l, th')
  {
  }

  lemma HeightMoves(cfg: Config, t: Tid, l: List, th: Thread, th': Thread)
    requires ListInv(cfg, l) && ThreadInv(cfg, t, l, th) && HeightMove(cfg, l, th, th')
    ensures ThreadInv(cfg, t, l, th')
  {
    hide SearchInv, GuardInv, OwnerInv, AddInv, RemoveInv, GrowInv, FindInv;
    HeightCore(cfg, t, l, th, th');
    HeightGrow(cfg, t, l, th, th');
    NoRemove(l, th');
    Idles(cfg, t, l, th');
  }

  lemma HeightOwner(t: Tid, l: List, th: Thread, th': Thread)
    requires OwnerInv(t, l, th) && !th.isMarked && (th.pc.AHeight? || th.pc.GHead?)
    requires th' == th.(pc := th'.pc, res := th'.res, height := th'.height, oldHead := th'.oldHead)
    requires th'.pc.Returned? || th'.pc.GHead? || (th'.pc.GLock? && Reg(l, th.win, 0, th'.oldHead))
    ensures OwnerInv(t, l, th')
  {
  }

  lemma ReturnedReads(cfg: Config, t: Tid, l: List, th: Thread, th': Thread)
    requires ThreadInv(cfg, t, l, th) && th.pc.Returned? && th' == Go(th, Idle)
    ensures ThreadInv(cfg, t, l, th')
  {
    hide SearchInv, GuardInv, OwnerInv, AddInv, RemoveInv, GrowInv, FindInv;
    QuietFrom(cfg, l, th, th');
    NoGuards(t, l, th');
    SameOwner(t, l, th, th');
    NoRemove(l, th');
    Idles(cfg, t, l, th');
  }

  lemma QuietReads(cfg: Config, t: Tid, l: List, rec: Recycler, th: Thread, th': Thread)
    requires ListInv(cfg, l) && ThreadInv(cfg, t, l, th) && SafeAccess(cfg, l, rec, th)
             && ReadStep(cfg, l, rec, th, th')
    requires !Searching(th.pc) && !Locking(th.pc) && !th.pc.FHead? && !Finding(th.pc)
    ensures ThreadInv(cfg, t, l, th')
  {
    hide SearchInv, GuardInv, OwnerInv, AddInv, RemoveInv, GrowInv, FindInv;
    if Checks(th.pc) {
      CheckShape(cfg, l, rec, th, th');
      CheckMoves(cfg, t, l, th, th');
    } else if th.pc.Unlock? {
      UnlockedReads(cfg, t, l, th, th');
    } else if th.pc.Returned? {
      ReturnedReads(cfg, t, l, th, th');
    } else {
      HeightMoves(cfg, t, l, th, th');
    }
  }

  lemma ReadStepThread(cfg: Config, t: Tid, l: List, rec: Recycler, th: Thread, th': Thread)
    requires ListInv(cfg, l) && ThreadInv(cfg, t, l, th) && SafeAccess(cfg, l, rec, th)
             && ReadStep(cfg, l, rec, th, th')
    ensures ThreadInv(cfg, t, l, th')
  {
    hide SearchInv, GuardInv, OwnerInv, AddInv, RemoveInv, GrowInv, FindInv;
    if Searching(th.pc) {
      SearchingReads(cfg, t, l, rec, th, th');
    } else if Locking(th.pc) {
      LockReads(cfg, t, l, rec, th, th');
    } else if th.pc.FHead? || Finding(th.pc) {
      FindingReads(cfg, t, l, rec, th, th');
    } else {
      QuietReads(cfg, t, l, rec, th, th');
    }
  }

  // ---------- calls and the recycler ----------

  lemma CallCore(cfg: Config, t: Tid, l: List, th: Thread, th': Thread)
    requires SearchInv(cfg, l, th) && OwnerInv(t, l, th) && FlowInv(th) && CallStep(cfg, th, th')
    ensures SearchInv(cfg, l, th') && OwnerInv(t, l, th')
  {
  }

  lemma CallStepThread(cfg: Config, t: Tid, l: List, th: Thread, th': Thread)
    requires ThreadInv(cfg, t, l, th) && CallStep(cfg, th, th')
    ensures ThreadInv(cfg, t, l, th')
  {
    hide SearchInv, GuardInv, OwnerInv, AddInv, RemoveInv, GrowInv, FindInv;
    CallCore(cfg, t, l, th, th');
    NoGuards(t, l, th');
    NoRemove(l, th');
    Idles(cfg, t, l, th');
  }

  predicate RecPc(pc: Pc) {
    || pc.Outside? || pc.Idle? || pc.LDirty? || pc.LRefs? || pc.LLock? || pc.LTest?
    || pc.LSwap? || pc.LDestroy? || pc.LDec? || pc.LDecIn?
  }

  lemma RecCore(cfg: Config, t: Tid, l: List, th: Thread, th': Thread)
    requires SearchInv(cfg, l, th) && GuardInv(t, l, th) && OwnerInv(t, l, th) && FlowInv(th)
    requires RecPc(th.pc) && RecPc(th'.pc) && th' == th.(pc := th'.pc, batch := th'.batch)
    ensures SearchInv(cfg, l, th') && GuardInv(t, l, th') && OwnerInv(t, l, th')
  {
    hide SearchInv, GuardInv, OwnerInv;
    QuietFrom(cfg, l, th, th');
    NoGuards(t, l, th');
    SameOwner(t, l, th, th');
  }

  lemma RecMoves(cfg: Config, t: Tid, l: List, th: Thread, th': Thread)
    requires ThreadInv(cfg, t, l, th) && RecPc(th.pc) && RecPc(th'.pc) && th' == th.(pc := th'.pc, batch := th'.batch)
    ensures ThreadInv(cfg, t, l, th')
  {
    hide SearchInv, GuardInv, OwnerInv, AddInv, RemoveInv, GrowInv, FindInv;
    RecCore(cfg, t, l, th, th');
    NoRemove(l, th');
    Idles(cfg, t, l, th');
  }

  lemma RecycleCore(cfg: Config, t: Tid, l: List, th: Thread, th': Thread)
    requires SearchInv(cfg, l, th) && GuardInv(t, l, th) && OwnerInv(t, l, th) && FlowInv(th) && th.pc.Recycle?
    requires th' == if th.op.Remove? then th.(pc := RUnlock, res := Removed) else Return(th, Added(th.target))
    ensures SearchInv(cfg, l, th') && GuardInv(t, l, th') && OwnerInv(t, l, th')
  {
    hide SearchInv, GuardInv, OwnerInv;
    QuietFrom(cfg, l, th, th');
    NoGuards(t, l, th');
    SameOwner(t, l, th, th');
  }

  /** A marked target that has left all its layers. */
  lemma KeepRemoved(l: List, th: Thread, th': Thread)
    requires RemoveInv(l, th) && th.isMarked && !Retrying(th) && !th.pc.RUnlink?
    requires th'.isMarked && th'.target == th.target && th'.key == th.key && th'.height == th.height
    requires !Retrying(th') && (th'.pc.Unlock? || th'.pc.Recycle? || th'.pc.RUnlock?)
    ensures RemoveInv(l, th')
  {
  }

  lemma RecycleMoves(cfg: Config, t: Tid, l: List, th: Thread, th': Thread)
    requires ThreadInv(cfg, t, l, th) && th.pc.Recycle?
    requires th' == if th.op.Remove? then th.(pc := RUnlock, res := Removed) else Return(th, Added(th.target))
    ensures ThreadInv(cfg, t, l, th')
  {
    hide SearchInv, GuardInv, OwnerInv, AddInv, RemoveInv, GrowInv, FindInv;
    RecycleCore(cfg, t, l, th, th');
    Idles(cfg, t, l, th');
    if th.op.Remove? {
      KeepRemoved(l, th, th');
    } else {
      NoRemove(l, th');
    }
  }

  lemma DestroyCore(cfg: Config, t: Tid, l: List, th: Thread, th': Thread)
    requires SearchInv(cfg, l, th) && OwnerInv(t, l, th) && GrowInv(cfg, t, l, th) && FlowInv(th)
    requires th.pc.GDestroy? && th' == th.(pc := GUnlock, newHead := NIL)
    ensures SearchInv(cfg, l, th') && OwnerInv(t, l, th') && GrowInv(cfg, t, l, th')
  {
    QuietFrom(cfg, l, th, th');
    SameOwner(t, l, th, th');
  }

  lemma DestroyMoves(cfg: Config, t: Tid, l: List, th: Thread, th': Thread)
    requires ThreadInv(cfg, t, l, th) && th.pc.GDestroy? && th' == th.(pc := GUnlock, newHead := NIL)
    ensures ThreadInv(cfg, t, l, th')
  {
    hide SearchInv, GuardInv, OwnerInv, AddInv, RemoveInv, GrowInv, FindInv;
    DestroyCore(cfg, t, l, th, th');
    NoGuards(t, l, th');
    Idles(cfg, t, l, th');
    NoRemove(l, th');
  }

  lemma RecShape(t: Tid, l: List, rec: Recycler, th: Thread, rec': Recycler, th': Thread)
    requires RecStep(t, l, rec, th, rec', th') && !th.pc.Recycle? && !th.pc.GDestroy?
    ensures RecPc(th.pc) && RecPc(th'.pc) && th' == th.(pc := th'.pc, batch := th'.batch)
  {
  }

  lemma RecStepThread(cfg: Config, t: Tid, l: List, rec: Recycler, th: Thread, rec': Recycler, th': Thread)
    requires ThreadInv(cfg, t, l, th) && RecStep(t, l, rec, th, rec', th')
    ensures ThreadInv(cfg, t, l, th')
  {
    if th.pc.Recycle? {
      hide ThreadInv;
      RecycleMoves(cfg, t, l, th, th');
    } else if th.pc.GDestroy? {
      hide ThreadInv;
      DestroyMoves(cfg, t, l, th, th');
    } else {
      hide ThreadInv, RecStep;
      RecShape(t, l, rec, th, rec', th');
      RecMoves(cfg, t, l, th, th');
    }
  }
}
