/** A marked node that is still linked is locked by the accessor that marked it; so
    with no operation in progress size() counts exactly the keys of the set. */
module SkipListMarks {

  import opened Common
  import opened SkipListState
  import opened SkipListInvariant
  import opened SkipListStability
  import opened SkipListReclaim
  import opened SkipListReclaimProof
  import opened SkipListTheorems
  import opened SkipListSize

  predicate LinkedMark(l: List, x: nat) {
    |l.lin| > 0 && x in l.lin[0] && IsItem(l, x) && l.nodes[x].marked
  }

  ghost predicate MarkInv(l: List) {
    forall x: nat :: LinkedMark(l, x) ==> l.nodes[x].lock == Some(l.nodes[x].marker)
  }

  ghost predicate ThreadMark(u: Tid, l: List, th: Thread) {
    forall x: nat :: LinkedMark(l, x) && l.nodes[x].marker == u ==> th.isMarked && x == th.target
  }

  ghost predicate MarksInv(cfg: Config, s: State) {
    && CountInv(cfg, s) && MarkInv(s.l)
    && forall t :: 0 <= t < |s.threads| ==> ThreadMark(t, s.l, s.threads[t])
  }

  /** A linked mark of a later state was there before, or is new. */
  lemma MarkBefore(cfg: Config, t: Tid, a: List, b: List, x: nat)
    requires ListInv(cfg, a) && ListInv(cfg, b) && Evolve(t, a, b) && LinkedMark(b, x)
    ensures IsItem(a, x) && x in a.lin[0]
    ensures a.nodes[x].marked || (b.nodes[x].marker == t && !a.nodes[x].marked)
    ensures a.nodes[x].marked ==> LinkedMark(a, x) && b.nodes[x].marker == a.nodes[x].marker
  {
    assert LinOk(b, 0, x);
    LinkOf(t, a, b, 0, x);
    if x < |a.nodes| {
      assert NodeEvolve(t, a.nodes[x], b.nodes[x]) && NodeOk(cfg, a.nodes[x]) && FullOk(a, x);
      assert a.nodes[x].full ==> Ever(a, 0, x);
    }
  }

  lemma MarkStable(cfg: Config, t: Tid, u: Tid, a: List, b: List, th: Thread)
    requires u != t && ListInv(cfg, a) && ListInv(cfg, b) && Evolve(t, a, b) && ThreadMark(u, a, th)
    ensures ThreadMark(u, b, th)
  {
    forall x: nat | LinkedMark(b, x) && b.nodes[x].marker == u ensures th.isMarked && x == th.target {
      MarkBefore(cfg, t, a, b, x);
    }
  }

  /** Only remove marks items: its target, once. */
  lemma NewMark(cfg: Config, t: Tid, l: List, rec: Recycler, th: Thread, l': List, th': Thread, x: nat)
    requires SafeAccess(cfg, l, rec, th) && WriteStep(cfg, t, l, rec, th, l', th')
    requires IsItem(l, x) && !l.nodes[x].marked && x < |l'.nodes| && l'.nodes[x].marked
    requires th.pc.GCas? ==> IsNode(l, th.oldHead) && l.nodes[th.oldHead].isHead
    ensures th.pc.RMark? && x == th.target && th'.isMarked && th'.target == th.target
  {
    match th.pc
    case RLock => case RMark => case Lk => case ACreate => case ALink => case AFull => case ACount =>
    case RUnlink => case RCount => case Unlock => case RUnlock =>
    case GLock => case GCopy => case GCas => case GUnlock =>
  }

  /** A thread that has marked its target keeps it until the target is unlinked. */
  lemma KeepsTarget(cfg: Config, t: Tid, l: List, rec: Recycler, th: Thread, l': List, th': Thread)
    requires ThreadInv(cfg, t, l, th) && SafeAccess(cfg, l, rec, th) && WriteStep(cfg, t, l, rec, th, l', th')
    requires th.isMarked && ListInv(cfg, l)
    ensures (th'.isMarked && th'.target == th.target) || Gone(l, 0, th.target)
  {
    assert NodeOk(cfg, l.nodes[th.target]);
    hide ListInv, SearchInv, GuardInv, OwnerInv, AddInv, GrowInv, FindInv;
    match th.pc
    case RLock => case RMark => case Lk => case ACreate => case ALink => case AFull => case ACount =>
    case RUnlink => case RCount => case Unlock => case RUnlock =>
    case GLock => case GCopy => case GCas => case GUnlock =>
  }

  lemma HeadFact(cfg: Config, t: Tid, l: List, th: Thread)
    requires ThreadInv(cfg, t, l, th) && th.pc.GCas?
    ensures IsNode(l, th.oldHead) && l.nodes[th.oldHead].isHead
  {
  }

  lemma StillMarked(cfg: Config, t: Tid, l: List, rec: Recycler, th: Thread, l': List, th': Thread, x: nat)
    requires ListInv(cfg, l) && ThreadInv(cfg, t, l, th) && ListInv(cfg, l') && Evolve(t, l, l')
    requires SafeAccess(cfg, l, rec, th) && WriteStep(cfg, t, l, rec, th, l', th') && ThreadMark(t, l, th)
    requires LinkedMark(l', x) && l'.nodes[x].marker == t
    ensures th'.isMarked && x == th'.target
  {
    MarkBefore(cfg, t, l, l', x);
    assert LinOk(l', 0, x);
    if l.nodes[x].marked {
      KeepsTarget(cfg, t, l, rec, th, l', th');
      LinkOf(t, l, l', 0, x);
    } else {
      if th.pc.GCas? {
        HeadFact(cfg, t, l, th);
      }
      NewMark(cfg, t, l, rec, th, l', th', x);
    }
  }

  lemma TargetLocked(cfg: Config, t: Tid, l: List, th: Thread)
    requires ThreadInv(cfg, t, l, th) && th.isMarked
    ensures LockedBy(l, th.target, t)
  {
  }

  lemma MarkInvKept(cfg: Config, t: Tid, l: List, l': List, th': Thread)
    requires ListInv(cfg, l) && ListInv(cfg, l') && Evolve(t, l, l') && MarkInv(l)
    requires ThreadMark(t, l', th') && ThreadInv(cfg, t, l', th')
    ensures MarkInv(l')
  {
    forall x: nat | LinkedMark(l', x) ensures l'.nodes[x].lock == Some(l'.nodes[x].marker) {
      MarkBefore(cfg, t, l, l', x);
      if l'.nodes[x].marker == t {
        TargetLocked(cfg, t, l', th');
      } else {
        assert NodeEvolve(t, l.nodes[x], l'.nodes[x]);
      }
    }
  }

  lemma SameTarget(cfg: Config, t: Tid, l: List, rec: Recycler, th: Thread, l': List, rec': Recycler, th': Thread)
    requires ThreadStep(cfg, t, l, rec, th, l', rec', th') && FlowInv(th)
    requires !(rec' == rec && WriteStep(cfg, t, l, rec, th, l', th')) && th.isMarked
    ensures l' == l && th'.isMarked && th'.target == th.target
  {
    hide SafeAccess, WriteStep;
    if rec' == rec && ReadStep(cfg, l, rec, th, th') && l' == l {
      hide ReadStep;
      ReadInside(cfg, l, rec, th, th');
    }
  }

  lemma OnlyWrites(cfg: Config, t: Tid, l: List, rec: Recycler, th: Thread, l': List, rec': Recycler, th': Thread)
    requires ThreadStep(cfg, t, l, rec, th, l', rec', th')
    requires !(rec' == rec && WriteStep(cfg, t, l, rec, th, l', th'))
    ensures l' == l
  {
    hide SafeAccess, WriteStep, ReadStep, RecStep, CallStep;
  }

  lemma ThreadMarkWrite(cfg: Config, t: Tid, l: List, rec: Recycler, th: Thread, l': List, th': Thread)
    requires ListInv(cfg, l) && ThreadInv(cfg, t, l, th) && ListInv(cfg, l') && Evolve(t, l, l') && ThreadMark(t, l, th)
    requires SafeAccess(cfg, l, rec, th) && WriteStep(cfg, t, l, rec, th, l', th')
    ensures ThreadMark(t, l', th')
  {
    hide ListInv, ThreadInv, SafeAccess, WriteStep, Evolve;
    forall x: nat | LinkedMark(l', x) && l'.nodes[x].marker == t ensures th'.isMarked && x == th'.target {
      StillMarked(cfg, t, l, rec, th, l', th', x);
    }
  }

  lemma ThreadMarkKept(cfg: Config, t: Tid, l: List, rec: Recycler, th: Thread, l': List, rec': Recycler, th': Thread)
    requires ListInv(cfg, l) && ThreadInv(cfg, t, l, th) && ListInv(cfg, l') && Evolve(t, l, l') && ThreadMark(t, l, th)
    requires ThreadStep(cfg, t, l, rec, th, l', rec', th')
    ensures ThreadMark(t, l', th')
  {
    FlowOf(cfg, t, l, th);
    hide ListInv, ThreadInv, SafeAccess, WriteStep, ReadStep, RecStep, CallStep, Evolve, FlowInv, LinkedMark;
    if rec' == rec && WriteStep(cfg, t, l, rec, th, l', th') {
      hide ThreadMark;
      ThreadMarkWrite(cfg, t, l, rec, th, l', th');
    } else {
      OnlyWrites(cfg, t, l, rec, th, l', rec', th');
      if th.isMarked {
        SameTarget(cfg, t, l, rec, th, l', rec', th');
      }
    }
  }

  lemma StepKeepsMarks(cfg: Config, s: State, t: Tid, s': State)
    requires MarksInv(cfg, s) && StepBy(cfg, s, t, s')
    ensures MarksInv(cfg, s')
  {
    StepKeepsCount(cfg, s, t, s');
    StepKeepsFull(cfg, s, t, s');
    hide ListInv, ThreadInv, RecInv, ThreadRec, SizeInv, ThreadSize, ThreadStep, OwnersExist, Evolve, MarkInv,
      ThreadMark;
    ThreadMarkKept(cfg, t, s.l, s.rec, s.threads[t], s'.l, s'.rec, s'.threads[t]);
    MarkInvKept(cfg, t, s.l, s'.l, s'.threads[t]);
    forall u | 0 <= u < |s'.threads| ensures ThreadMark(u, s'.l, s'.threads[u]) {
      if u != t {
        MarkStable(cfg, t, u, s.l, s'.l, s.threads[u]);
      }
    }
  }

  lemma InitMarks(cfg: Config, s: State)
    requires Init(cfg, s)
    ensures MarksInv(cfg, s)
  {
    InitCount(cfg, s);
    assert forall x: nat :: !LinkedMark(s.l, x);
    hide CountInv;
  }

  lemma {:induction false} RunKeepsMarks(cfg: Config, r: seq<State>, i: nat)
    requires Run(cfg, r) && i < |r|
    ensures MarksInv(cfg, r[i])
  {
    hide MarksInv, Init, StepBy;
    if i == 0 {
      InitMarks(cfg, r[0]);
    } else {
      RunKeepsMarks(cfg, r, i - 1);
      assert StepAt(cfg, r, i - 1);
      var t: Tid :| StepBy(cfg, r[i - 1], t, r[i]);
      StepKeepsMarks(cfg, r[i - 1], t, r[i]);
    }
  }

  /** A marked node is still linked only while its marker holds its lock. */
  lemma MarkedAreLocked(cfg: Config, r: seq<State>, i: nat, x: nat)
    requires Run(cfg, r) && i < |r| && LinkedMark(r[i].l, x)
    ensures r[i].l.nodes[x].lock == Some(r[i].l.nodes[x].marker)
  {
    hide Run, CountInv;
    RunKeepsMarks(cfg, r, i);
  }

  // ---------- size ----------

  ghost function LiveKeys(l: List): set<int> {
    set x | 0 <= x < |l.nodes| && |l.lin| > 0 && x in l.lin[0] && !l.nodes[x].isHead && !l.nodes[x].marked
        :: l.nodes[x].key
  }

  lemma {:induction false} DistinctKeys(l: List, xs: set<nat>) returns (keys: set<int>)
    requires forall x :: x in xs ==> x < |l.nodes|
    requires forall x, y :: x in xs && y in xs && l.nodes[x].key == l.nodes[y].key ==> x == y
    ensures |keys| == |xs|
    ensures forall d :: d in keys <==> exists x :: x in xs && l.nodes[x].key == d
    decreases |xs|
  {
    if xs == {} {
      keys := {};
    } else {
      var x :| x in xs;
      var rest := DistinctKeys(l, xs - {x});
      keys := rest + {l.nodes[x].key};
      forall d ensures d in keys <==> exists y :: y in xs && l.nodes[y].key == d {
        if d in rest {
          var y :| y in xs - {x} && l.nodes[y].key == d;
          assert y in xs;
        }
      }
      assert l.nodes[x].key !in rest;
    }
  }

  lemma LiveKeysAreLive(cfg: Config, l: List, d: int)
    requires ListInv(cfg, l)
    ensures d in LiveKeys(l) <==> Live(l, d)
  {
    if d in LiveKeys(l) {
      var x :| 0 <= x < |l.nodes| && x in l.lin[0] && !l.nodes[x].isHead && !l.nodes[x].marked && l.nodes[x].key == d;
      assert LinOk(l, 0, x);
      assert Holds(l, d, x) && !Marked(l, x);
    }
    if Live(l, d) {
      var x :| Holds(l, d, x) && !Marked(l, x);
    }
  }

  lemma UnmarkedKeys(cfg: Config, l: List)
    requires ListInv(cfg, l) && |l.lin| > 0 && forall x :: x in l.lin[0] - {l.head} ==> IsItem(l, x) && !Marked(l, x)
    ensures |LiveKeys(l)| == |l.lin[0] - {l.head}|
  {
    var xs := l.lin[0] - {l.head};
    forall x, y | x in xs && y in xs && l.nodes[x].key == l.nodes[y].key ensures x == y {
      OneHolder(cfg, l, l.nodes[x].key, x, y);
    }
    var keys := DistinctKeys(l, xs);
    forall d ensures d in keys <==> d in LiveKeys(l) {
      if d in LiveKeys(l) {
        var x :| 0 <= x < |l.nodes| && x in l.lin[0] && !l.nodes[x].isHead && !l.nodes[x].marked && l.nodes[x].key == d;
        assert LinOk(l, 0, x) && x in xs;
      }
    }
    assert keys == LiveKeys(l);
  }

  /** When no add or remove is in progress, every linked node is unmarked, and size() is
      the number of keys in the set. */
  lemma SizeIsExact(cfg: Config, r: seq<State>, i: nat, d: int)
    requires Run(cfg, r) && i < |r| && forall t :: 0 <= t < |r[i].threads| ==> Quiet(r[i].threads[t].pc)
    ensures var l := r[i].l;
            && |l.lin| > 0 && (forall x :: x in l.lin[0] ==> IsNode(l, x) && !Marked(l, x))
            && l.size == |LiveKeys(l)| && (d in LiveKeys(l) <==> Live(l, d))
  {
    var l := r[i].l;
    QuietLocks(cfg, r, i);
    QuietSize(cfg, r, i);
    RunList(cfg, r, i);
    hide Run;
    forall x | x in l.lin[0] ensures IsNode(l, x) && !Marked(l, x) {
      assert LinOk(l, 0, x);
      assert !LinkedMark(l, x);
    }
    forall x | x in l.lin[0] - {l.head} ensures IsItem(l, x) {
      assert LinOk(l, 0, x);
    }
    UnmarkedKeys(cfg, l);
    LiveKeysAreLive(cfg, l, d);
  }

  lemma QuietLocks(cfg: Config, r: seq<State>, i: nat)
    requires Run(cfg, r) && i < |r| && forall t :: 0 <= t < |r[i].threads| ==> Quiet(r[i].threads[t].pc)
    ensures forall x: nat :: !LinkedMark(r[i].l, x)
  {
    RunKeepsMarks(cfg, r, i);
    hide Run, FullInv, SizeInv, ThreadSize;
    NoLocks(cfg, r, i);
  }
}
