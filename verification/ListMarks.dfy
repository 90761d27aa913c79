/** Which keys the durable image holds. A thread that has marked a node persists the mark before it goes on, so a
    crash brings no deleted key back; and it loses no key in front of which no line is owed. */
module ListMarks {
  import opened ListCommon
  import opened ListMachine
  import opened ListInv
  import opened ListHeap
  import opened ListSteps
  import opened ListEffects
  import opened ListUpdates
  import opened ListSafety
  import opened ListDurable

  /** Thread p has marked slot x and is about to persist the mark. */
  predicate OwesMark(s: State, p: nat, x: nat) {
    p < |s.th| && s.th[p].pc == RPersistMark && s.th[p].right == x
  }

  /** The mark of a published slot is durable, or a thread is about to persist it. */
  ghost predicate MarkOk(s: State, x: nat) {
    Published(s.sh, x) ==>
      && (DNxt(s.sh, x).mark ==> Nxt(s.sh, x).mark)
      && (Nxt(s.sh, x).mark ==> DNxt(s.sh, x).mark || exists p: nat :: OwesMark(s, p, x))
  }

  ghost predicate MarksOk(s: State) {
    forall x: nat {:trigger MarkOk(s, x)} :: MarkOk(s, x)
  }

  // One step.

  lemma SearchSetsNoMark(sh: Shared, p: nat, t: Thread, x: nat)
    ensures Nxt(SearchStep(sh, p, t).0, x).mark ==> Nxt(sh, x).mark
  {}

  lemma AddSetsNoMark(sh: Shared, p: nat, t: Thread, y: nat, x: nat)
    ensures Nxt(AddStep(sh, p, t, y).0, x).mark ==> Nxt(sh, x).mark
  {}

  lemma RemoveMarks(sh: Shared, p: nat, t: Thread, x: nat)
    ensures var (sh', t') := RemoveStep(sh, p, t);
            Nxt(sh', x).mark ==> Nxt(sh, x).mark || (t'.pc == RPersistMark && t'.right == x)
  {}

  lemma RetireKeepsLinks(c: Config, sh: Shared, p: nat, t: Thread)
    ensures RetireStep(c, sh, p, t).0.next == sh.next
  {}

  /** Only remove sets a mark. */
  lemma OnlyRemoveMarks(c: Config, sh: Shared, p: nat, t: Thread, op: Op, val: int, y: nat, x: nat)
    ensures var (sh', t') := Move(c, sh, p, t, op, val, y);
            Nxt(sh', x).mark ==> Nxt(sh, x).mark || (t'.pc == RPersistMark && t'.right == x)
  {
    match RoutineOf(t.pc)
    case Start =>
    case Contain =>
    case Search => SearchSetsNoMark(sh, p, t, x);
    case Insert => AddSetsNoMark(sh, p, t, y, x);
    case Delete => RemoveMarks(sh, p, t, x);
    case Retire => RetireKeepsLinks(c, sh, p, t);
    case End =>
  }

  /** A slot is published by the CAS of add, with its line already persisted and unmarked. */
  lemma LinkedUnmarked(c: Config, s: State, p: nat, op: Op, val: int, y: nat, x: nat)
    requires Inv(c, s) && p < c.threads && St(s.sh, x).Private?
    ensures var sh' := Move(c, s.sh, p, s.th[p], op, val, y).0;
            IsLinked(sh', x) ==> !DNxt(sh', x).mark && !Nxt(sh', x).mark
  {
    assert ThreadsOk(s.sh, map[p := s.th[p]]);
    ThreadLinksUnmarked(c, s.sh, p, s.th[p], op, val, y, x);
  }

  lemma ThreadLinksUnmarked(c: Config, sh: Shared, p: nat, t: Thread, op: Op, val: int, y: nat, x: nat)
    requires HeapOk(c, sh) && ThreadsOk(sh, map[p := t]) && St(sh, x).Private?
    ensures var sh' := Move(c, sh, p, t, op, val, y).0;
            IsLinked(sh', x) ==> !DNxt(sh', x).mark && !Nxt(sh', x).mark
  {
    if IsLinked(Move(c, sh, p, t, op, val, y).0, x) {
      OnlyAddLinks(c, sh, p, t, op, val, y, x);
      ThreadFrame(sh, p, t);
      ThreadBook(sh, p, t);
      ThreadPoint(sh, p, t);
      NewNodeUnmarked(c, sh, p, t, x);
    }
  }

  lemma OnlyAddLinks(c: Config, sh: Shared, p: nat, t: Thread, op: Op, val: int, y: nat, x: nat)
    requires St(sh, x).Private? && IsLinked(Move(c, sh, p, t, op, val, y).0, x)
    ensures t.pc == ALink && Nxt(sh, t.left) == Link(t.right, false)
  {}

  lemma NewNodeUnmarked(c: Config, sh: Shared, p: nat, t: Thread, x: nat)
    requires HeapOk(c, sh) && OwnsOk(sh, p, t) && NewNodeOk(sh, t) && AbsentOk(sh, t) && t.pc == ALink && t.neu.Some?
    requires Nxt(sh, t.left) == Link(t.right, false)
    requires St(sh, x).Private? && IsLinked(LinkNode(sh, t.left, t.neu.value), x)
    ensures var sh' := LinkNode(sh, t.left, t.neu.value);
            !DNxt(sh', x).mark && !Nxt(sh', x).mark
  {}

  lemma StillOwed(s: State, s': State, p: nat, x: nat)
    requires |s'.th| == |s.th| && forall q :: 0 <= q < |s.th| && q != p ==> s'.th[q] == s.th[q]
    requires exists q: nat :: OwesMark(s, q, x) && q != p
    ensures exists q: nat :: OwesMark(s', q, x)
  {
    var q: nat :| OwesMark(s, q, x) && q != p;
    assert OwesMark(s', q, x);
  }

  /** The thread that has marked x persists it. */
  lemma PersistsItsMark(c: Config, sh: Shared, p: nat, t: Thread, op: Op, val: int, y: nat, x: nat)
    requires t.pc == RPersistMark && t.right == x && x < |sh.dnext| == |sh.ddata|
    ensures DNxt(Move(c, sh, p, t, op, val, y).0, x) == Nxt(sh, x)
  {
    MoveCopiesLines(c, sh, p, t, op, val, y);
  }

  lemma MarkedBefore(c: Config, s: State, p: nat, op: Op, val: int, y: nat, s': State, x: nat)
    requires Sizes(c, s.sh) && SteadyStepBy(c, s, p, op, val, y, s') && SlotEvolves(s.sh, s'.sh, p, x)
    requires Published(s.sh, x) && MarkOk(s, x) && Nxt(s.sh, x).mark
    ensures MarkOk(s', x)
  {
    if !DNxt(s'.sh, x).mark {
      if OwesMark(s, p, x) {
        PersistsItsMark(c, s.sh, p, s.th[p], op, val, y, x);
      } else {
        StillOwed(s, s', p, x);
      }
    }
  }

  lemma UnmarkedBefore(c: Config, s: State, p: nat, op: Op, val: int, y: nat, s': State, x: nat)
    requires SteadyStepBy(c, s, p, op, val, y, s') && SlotEvolves(s.sh, s'.sh, p, x)
    requires Published(s.sh, x) && MarkOk(s, x) && !Nxt(s.sh, x).mark
    ensures MarkOk(s', x)
  {
    OnlyRemoveMarks(c, s.sh, p, s.th[p], op, val, y, x);
    if Nxt(s'.sh, x).mark {
      assert OwesMark(s', p, x);
    }
  }

  lemma StepKeepsMark(c: Config, s: State, p: nat, op: Op, val: int, y: nat, s': State, x: nat)
    requires Inv(c, s) && SteadyStepBy(c, s, p, op, val, y, s') && Evolves(c, s.sh, s'.sh, p) && MarkOk(s, x)
    ensures MarkOk(s', x)
  {
    assert SlotEvolves(s.sh, s'.sh, p, x);
    if Published(s.sh, x) {
      if Nxt(s.sh, x).mark {
        MarkedBefore(c, s, p, op, val, y, s', x);
      } else {
        UnmarkedBefore(c, s, p, op, val, y, s', x);
      }
    } else if Published(s'.sh, x) {
      LinkedUnmarked(c, s, p, op, val, y, x);
    }
  }

  lemma WriteBackKeepsMark(c: Config, s: State, y: nat, s': State, x: nat)
    requires WriteBack(s, y, s') && MarkOk(s, x)
    ensures MarkOk(s', x)
  {
    assert forall p: nat :: OwesMark(s', p, x) == OwesMark(s, p, x);
  }

  lemma StepKeepsMarks(c: Config, s: State, s': State)
    requires SoundStep(c, {s}, s') && MarksOk(s)
    ensures MarksOk(s')
  {
    assert SoundAt(c, s, s');
    forall x: nat ensures MarkOk(s', x) {
      assert MarkOk(s, x);
      if y :| WriteBack(s, y, s') {
        WriteBackKeepsMark(c, s, y, s', x);
      } else {
        var p, op, val, y :| SteadyStepBy(c, s, p, op, val, y, s');
        StepKeepsInv(c, s, p, op, val, y, s');
        StepKeepsMark(c, s, p, op, val, y, s', x);
      }
    }
  }

  /** In every state of every steady run, a published slot with a durable mark is marked, and a marked one has a
      durable mark unless the thread that has marked it is just about to persist it. */
  lemma {:induction false} RunsKeepMarks(c: Config, run: seq<State>, n: nat)
    requires SteadyRun(c, run) && n < |run|
    ensures MarksOk(run[n])
  {
    if n > 0 {
      RunsKeepMarks(c, run, n - 1);
      StepOfRun(c, run, n);
      StepKeepsMarks(c, run[n - 1], run[n]);
    }
  }

  // The durable keys.

  /** The keys that recovery finds on a durable path: those of inner nodes without a durable mark. */
  function DurableKeys(sh: Shared, path: seq<nat>): set<int> {
    set i | 0 < i < |path| - 1 && !DNxt(sh, path[i]).mark :: DDat(sh, path[i])
  }

  lemma {:induction false} DurableIsLive(s: State, path: seq<nat>, i: nat)
    requires IsLinked(s.sh, HEAD) && AllLeadUp(s) && IsDurablePath(s.sh, path) && i < |path|
    ensures Live(s, path[i]) && Published(s.sh, path[i])
    ensures 0 < i < |path| - 1 ==> path[i] != HEAD && path[i] != TAIL && DDat(s.sh, path[i]) == Dat(s.sh, path[i])
  {
    if i > 0 {
      DurableIsLive(s, path, i - 1);
      assert LeadsUp(s, path[i - 1]);
    }
    LinePublished(s, path[i]);
    if 0 < i < |path| - 1 {
      assert LeadsUp(s, path[i]);
      assert DDat(s.sh, path[0]) < DDat(s.sh, path[i]);
    }
  }

  /** Thread p has deleted key d but not yet persisted the mark. */
  predicate Deleting(s: State, p: nat, d: int) {
    p < |s.th| && s.th[p].pc == RPersistMark && Dat(s.sh, s.th[p].right) == d
  }

  lemma FoundIsPresent(c: Config, s: State, path: seq<nat>, i: nat)
    requires Inv(c, s) && AllLeadUp(s) && MarksOk(s) && IsDurablePath(s.sh, path)
    requires 0 < i < |path| - 1 && !DNxt(s.sh, path[i]).mark
    ensures DDat(s.sh, path[i]) in Keys(s.sh) || exists p: nat :: Deleting(s, p, DDat(s.sh, path[i]))
  {
    var x := path[i];
    DurableIsLive(s, path, i);
    assert MarkOk(s, x) && GoneOk(s.sh, x);
    if Nxt(s.sh, x).mark {
      var p: nat :| OwesMark(s, p, x);
      assert Deleting(s, p, DDat(s.sh, x));
    } else {
      assert IsMember(s.sh, x);
    }
  }

  lemma DurableState(c: Config, run: seq<State>, n: nat)
    requires SteadyRun(c, run) && n < |run|
    ensures Inv(c, run[n]) && DurableOk(run[n]) && MarksOk(run[n])
  {
    RunsKeepDurable(c, run, n);
    RunsKeepMarks(c, run, n);
    assert DurableAt(c, run[n]);
  }

  /** A crash brings no deleted key back. In every state of every steady run, each key found on a durable path is
      in the key set, or a thread has just deleted it and not yet persisted the mark. */
  lemma DeletedStaysDeleted(c: Config, run: seq<State>, n: nat, path: seq<nat>, d: int)
    requires SteadyRun(c, run) && n < |run| && IsDurablePath(run[n].sh, path) && d in DurableKeys(run[n].sh, path)
    ensures d in Keys(run[n].sh) || exists p: nat :: Deleting(run[n], p, d)
  {
    DurableState(c, run, n);
    PathNeedsHead(run[n].sh, path);
    DurableLeadsUp(c, run[n]);
    var i :| 0 < i < |path| - 1 && !DNxt(run[n].sh, path[i]).mark && DDat(run[n].sh, path[i]) == d;
    FoundIsPresent(c, run[n], path, i);
  }

  /** Thread p still owes a line in front of key d. */
  predicate OwesBefore(s: State, p: nat, d: int) {
    p < |s.th| && Owes(s.th[p]).Some? && Dat(s.sh, Owes(s.th[p]).value) < d
  }

  lemma {:induction false} PathMeets(c: Config, s: State, path: seq<nat>, i: nat, x: nat) returns (j: nat)
    requires Inv(c, s) && DurableOk(s) && !HeadIsStale(s.sh) && IsDurablePath(s.sh, path)
    requires i < |path| && IsLinked(s.sh, path[i]) && IsMember(s.sh, x) && Lt(s.sh, path[i], x)
    requires forall p: nat :: !OwesBefore(s, p, Dat(s.sh, x))
    ensures i < j < |path| - 1 && path[j] == x
    decreases |path| - i
  {
    var y := path[i];
    assert Live(s, y) && LineOk(s, y);
    if q :| 0 <= q < |s.th| && Covers(s, q, y) {
      assert OwesBefore(s, q, Dat(s.sh, x));
    }
    assert DNxt(s.sh, y).idx == Nxt(s.sh, y).idx == path[i + 1];
    assert SuccessorOk(s.sh, y) && Adjacent(s.sh, y, x);
    if path[i + 1] == x {
      j := i + 1;
    } else {
      j := PathMeets(c, s, path, i + 1, x);
    }
  }

  lemma PresentIsFound(c: Config, s: State, path: seq<nat>, d: int)
    requires Inv(c, s) && DurableOk(s) && MarksOk(s) && !HeadIsStale(s.sh) && IsDurablePath(s.sh, path)
    requires d in Keys(s.sh) && forall p: nat :: !OwesBefore(s, p, d)
    ensures d in DurableKeys(s.sh, path)
  {
    var x :| 0 <= x < |s.sh.slot| && IsMember(s.sh, x) && Dat(s.sh, x) == d;
    assert Ordered(s.sh, HEAD, x);
    var j := PathMeets(c, s, path, 0, x);
    assert MarkOk(s, x) && LineOk(s, x);
  }

  /** A crash loses no key in front of which no line is owed. In every state of every steady run, each key of the
      set is found on every durable path, unless some thread still owes the line of a node with a lower key. */
  lemma PresentStaysPresent(c: Config, run: seq<State>, n: nat, path: seq<nat>, d: int)
    requires SteadyRun(c, run) && n < |run| && IsDurablePath(run[n].sh, path) && d in Keys(run[n].sh)
    ensures d in DurableKeys(run[n].sh, path) || exists p: nat :: OwesBefore(run[n], p, d)
  {
    DurableState(c, run, n);
    PathNeedsHead(run[n].sh, path);
    if forall p: nat :: !OwesBefore(run[n], p, d) {
      PresentIsFound(c, run[n], path, d);
    }
  }

  /** Whenever no thread owes a line or a mark, once the head's line has settled: the durable links form a path
      from slot 0 to slot 1, and the keys found on it are exactly the key set. */
  lemma DurableImageHoldsKeys(c: Config, run: seq<State>, n: nat)
    requires SteadyRun(c, run) && n < |run| && !HeadIsStale(run[n].sh)
    requires forall p :: 0 <= p < |run[n].th| ==> Owes(run[n].th[p]).None? && run[n].th[p].pc != RPersistMark
    ensures exists path :: IsDurablePath(run[n].sh, path)
    ensures forall path :: IsDurablePath(run[n].sh, path) ==>
              (set i | 0 < i < |path| - 1 && !DNxt(run[n].sh, path[i]).mark :: DDat(run[n].sh, path[i])) == Keys(run[n].sh)
  {
    DurableImageIsSorted(c, run, n);
    forall path | IsDurablePath(run[n].sh, path) ensures DurableKeys(run[n].sh, path) == Keys(run[n].sh) {
      forall d ensures d in DurableKeys(run[n].sh, path) <==> d in Keys(run[n].sh) {
        if d in DurableKeys(run[n].sh, path) {
          DeletedStaysDeleted(c, run, n, path, d);
        } else if d in Keys(run[n].sh) {
          PresentStaysPresent(c, run, n, path, d);
        }
      }
    }
  }
}
