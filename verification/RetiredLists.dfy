/** The retired lists of the concurrent list. The exit of new_node for lack of memory is never taken: a retired list
    holds distinct slots that the allocator can find, the sentinels not among them, and its private bitmap is as
    large as the allocator's. And empty leaves nothing on it that is older than the minimum found. */
module RetiredLists {
  import opened ListCommon
  import opened ListMachine
  import opened ListInv
  import opened ListSafety
  import opened ListSteps
  import ListCrash
  import Reclaimer
  import SlotBitmap

  function SlotsOf(list: seq<Entry>): set<nat> { set e | e in list :: e.idx }

  lemma {:induction false} DistinctSlots(list: seq<Entry>)
    requires forall i, j :: 0 <= i < j < |list| ==> list[i].idx != list[j].idx
    ensures |SlotsOf(list)| == |list|
  {
    if |list| > 0 {
      var front, last := list[..|list| - 1], list[|list| - 1];
      DistinctSlots(front);
      assert list == front + [last];
      assert SlotsOf(list) == SlotsOf(front) + {last.idx};
    } else {
      assert SlotsOf(list) == {};
    }
  }

  lemma SubsetSize(a: set<nat>, b: set<nat>)
    requires a <= b
    ensures |a| <= |b|
  {
    assert b == a + (b - a);
  }

  /** Every slot on a retired list is one that the allocator can find. */
  lemma RetiredIsFindable(c: Config, s: State, p: nat, e: Entry)
    requires StatesInv(c, {s}) && ListCrash.UsedAreFindable(c, s.sh) && p < c.threads && p < |s.th| && e in s.th[p].list
    ensures Findable(c, e.idx) && e.idx != HEAD && e.idx != TAIL
  {
    assert Inv(c, s);
    FactsOf(c, s, p);
    assert OwnsSlot(s.sh, p, s.th[p], e.idx) && ListCrash.UsedIsFindable(c, s.sh, e.idx);
  }

  lemma ListsAreDistinct(c: Config, s: State, p: nat)
    requires StatesInv(c, {s}) && p < c.threads
    ensures p < |s.th| && forall i, j :: 0 <= i < j < |s.th[p].list| ==> s.th[p].list[i].idx != s.th[p].list[j].idx
  {
    assert Inv(c, s);
    FactsOf(c, s, p);
  }

  /** In every state of every steady run, a thread has retired at most as many slots as can be found beside the
      sentinels. */
  lemma RetiredFit(c: Config, run: seq<State>, n: nat, p: nat)
    requires SteadyRun(c, run) && n < |run| && p < c.threads && c.slots >= 64
    ensures p < |run[n].th| && |run[n].th[p].list| + 2 <= c.slots / 64 * 32
  {
    StateOfRun(c, run, n);
    ListCrash.RunsUseFindable(c, run, n);
    ListsAreDistinct(c, run[n], p);
    var list := run[n].th[p].list;
    forall e | e in list ensures Findable(c, e.idx) && e.idx != HEAD && e.idx != TAIL {
      RetiredIsFindable(c, run[n], p, e);
    }
    DistinctSlots(list);
    SlotBitmap.HalfIsFindable(c.slots / 64);
    SubsetSize(SlotsOf(list) + {HEAD, TAIL}, SlotBitmap.FindableBelow(c.slots / 64 * 64));
    assert |SlotsOf(list) + {HEAD, TAIL}| == |list| + 2;
  }

  function Elements(nodes: seq<nat>): set<nat> { set x | x in nodes }

  lemma {:induction false} ElementsSize(nodes: seq<nat>)
    ensures |Elements(nodes)| <= |nodes|
  {
    if |nodes| > 0 {
      var front, last := nodes[..|nodes| - 1], nodes[|nodes| - 1];
      ElementsSize(front);
      assert nodes == front + [last];
      assert Elements(nodes) == Elements(front) + {last};
    } else {
      assert Elements(nodes) == {};
    }
  }

  /** A retired list with fewer entries than half of its nodes has a node left that can be found. */
  lemma NodeIsLeft(list: Reclaimer.RList)
    requires list.Valid() && list.size < list.bm.words.Length * 32
    ensures exists x: nat :: x in list.bm.Free() && InLowHalf(x)
  {
    var all, taken := SlotBitmap.FindableBelow(list.bm.words.Length * 64), Elements(list.nodes);
    SlotBitmap.HalfIsFindable(list.bm.words.Length);
    ElementsSize(list.nodes);
    if all <= taken {
      SubsetSize(all, taken);
    } else {
      var x :| x in all && x !in taken;
      assert list.bm.IsFree(x);
      assert x in list.bm.Free() && InLowHalf(x);
    }
  }

  /** In every state of every steady run, list_add finds a node in a list that holds what the thread has retired,
      as `Reclaimer.RList.Add` asks for. */
  lemma ListAddFinds(c: Config, run: seq<State>, n: nat, p: nat, list: Reclaimer.RList)
    requires SteadyRun(c, run) && n < |run| && p < c.threads && p < |run[n].th|
    requires list.Valid() && list.bm.words.Length == c.slots / 64 && list.Contents() == run[n].th[p].list
    ensures exists x: nat :: x in list.bm.Free() && InLowHalf(x)
  {
    assert c.slots >= 64;
    RetiredFit(c, run, n, p);
    NodeIsLeft(list);
  }

  // What empty leaves behind.

  /** The entries that the loop of empty has passed are not older than the minimum. */
  predicate PassedOk(t: Thread) {
    t.pc == EFree ==> t.pos <= |t.list| && forall i :: 0 <= i < t.pos ==> !Before(t.list[i].epoch, t.min)
  }

  lemma TestDoesNotEmpty(sh: Shared, p: nat, t: Thread)
    requires t.pc == STest
    ensures SearchStep(sh, p, t).1.pc != EFree
  {
    AdvanceShape(t);
    DecideShape(t, t.t);
  }

  lemma SearchDoesNotEmpty(sh: Shared, p: nat, t: Thread)
    requires RoutineOf(t.pc) == Search && t.pc != STest
    ensures SearchStep(sh, p, t).1.pc != EFree
  {}

  lemma ContainsDoesNotEmpty(sh: Shared, t: Thread)
    requires RoutineOf(t.pc) == Contain
    ensures ContainsStep(sh, t).pc != EFree
  {}

  lemma UpdateDoesNotEmpty(sh: Shared, p: nat, t: Thread, x: nat)
    ensures RoutineOf(t.pc) == Insert ==> AddStep(sh, p, t, x).1.pc != EFree
    ensures RoutineOf(t.pc) == Delete ==> RemoveStep(sh, p, t).1.pc != EFree
  {}

  lemma OtherStepsDoNotEmpty(c: Config, sh: Shared, p: nat, t: Thread, op: Op, val: int, x: nat)
    requires RoutineOf(t.pc) != Retire
    ensures Move(c, sh, p, t, op, val, x).1.pc != EFree
  {
    match RoutineOf(t.pc)
    case Start =>
    case Contain => ContainsDoesNotEmpty(sh, t);
    case Search =>
      if t.pc == STest {
        TestDoesNotEmpty(sh, p, t);
      } else {
        SearchDoesNotEmpty(sh, p, t);
      }
    case Insert => UpdateDoesNotEmpty(sh, p, t, x);
    case Delete => UpdateDoesNotEmpty(sh, p, t, x);
    case End =>
  }

  lemma RetireStepPasses(c: Config, sh: Shared, p: nat, t: Thread)
    requires PassedOk(t) && RoutineOf(t.pc) == Retire
    ensures PassedOk(RetireStep(c, sh, p, t).1)
  {}

  lemma MovePasses(c: Config, sh: Shared, p: nat, t: Thread, op: Op, val: int, x: nat)
    requires PassedOk(t)
    ensures PassedOk(Move(c, sh, p, t, op, val, x).1)
  {
    if RoutineOf(t.pc) == Retire {
      RetireStepPasses(c, sh, p, t);
    } else {
      OtherStepsDoNotEmpty(c, sh, p, t, op, val, x);
    }
  }

  ghost predicate AllPassed(s: State) {
    forall p :: 0 <= p < |s.th| ==> PassedOk(s.th[p])
  }

  /** `Step` from a single state, folded: only ever applied to a set of one. */
  ghost predicate Steps(c: Config, from: set<State>, to: State) {
    forall s {:trigger Step(c, s, to)} :: s in from ==> Step(c, s, to)
  }

  lemma RunSteps(c: Config, run: seq<State>, n: nat)
    requires Run(c, run) && 0 < n < |run|
    ensures Steps(c, {run[n - 1]}, run[n])
  {
    assert StepAt(c, run, n);
  }

  lemma StepPasses(c: Config, s: State, s': State)
    requires Steps(c, {s}, s') && AllPassed(s)
    ensures AllPassed(s')
  {
    assert Step(c, s, s');
    if x: nat :| WriteBack(s, x, s') {
    } else {
      var q: nat, op: Op, val: int, x: nat :| StepBy(c, s, q, op, val, x, s');
      StepByPasses(c, s, q, op, val, x, s');
    }
  }

  lemma StepByPasses(c: Config, s: State, q: nat, op: Op, val: int, x: nat, s': State)
    requires StepBy(c, s, q, op, val, x, s') && AllPassed(s)
    ensures AllPassed(s')
  {
    MovePasses(c, s.sh, q, s.th[q], op, val, x);
  }

  lemma {:induction false} RunsPass(c: Config, run: seq<State>, n: nat)
    requires Run(c, run) && n < |run|
    ensures AllPassed(run[n])
  {
    if n > 0 {
      RunsPass(c, run, n - 1);
      RunSteps(c, run, n);
      StepPasses(c, run[n - 1], run[n]);
    }
  }

  lemma MoverIs(c: Config, s: State, q: nat, op: Op, val: int, x: nat, s': State, p: nat)
    requires StepBy(c, s, q, op, val, x, s') && p < |s.th|
    ensures |s'.th| == |s.th| && (s'.th[p] != s.th[p] ==> q == p)
    ensures q == p && s.th[p].pc == EFree ==> s'.th[p] == RetireStep(c, s.sh, p, s.th[p]).1
  {}

  lemma FreeStepEnds(c: Config, sh: Shared, p: nat, t: Thread)
    requires t.pc == EFree && PassedOk(t) && RetireStep(c, sh, p, t).1.pc != EFree
    ensures t.pos == |t.list| && RetireStep(c, sh, p, t).1.list == t.list
  {}

  lemma EmptyEnds(c: Config, s: State, s': State, p: nat)
    requires Steps(c, {s}, s') && AllPassed(s) && p < |s.th| && p < |s'.th| && s.th[p].pc == EFree && s'.th[p].pc != EFree
    ensures s'.th[p].list == s.th[p].list && forall e :: e in s.th[p].list ==> !Before(e.epoch, s.th[p].min)
  {
    assert Step(c, s, s');
    if x: nat :| WriteBack(s, x, s') {
      assert false;
    } else {
      var q: nat, op: Op, val: int, x: nat :| StepBy(c, s, q, op, val, x, s');
      MoverIs(c, s, q, op, val, x, s', p);
      FreeStepEnds(c, s.sh, p, s.th[p]);
    }
  }

  /** The loop of empty is complete: in every run, a thread that leaves it has no entry on its list any more that was
      retired before the minimum it has found. */
  lemma EmptyLeavesNoOlder(c: Config, run: seq<State>, n: nat, p: nat)
    requires Run(c, run) && 0 < n < |run| && p < |run[n - 1].th| && p < |run[n].th|
    requires run[n - 1].th[p].pc == EFree && run[n].th[p].pc != EFree
    ensures run[n].th[p].list == run[n - 1].th[p].list
    ensures forall e :: e in run[n].th[p].list ==> !Before(e.epoch, run[n - 1].th[p].min)
  {
    RunsPass(c, run, n - 1);
    RunSteps(c, run, n);
    EmptyEnds(c, run[n - 1], run[n], p);
  }
}
