/** contains is wait-free: whatever the other threads do, a call returns within a fixed number of steps of its
    own. Keys are ints, and each node that the call moves on to has a larger one. */
module ListWaitFree {
  import opened ListCommon
  import opened ListMachine
  import opened ListInv
  import opened ListHeap
  import opened ListEffects
  import opened ListSafety
  import opened ListResults
  import opened ListLinear
  import opened ListSolo

  /** What the invariant says of a single thread, folded: `SoundFacts` is only ever applied to a set of one. */
  ghost predicate FactsHold(c: Config, sh: Shared, p: nat, t: Thread) {
    HeapOk(c, sh) && ThreadsOk(sh, map[p := t])
  }

  ghost predicate SoundFacts(c: Config, sh: Shared, p: nat, ts: set<Thread>) {
    forall t {:trigger FactsHold(c, sh, p, t)} :: t in ts ==> FactsHold(c, sh, p, t)
  }

  // Keys that have ever been in the list are ints.

  predicate KeyFits(sh: Shared, x: nat) { Published(sh, x) ==> Dat(sh, x) <= INT_MAX }

  ghost predicate KeysFit(s: State) {
    && (forall x: nat {:trigger KeyFits(s.sh, x)} :: KeyFits(s.sh, x))
    && (forall p :: 0 <= p < |s.th| ==> s.th[p].val <= INT_MAX)
  }

  lemma OnlyLinkPublishes(c: Config, sh: Shared, p: nat, t: Thread, op: Op, val: int, x: nat, y: nat)
    requires |sh.slot| == |sh.next| && St(sh, y).Private? && IsLinked(Move(c, sh, p, t, op, val, x).0, y)
    ensures t.pc == ALink && Dat(Move(c, sh, p, t, op, val, x).0, y) == Dat(sh, y)
  {}

  lemma ValsFit(c: Config, s: State, p: nat, op: Op, val: int, x: nat, s': State)
    requires StepBy(c, s, p, op, val, x, s') && |s.sh.hist| > 0 && s.th[p].val <= INT_MAX
    ensures s'.th[p].val <= INT_MAX
  {
    if s.th[p].pc != Idle {
      MoveIsBooked(c, s.sh, p, s.th[p], op, val, x);
    }
  }

  lemma LinkedKeyFits(c: Config, s: State, p: nat, op: Op, val: int, x: nat, s': State, y: nat)
    requires Inv(c, s) && StepBy(c, s, p, op, val, x, s') && s.th[p].val <= INT_MAX
    requires St(s.sh, y) == Private(p) && IsLinked(s'.sh, y)
    ensures Dat(s'.sh, y) <= INT_MAX
  {
    FactsOf(c, s, p);
    assert OwnsSlot(s.sh, p, s.th[p], y);
    OnlyLinkPublishes(c, s.sh, p, s.th[p], op, val, x, y);
  }

  lemma MoveKeepsFit(c: Config, s: State, p: nat, op: Op, val: int, x: nat, s': State)
    requires Inv(c, s) && SteadyStepBy(c, s, p, op, val, x, s') && KeysFit(s)
    ensures KeysFit(s')
  {
    StepKeepsInv(c, s, p, op, val, x, s');
    ValsFit(c, s, p, op, val, x, s');
    forall y: nat ensures KeyFits(s'.sh, y) {
      assert KeyFits(s.sh, y) && SlotEvolves(s.sh, s'.sh, p, y);
      if St(s.sh, y) == Private(p) && IsLinked(s'.sh, y) {
        LinkedKeyFits(c, s, p, op, val, x, s', y);
      }
    }
  }

  lemma StepKeepsFit(c: Config, s: State, s': State)
    requires SoundStep(c, {s}, s') && KeysFit(s)
    ensures KeysFit(s')
  {
    assert SoundAt(c, s, s');
    if x :| WriteBack(s, x, s') {
      forall y: nat ensures KeyFits(s'.sh, y) {
        assert KeyFits(s.sh, y);
      }
    } else {
      var p, op, val, x :| SteadyStepBy(c, s, p, op, val, x, s');
      MoveKeepsFit(c, s, p, op, val, x, s');
    }
  }

  lemma {:induction false} RunsKeepFit(c: Config, run: seq<State>, n: nat)
    requires SteadyRun(c, run) && n < |run|
    ensures KeysFit(run[n])
  {
    if n > 0 {
      StepOfRun(c, run, n);
      RunsKeepFit(c, run, n - 1);
      StepKeepsFit(c, run[n - 1], run[n]);
    }
  }

  // The steps a call of contains has left.

  const KEYS: int := INT_MAX - INT_MIN

  /** The keys still above node x. */
  function KeysAbove(sh: Shared, x: nat): int { if x == TAIL then 0 else INT_MAX + 1 - Dat(sh, x) }

  function StepsLeft(sh: Shared, t: Thread): int {
    if t.pc.StartRead? then 3 * KEYS + 8
    else if t.pc.StartStore? then 3 * KEYS + 7
    else if t.pc.CHead? then 3 * KEYS + 6
    else if t.pc.CTest? then 3 * KeysAbove(sh, t.t) + 5
    else if t.pc.CMark? then 3 * KeysAbove(sh, t.t) + 4
    else if t.pc.CNext? then 3 * KeysAbove(sh, t.t) + 3
    else if t.pc.CKey? then 3
    else if t.pc.EndOp? then 2
    else if t.pc.DelNew? then 1
    else 0
  }

  lemma HeldFits(sh: Shared, t: Thread, x: nat)
    requires Held(sh, t, x) && KeyFits(sh, x)
    ensures KeysAbove(sh, x) >= 0
  {}

  lemma ReadingUsesUp(sh: Shared, p: nat, t: Thread)
    requires ThreadsOk(sh, map[p := t]) && (t.pc == CTest || t.pc == CMark || t.pc == CKey)
    requires KeyFits(sh, t.t)
    ensures StepsLeft(sh, ContainsStep(sh, t)) < StepsLeft(sh, t)
  {
    ThreadPoint(sh, p, t);
  }

  lemma HeadUsesUp(c: Config, sh: Shared, p: nat, t: Thread)
    requires SoundFacts(c, sh, p, {t}) && t.pc == CHead
    ensures StepsLeft(sh, ContainsStep(sh, t)) < StepsLeft(sh, t)
  {
    assert FactsHold(c, sh, p, t);
    assert SuccessorOk(sh, HEAD);
  }

  lemma NextUsesUp(sh: Shared, p: nat, t: Thread)
    requires ThreadsOk(sh, map[p := t]) && t.pc == CNext && KeyFits(sh, t.t)
    ensures StepsLeft(sh, ContainsStep(sh, t)) < StepsLeft(sh, t)
  {
    ReadingLooksAhead(sh, p, t);
    ThreadPoint(sh, p, t);
  }

  lemma StartUsesUp(sh: Shared, p: nat, t: Thread, op: Op, val: int)
    requires t.op.Contains? && PhaseOf(t) == Starting
    ensures StepsLeft(StartStep(sh, p, t, op, val).0, StartStep(sh, p, t, op, val).1) < StepsLeft(sh, t)
  {}

  lemma EndUsesUp(sh: Shared, p: nat, t: Thread)
    requires t.pc == EndOp || t.pc == DelNew
    ensures StepsLeft(EndStep(sh, p, t).0, EndStep(sh, p, t).1) < StepsLeft(sh, t)
  {}

  lemma PcOfContains(c: Config, sh: Shared, p: nat, t: Thread)
    requires SoundFacts(c, sh, p, {t}) && t.op.Contains?
    ensures ThreadsOk(sh, map[p := t])
    ensures var ph := PhaseOf(t); ph == Outside || ph == Starting || ph == Reading || ph == Ending || ph == Ended
  {
    assert FactsHold(c, sh, p, t);
    ThreadBook(sh, p, t);
  }

  /** Each step of a call of contains leaves it fewer steps. */
  lemma OwnStepUsesUp(c: Config, sh: Shared, p: nat, t: Thread, op: Op, val: int, x: nat)
    requires SoundFacts(c, sh, p, {t}) && KeyFits(sh, t.t)
    requires t.op.Contains? && t.pc != Idle && t.pc != Return
    ensures var (sh', t') := Move(c, sh, p, t, op, val, x); StepsLeft(sh', t') < StepsLeft(sh, t)
  {
    PcOfContains(c, sh, p, t);
    if t.pc.CHead? {
      HeadUsesUp(c, sh, p, t);
    } else if t.pc.CNext? {
      NextUsesUp(sh, p, t);
    } else if t.pc.CTest? || t.pc.CMark? || t.pc.CKey? {
      ReadingUsesUp(sh, p, t);
    } else if t.pc.StartRead? || t.pc.StartStore? {
      StartUsesUp(sh, p, t, op, val);
    } else {
      EndUsesUp(sh, p, t);
    }
  }

  // Runs.

  /** The thread stands at a node that it holds. */
  predicate AtNode(t: Thread) { t.pc == CTest || t.pc == CMark || t.pc == CNext }

  lemma NodeIsHeld(c: Config, s: State, p: nat)
    requires StatesInv(c, {s}) && p < c.threads && p < |s.th| && AtNode(s.th[p])
    ensures RunsAt(c, s, p) && Held(s.sh, s.th[p], s.th[p].t)
  {
    assert Inv(c, s);
    FactsOf(c, s, p);
    UsedIsHeld(s.sh, s.th[p], s.th[p].t);
  }

  lemma StaysAbove(c: Config, s: State, s': State, p: nat)
    requires SoundStep(c, {s}, s') && p < c.threads && p < |s.th| && p < |s'.th| && s'.th[p] == s.th[p]
    ensures StepsLeft(s'.sh, s'.th[p]) == StepsLeft(s.sh, s.th[p])
  {
    if AtNode(s.th[p]) {
      SoundMeansInv(c, s, s');
      NodeIsHeld(c, s, p);
      NodeIsHeld(c, s', p);
      StepKeepsHeld(c, s, s', p, s.th[p].t);
    }
  }

  lemma SoundMeansInv(c: Config, s: State, s': State)
    requires SoundStep(c, {s}, s')
    ensures StatesInv(c, {s}) && StatesInv(c, {s'})
  {
    assert SoundAt(c, s, s');
    InvIsInductive(c, s, s');
  }

  lemma SoloOfInv(c: Config, s: State, p: nat)
    requires StatesInv(c, {s}) && p < c.threads
    ensures p < |s.th| && SoundFacts(c, s.sh, p, {s.th[p]})
  {
    assert Inv(c, s);
    assert FactsHold(c, s.sh, p, s.th[p]);
  }

  lemma MovingUsesUp(c: Config, s: State, s': State, p: nat)
    requires SoundStep(c, {s}, s') && KeysFit(s) && p < c.threads && p < |s.th| && p < |s'.th| && SoloStep(c, s, p, s')
    requires s.th[p].pc != Idle && s.th[p].pc != Return && s.th[p].op.Contains?
    ensures StepsLeft(s'.sh, s'.th[p]) < StepsLeft(s.sh, s.th[p])
  {
    var op, val, x :| StepBy(c, s, p, op, val, x, s');
    SoundMeansInv(c, s, s');
    SoloOfInv(c, s, p);
    assert KeyFits(s.sh, s.th[p].t);
    OwnStepUsesUp(c, s.sh, p, s.th[p], op, val, x);
  }

  lemma ReturnIsLast(c: Config, s: State, s': State, p: nat)
    requires SoloStep(c, s, p, s') && Busy(s', p)
    ensures s.th[p].pc != Return
  {
    var op, val, x :| StepBy(c, s, p, op, val, x, s');
  }

  /** Whatever is not a step of the thread leaves it as it is. */
  lemma OthersLeaveIt(c: Config, s: State, s': State, p: nat)
    requires SoundStep(c, {s}, s') && p < |s.th| && !SoloStep(c, s, p, s')
    ensures p < |s'.th| && s'.th[p] == s.th[p]
  {
    assert SoundAt(c, s, s');
    if x :| WriteBack(s, x, s') {
    } else {
      var q: nat, op, val, x :| SteadyStepBy(c, s, q, op, val, x, s');
      assert q == p ==> StepBy(c, s, p, op, val, x, s');
    }
  }

  /** A step of the machine does not give a call of contains more steps to make, and takes one off if it is
      the call's own. */
  lemma StepUsesUp(c: Config, s: State, s': State, p: nat)
    requires SoundStep(c, {s}, s') && KeysFit(s) && p < c.threads
    requires Busy(s, p) && Busy(s', p) && s.th[p].op.Contains?
    ensures StepsLeft(s'.sh, s'.th[p]) + (if SoloStep(c, s, p, s') then 1 else 0) <= StepsLeft(s.sh, s.th[p])
  {
    if SoloStep(c, s, p, s') {
      ReturnIsLast(c, s, s', p);
      MovingUsesUp(c, s, s', p);
    } else {
      OthersLeaveIt(c, s, s', p);
      StaysAbove(c, s, s', p);
    }
  }

  /** How many of the steps from state m to state n are steps of thread p. */
  ghost function OwnSteps(c: Config, run: seq<State>, m: nat, n: nat, p: nat): nat
    requires n < |run|
    decreases n
  {
    if n <= m then 0 else OwnSteps(c, run, m, n - 1, p) + if SoloStep(c, run[n - 1], p, run[n]) then 1 else 0
  }

  lemma LeftIsNat(c: Config, run: seq<State>, n: nat, p: nat)
    requires SteadyRun(c, run) && n < |run| && p < c.threads && Busy(run[n], p)
    ensures StepsLeft(run[n].sh, run[n].th[p]) >= 0
  {
    if AtNode(run[n].th[p]) {
      StateOfRun(c, run, n);
      NodeIsHeld(c, run[n], p);
      RunsKeepFit(c, run, n);
      assert KeyFits(run[n].sh, run[n].th[p].t);
      HeldFits(run[n].sh, run[n].th[p], run[n].th[p].t);
    }
  }

  lemma CallStarted(c: Config, run: seq<State>, n: nat, p: nat)
    requires SteadyRun(c, run) && 0 < n < |run| && p < c.threads
    requires p < |run[n - 1].th| && run[n - 1].th[p].pc == Idle && Busy(run[n], p)
    ensures run[n].th[p].pc == StartRead
  {
    StepOfRun(c, run, n);
    IdleStarts(c, run[n - 1], run[n], p);
  }

  lemma IdleStarts(c: Config, s: State, s': State, p: nat)
    requires SoundStep(c, {s}, s') && p < |s.th| && s.th[p].pc == Idle && Busy(s', p)
    ensures s'.th[p].pc == StartRead
  {
    assert SoundAt(c, s, s');
    if x :| WriteBack(s, x, s') {
    } else {
      var q, op, val, x :| SteadyStepBy(c, s, q, op, val, x, s');
    }
  }

  lemma {:induction false} StepsAddUp(c: Config, run: seq<State>, m: nat, n: nat, p: nat)
    requires SteadyRun(c, run) && CallFrom(c, run, m, n, p) && Busy(run[n], p) && run[n].th[p].op.Contains?
    ensures OwnSteps(c, run, m, n, p) + StepsLeft(run[n].sh, run[n].th[p]) <= 3 * KEYS + 9
    decreases n
  {
    if n - 1 == m {
      CallStarted(c, run, n, p);
      assert OwnSteps(c, run, m, m, p) == 0;
    } else {
      assert Busy(run[n - 1], p);
      StepOfRun(c, run, n);
      StepKeepsBooks(c, run[n - 1], run[n]);
      StepKeepsCall(run[n - 1], run[n], p);
      StepsAddUp(c, run, m, n - 1, p);
      RunsKeepFit(c, run, n - 1);
      StepUsesUp(c, run[n - 1], run[n], p);
    }
  }

  /** However the other threads run, a call of contains makes at most three steps for each key there is, and
      nine more. */
  lemma ContainsIsWaitFree(c: Config, run: seq<State>, m: nat, n: nat, p: nat)
    requires SteadyRun(c, run) && CallFrom(c, run, m, n, p) && Busy(run[n], p) && run[n].th[p].op.Contains?
    ensures OwnSteps(c, run, m, n, p) <= 3 * KEYS + 9
  {
    StepsAddUp(c, run, m, n, p);
    LeftIsNat(c, run, n, p);
  }
}
