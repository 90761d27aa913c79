/** The concurrent list refines a set. Every change of the key set is one add or remove taking effect, and
    every operation returns what the set operation returns at a moment between its call and its return. */
module ListLinear {
  import opened ListCommon
  import opened ListMachine
  import opened ListInv
  import opened ListHeap
  import opened ListSteps
  import opened ListEffects
  import opened ListUpdates
  import opened ListSafety

  // One step.

  /** The thread's next step is a CAS that will change the key set. */
  predicate Effective(sh: Shared, t: Thread) {
    || (t.pc == ALink && Nxt(sh, t.left) == Link(t.right, false))
    || (t.pc == RMark && Nxt(sh, t.right) == t.ri)
  }

  /** Thread p took this step, and it changed the key set. */
  predicate TakesEffect(s: State, s': State, p: nat) {
    && p < |s.th| && p < |s'.th|
    && Effective(s.sh, s.th[p]) && s'.th[p].pc != s.th[p].pc
  }

  /** The set operation of thread p, between two states. */
  predicate SetChanges(s: State, s': State, p: nat)
    requires p < |s.th|
  {
    var t := s.th[p];
    if t.pc == ALink then t.op.Add? && t.val !in Keys(s.sh) && Keys(s'.sh) == Keys(s.sh) + {t.val}
    else t.op.Remove? && t.val in Keys(s.sh) && Keys(s'.sh) == Keys(s.sh) - {t.val}
  }

  /** What stays the same during a call. */
  predicate CallStays(t: Thread, t': Thread) {
    t'.op == t.op && t'.val == t.val && t'.start == t.start && t'.base == t.base
  }

  /** How a call begins. */
  predicate CallStarts(sh: Shared, t: Thread, t': Thread) {
    && t'.lin.None? && t'.tries == 0 && |sh.hist| > 0 && t'.start == |sh.hist| - 1
    && (sh.wins >= t.mine ==> t'.base == sh.wins - t.mine)
  }

  /** A step counts as a success in `wins` and `mine` alike. */
  predicate CasCounted(sh: Shared, t: Thread, sh': Shared, t': Thread) {
    sh'.wins - sh.wins == t'.mine - t.mine && sh.wins <= sh'.wins <= sh.wins + 1
  }

  predicate Booked(sh: Shared, t: Thread, sh': Shared, t': Thread) {
    && CasCounted(sh, t, sh', t')
    && (Effective(sh, t) || sh'.hist == sh.hist)
    && if t.pc == Idle then CallStarts(sh, t, t')
       else CallStays(t, t') && (Effective(sh, t) || t'.lin == t.lin)
  }

  /** Nothing that is counted changes. */
  predicate SameBooks(sh: Shared, t: Thread, sh': Shared, t': Thread) {
    && sh'.hist == sh.hist && sh'.wins == sh.wins
    && (t'.op, t'.val, t'.start, t'.base, t'.lin, t'.mine) == (t.op, t.val, t.start, t.base, t.lin, t.mine)
  }

  lemma StartIsBooked(sh: Shared, p: nat, t: Thread, op: Op, val: int)
    requires |sh.hist| > 0 && (t.pc == Idle || t.pc == StartRead || t.pc == StartStore)
    ensures Booked(sh, t, StartStep(sh, p, t, op, val).0, StartStep(sh, p, t, op, val).1)
  {}

  lemma ReadingIsBooked(sh: Shared, t: Thread)
    requires PhaseOf(t) == Reading
    ensures Booked(sh, t, sh, ContainsStep(sh, t))
  {
    assert SameBooks(sh, t, sh, ContainsStep(sh, t));
  }

  lemma TestIsBooked(sh: Shared, p: nat, t: Thread)
    requires t.pc == STest
    ensures Booked(sh, t, SearchStep(sh, p, t).0, SearchStep(sh, p, t).1)
  {
    AdvanceShape(t);
    DecideShape(t, t.t);
  }

  lemma SearchIsBooked(sh: Shared, p: nat, t: Thread)
    requires t.pc == SHead || PhaseOf(t) == Walking || PhaseOf(t) == Deciding || t.pc == SPersist || t.pc == SRetNext
    ensures Booked(sh, t, SearchStep(sh, p, t).0, SearchStep(sh, p, t).1)
  {
    var (sh', t') := SearchStep(sh, p, t);
    if t.pc == STest {
      TestIsBooked(sh, p, t);
    } else if t.pc == SCas {
      assert CasCounted(sh, t, sh', t');
    } else {
      assert SameBooks(sh, t, sh', t');
    }
  }

  lemma AddIsBooked(sh: Shared, p: nat, t: Thread, x: nat)
    requires PhaseOf(t) == Adding || t.pc == APersistLeft
    ensures Booked(sh, t, AddStep(sh, p, t, x).0, AddStep(sh, p, t, x).1)
  {
    var (sh', t') := AddStep(sh, p, t, x);
    if t.pc == ALink {
      assert CasCounted(sh, t, sh', t');
    } else {
      assert SameBooks(sh, t, sh', t');
    }
  }

  lemma RemoveIsBooked(sh: Shared, p: nat, t: Thread)
    requires PhaseOf(t) == Removing || t.pc == RPersistLeft
    ensures Booked(sh, t, RemoveStep(sh, p, t).0, RemoveStep(sh, p, t).1)
  {
    var (sh', t') := RemoveStep(sh, p, t);
    if t.pc == RMark || t.pc == RSnip {
      assert CasCounted(sh, t, sh', t');
    } else {
      assert SameBooks(sh, t, sh', t');
    }
  }

  lemma RetireIsBooked(c: Config, sh: Shared, p: nat, t: Thread)
    requires t.pc == EEpoch || t.pc == EBump || t.pc == EScan || t.pc == ELoad || t.pc == EFree
    ensures Booked(sh, t, RetireStep(c, sh, p, t).0, RetireStep(c, sh, p, t).1)
  {
    assert SameBooks(sh, t, RetireStep(c, sh, p, t).0, RetireStep(c, sh, p, t).1);
  }

  lemma EndIsBooked(sh: Shared, p: nat, t: Thread)
    requires PhaseOf(t) == Ending || PhaseOf(t) == Ended
    ensures Booked(sh, t, EndStep(sh, p, t).0, EndStep(sh, p, t).1)
  {}

  lemma MoveIsBooked(c: Config, sh: Shared, p: nat, t: Thread, op: Op, val: int, x: nat)
    requires |sh.hist| > 0
    ensures Booked(sh, t, Move(c, sh, p, t, op, val, x).0, Move(c, sh, p, t, op, val, x).1)
  {
    match RoutineOf(t.pc)
    case Start => StartIsBooked(sh, p, t, op, val);
    case Contain => ReadingIsBooked(sh, t);
    case Search => SearchIsBooked(sh, p, t);
    case Insert => AddIsBooked(sh, p, t, x);
    case Delete => RemoveIsBooked(sh, p, t);
    case Retire => RetireIsBooked(c, sh, p, t);
    case End => EndIsBooked(sh, p, t);
  }

  lemma LinkChanges(c: Config, s: State, p: nat, op: Op, val: int, x: nat)
    requires Inv(c, s) && p < c.threads && s.th[p].pc == ALink && Effective(s.sh, s.th[p])
    ensures var (sh', t') := Move(c, s.sh, p, s.th[p], op, val, x);
            && SetChanges(s, s.(sh := sh'), p) && s.th[p].lin.None?
            && sh'.hist == s.sh.hist + [Keys(sh')] && t'.lin == Some(|s.sh.hist| - 1) && t'.pc == APersistLeft
  {
    LinkIsDue(c, s, p);
    var sh, t := s.sh, s.th[p];
    LinkChangesKeys(c, sh, p, t.left, t.right, t.neu.value);
    LinkRecorded(c, sh, p, t.left, t.right, t.neu.value);
  }

  lemma LinkIsDue(c: Config, s: State, p: nat)
    requires Inv(c, s) && p < c.threads && s.th[p].pc == ALink && Effective(s.sh, s.th[p])
    ensures var t := s.th[p];
            && t.neu.Some? && CanLink(s.sh, p, t.left, t.right, t.neu.value) && Dat(s.sh, t.neu.value) == t.val
            && t.op.Add? && t.lin.None? && HeapOk(c, s.sh)
  {
    FactsOf(c, s, p);
    AddCanLink(c, s.sh, p, s.th[p]);
  }

  lemma MarkIsDue(c: Config, s: State, p: nat)
    requires Inv(c, s) && p < c.threads && s.th[p].pc == RMark && Effective(s.sh, s.th[p])
    ensures IsMember(s.sh, s.th[p].right) && Dat(s.sh, s.th[p].right) == s.th[p].val
    ensures s.th[p].op.Remove? && s.th[p].lin.None? && HeapOk(c, s.sh)
  {
    assert ThreadsOk(s.sh, map[p := s.th[p]]);
    MarkTarget(c, s.sh, p, s.th[p]);
    ThreadBook(s.sh, p, s.th[p]);
  }

  lemma MarkChanges(c: Config, s: State, p: nat, op: Op, val: int, x: nat)
    requires Inv(c, s) && p < c.threads && s.th[p].pc == RMark && Effective(s.sh, s.th[p])
    ensures var (sh', t') := Move(c, s.sh, p, s.th[p], op, val, x);
            && SetChanges(s, s.(sh := sh'), p) && s.th[p].lin.None?
            && sh'.hist == s.sh.hist + [Keys(sh')] && t'.lin == Some(|s.sh.hist| - 1) && t'.pc == RPersistMark
  {
    MarkIsDue(c, s, p);
    var sh, x := s.sh, s.th[p].right;
    MarkChangesKeys(c, sh, x);
    KeysSame(SetNxt(sh, x, Link(Nxt(sh, x).idx, true)), MarkNode(sh, x));
  }

  /** What one step does to the key set, and to what thread p knows about its own effect. */
  ghost predicate StepTells(c: Config, s: State, s': State, p: nat) {
    && |s.th| == c.threads && |s'.th| == c.threads && p < c.threads
    && |s.sh.hist| > 0 && s.sh.hist[|s.sh.hist| - 1] == Keys(s.sh)
    && |s'.sh.hist| > 0 && s'.sh.hist[|s'.sh.hist| - 1] == Keys(s'.sh)
    && (s'.sh.hist == s.sh.hist || s'.sh.hist == s.sh.hist + [Keys(s'.sh)])
    && (TakesEffect(s, s', p) ==> s.th[p].lin.None? && s'.th[p].lin.Some? && SetChanges(s, s', p))
    && (!TakesEffect(s, s', p) && s.th[p].pc != Idle ==> s'.th[p].lin == s.th[p].lin)
  }

  ghost predicate HistoryOk(sh: Shared) {
    |sh.hist| > 0 && sh.hist[|sh.hist| - 1] == Keys(sh)
  }

  /** What the acting thread's step does to the history. */
  ghost predicate MoveTells(s: State, p: nat, s': State) {
    && p < |s.th| && |s'.th| == |s.th| && (forall q :: 0 <= q < |s.th| && q != p ==> s'.th[q] == s.th[q])
    && if Effective(s.sh, s.th[p]) then
         && SetChanges(s, s', p) && s.th[p].lin.None? && s'.th[p].lin.Some?
         && s'.sh.hist == s.sh.hist + [Keys(s'.sh)] && s'.th[p].pc != s.th[p].pc
       else
         && s'.sh.hist == s.sh.hist && (s.th[p].pc == Idle || s'.th[p].lin == s.th[p].lin)
  }

  lemma EveryMoveTells(c: Config, s: State, p: nat, op: Op, val: int, x: nat, s': State)
    requires Inv(c, s) && SteadyStepBy(c, s, p, op, val, x, s')
    ensures MoveTells(s, p, s')
  {
    if !Effective(s.sh, s.th[p]) {
      PlainMoveTells(c, s, p, op, val, x, s');
    } else {
      EffectTells(c, s, p, op, val, x, s');
    }
  }

  lemma PlainMoveTells(c: Config, s: State, p: nat, op: Op, val: int, x: nat, s': State)
    requires |s.sh.hist| > 0 && SteadyStepBy(c, s, p, op, val, x, s') && !Effective(s.sh, s.th[p])
    ensures MoveTells(s, p, s')
  {
    MoveIsBooked(c, s.sh, p, s.th[p], op, val, x);
  }

  lemma EffectTells(c: Config, s: State, p: nat, op: Op, val: int, x: nat, s': State)
    requires Inv(c, s) && SteadyStepBy(c, s, p, op, val, x, s') && Effective(s.sh, s.th[p])
    ensures MoveTells(s, p, s')
  {
    if s.th[p].pc == ALink {
      LinkTells(c, s, p, op, val, x, s');
    } else {
      MarkTells(c, s, p, op, val, x, s');
    }
  }

  lemma LinkTells(c: Config, s: State, p: nat, op: Op, val: int, x: nat, s': State)
    requires Inv(c, s) && SteadyStepBy(c, s, p, op, val, x, s') && Effective(s.sh, s.th[p]) && s.th[p].pc == ALink
    ensures MoveTells(s, p, s')
  {
    LinkChanges(c, s, p, op, val, x);
  }

  lemma MarkTells(c: Config, s: State, p: nat, op: Op, val: int, x: nat, s': State)
    requires Inv(c, s) && SteadyStepBy(c, s, p, op, val, x, s') && Effective(s.sh, s.th[p]) && s.th[p].pc == RMark
    ensures MoveTells(s, p, s')
  {
    MarkChanges(c, s, p, op, val, x);
  }

  /** No thread has moved, or one has and this is what it did. */
  ghost predicate SomeMoveTells(s: State, s': State) {
    || (s'.th == s.th && s'.sh.hist == s.sh.hist)
    || exists q: nat :: MoveTells(s, q, s')
  }

  lemma StepIsSomeMove(c: Config, s: State, s': State)
    requires SoundStep(c, {s}, s')
    ensures SomeMoveTells(s, s') && |s.th| == c.threads
  {
    assert SoundAt(c, s, s');
    if x :| WriteBack(s, x, s') {
    } else {
      var q, op, val, x :| SteadyStepBy(c, s, q, op, val, x, s');
      EveryMoveTells(c, s, q, op, val, x, s');
    }
  }

  lemma StepKeepsHistoryOk(c: Config, s: State, s': State)
    requires SoundStep(c, {s}, s')
    ensures HistoryOk(s.sh) && HistoryOk(s'.sh)
  {
    assert SoundAt(c, s, s');
    InvIsInductive(c, s, s');
  }

  lemma MoveTellsAll(c: Config, s: State, s': State, p: nat)
    requires SomeMoveTells(s, s') && HistoryOk(s.sh) && HistoryOk(s'.sh) && |s.th| == c.threads && p < c.threads
    ensures StepTells(c, s, s', p)
    ensures s'.sh.hist == s.sh.hist || exists q: nat :: q < c.threads && TakesEffect(s, s', q)
  {
    if !(s'.th == s.th && s'.sh.hist == s.sh.hist) {
      var q: nat :| MoveTells(s, q, s');
      assert Effective(s.sh, s.th[q]) ==> TakesEffect(s, s', q);
    }
  }

  lemma AnyStepTells(c: Config, s: State, s': State, p: nat)
    requires SoundStep(c, {s}, s') && p < c.threads
    ensures StepTells(c, s, s', p)
    ensures s'.sh.hist == s.sh.hist || exists q: nat :: q < c.threads && TakesEffect(s, s', q)
  {
    StepIsSomeMove(c, s, s');
    StepKeepsHistoryOk(c, s, s');
    MoveTellsAll(c, s, s', p);
  }

  /** A thread's operation takes effect in the step to state k. */
  ghost predicate ActsAt(run: seq<State>, k: nat, p: nat) {
    0 < k < |run| && TakesEffect(run[k - 1], run[k], p)
  }

  /** Set refinement. The key set changes only in a CAS of add that links a node, which inserts exactly
      its key while that is absent, and in a CAS of remove that marks a node, which deletes exactly its key
      while that is present; and each such CAS does. */
  lemma KeySetChanges(c: Config, run: seq<State>, n: nat)
    requires SteadyRun(c, run) && 0 < n < |run|
    ensures Keys(run[n].sh) != Keys(run[n - 1].sh) ==> exists p: nat :: p < c.threads && ActsAt(run, n, p)
    ensures forall p: nat :: p < c.threads && ActsAt(run, n, p) ==> SetChanges(run[n - 1], run[n], p)
  {
    StepOfRun(c, run, n);
    ThreadsExist(c, run);
    AnyStepTells(c, run[n - 1], run[n], 0);
    if Keys(run[n].sh) != Keys(run[n - 1].sh) {
      var p: nat :| p < c.threads && TakesEffect(run[n - 1], run[n], p);
      assert ActsAt(run, n, p);
    }
    forall p: nat | p < c.threads && ActsAt(run, n, p) ensures SetChanges(run[n - 1], run[n], p) {
      AnyStepTells(c, run[n - 1], run[n], p);
    }
  }

  lemma ThreadsExist(c: Config, run: seq<State>)
    requires SteadyRun(c, run)
    ensures c.threads > 0
  {}

  // One call.

  predicate Busy(s: State, p: nat) {
    p < |s.th| && s.th[p].pc != Idle
  }

  /** Thread p is idle in state m, is called in the step after it, and has not gone idle again by state n. */
  ghost predicate CallFrom(c: Config, run: seq<State>, m: nat, n: nat, p: nat) {
    && p < c.threads && m < n < |run|
    && p < |run[m].th| && run[m].th[p].pc == Idle
    && (forall k {:trigger Busy(run[k], p)} :: m < k <= n ==> Busy(run[k], p))
  }

  ghost predicate NeverActs(run: seq<State>, m: nat, n: nat, p: nat) {
    forall k: nat {:trigger ActsAt(run, k, p)} :: m < k <= n ==> !ActsAt(run, k, p)
  }

  ghost predicate ActsOnceAt(run: seq<State>, m: nat, n: nat, p: nat, k: nat) {
    m < k <= n && ActsAt(run, k, p) && NeverActs(run, m, k - 1, p) && NeverActs(run, k, n, p)
  }

  /** At most one thread has moved, and its history variables were kept. */
  ghost predicate BooksKept(s: State, s': State) {
    && |s'.th| == |s.th|
    && exists q: nat :: q <= |s.th| && MovedOnly(s, s', q)
  }

  ghost predicate MovedOnly(s: State, s': State, q: nat)
    requires |s'.th| == |s.th|
  {
    && (forall p :: 0 <= p < |s.th| && p != q ==> s'.th[p] == s.th[p])
    && if q < |s.th| then Booked(s.sh, s.th[q], s'.sh, s'.th[q]) else s'.sh.wins == s.sh.wins
  }

  lemma MoveKeepsBooks(c: Config, s: State, q: nat, op: Op, val: int, x: nat, s': State)
    requires |s.sh.hist| > 0 && SteadyStepBy(c, s, q, op, val, x, s')
    ensures BooksKept(s, s')
  {
    MoveIsBooked(c, s.sh, q, s.th[q], op, val, x);
    assert MovedOnly(s, s', q);
  }

  lemma StepKeepsBooks(c: Config, s: State, s': State)
    requires SoundStep(c, {s}, s')
    ensures BooksKept(s, s') && |s.th| == c.threads
  {
    assert SoundAt(c, s, s');
    if x :| WriteBack(s, x, s') {
      assert MovedOnly(s, s', |s.th|);
    } else {
      var q, op, val, x :| SteadyStepBy(c, s, q, op, val, x, s');
      MoveKeepsBooks(c, s, q, op, val, x, s');
    }
  }

  lemma StepKeepsCall(s: State, s': State, p: nat)
    requires BooksKept(s, s') && Busy(s', p)
    ensures if s.th[p].pc == Idle then CallStarts(s.sh, s.th[p], s'.th[p]) else CallStays(s.th[p], s'.th[p])
  {}

  /** What one step means for a call that is under way afterwards. */
  ghost predicate CallGoesOn(s: State, s': State, p: nat) {
    && p < |s.th| && p < |s'.th|
    && if s.th[p].pc == Idle then
         s'.th[p].start + 1 == |s.sh.hist| && s'.th[p].lin.None? && !TakesEffect(s, s', p)
       else
         s'.th[p].start == s.th[p].start && (TakesEffect(s, s', p) ==> s.th[p].lin.None? && s'.th[p].lin.Some?)
         && (!TakesEffect(s, s', p) ==> s'.th[p].lin == s.th[p].lin)
  }

  lemma StepInCall(c: Config, run: seq<State>, n: nat, p: nat)
    requires SteadyRun(c, run) && 0 < n < |run| && p < c.threads && Busy(run[n], p)
    ensures CallGoesOn(run[n - 1], run[n], p)
  {
    StepOfRun(c, run, n);
    StepKeepsBooks(c, run[n - 1], run[n]);
    StepKeepsCall(run[n - 1], run[n], p);
    AnyStepTells(c, run[n - 1], run[n], p);
  }

  ghost predicate ActsOnce(run: seq<State>, m: nat, n: nat, p: nat) {
    exists k: nat :: ActsOnceAt(run, m, n, p, k)
  }

  lemma ActsNow(run: seq<State>, m: nat, n: nat, p: nat)
    requires m < n && NeverActs(run, m, n - 1, p) && ActsAt(run, n, p)
    ensures ActsOnceAt(run, m, n, p, n)
  {}

  lemma StillNever(run: seq<State>, m: nat, n: nat, p: nat)
    requires m < n && NeverActs(run, m, n - 1, p) && !ActsAt(run, n, p)
    ensures NeverActs(run, m, n, p)
  {}

  lemma StillOnce(run: seq<State>, m: nat, n: nat, p: nat, k: nat)
    requires m < n && ActsOnceAt(run, m, n - 1, p, k) && !ActsAt(run, n, p)
    ensures ActsOnceAt(run, m, n, p, k)
  {}

  /** During a call the thread takes effect at most once, and its history variables say whether it has. */
  lemma {:induction false} CallSoFar(c: Config, run: seq<State>, m: nat, n: nat, p: nat)
    requires SteadyRun(c, run) && CallFrom(c, run, m, n, p)
    ensures Busy(run[n], p) && run[n].th[p].start + 1 == |run[m].sh.hist|
    ensures run[n].th[p].lin.None? ==> NeverActs(run, m, n, p)
    ensures run[n].th[p].lin.Some? ==> ActsOnce(run, m, n, p)
    decreases n
  {
    EarlierInCall(c, run, m, n, p);
    StepInCall(c, run, n, p);
    if n - 1 > m {
      CallSoFar(c, run, m, n - 1, p);
      ActsSoFar(run, m, n, p);
    }
  }

  lemma EarlierInCall(c: Config, run: seq<State>, m: nat, n: nat, p: nat)
    requires CallFrom(c, run, m, n, p)
    ensures Busy(run[n], p) && (n - 1 > m ==> Busy(run[n - 1], p) && CallFrom(c, run, m, n - 1, p))
  {
    assert Busy(run[n], p);
    assert n - 1 > m ==> Busy(run[n - 1], p);
  }

  /** One state further. */
  lemma ActsSoFar(run: seq<State>, m: nat, n: nat, p: nat)
    requires m < n < |run| && Busy(run[n - 1], p) && Busy(run[n], p) && CallGoesOn(run[n - 1], run[n], p)
    requires run[n - 1].th[p].lin.None? ==> NeverActs(run, m, n - 1, p)
    requires run[n - 1].th[p].lin.Some? ==> ActsOnce(run, m, n - 1, p)
    ensures run[n].th[p].lin.None? ==> NeverActs(run, m, n, p)
    ensures run[n].th[p].lin.Some? ==> ActsOnce(run, m, n, p)
  {
    if ActsAt(run, n, p) {
      ActsNow(run, m, n, p);
    } else if run[n].th[p].lin.Some? {
      var k: nat :| ActsOnceAt(run, m, n - 1, p, k);
      StillOnce(run, m, n, p, k);
    } else {
      StillNever(run, m, n, p);
    }
  }

  lemma {:induction false} CallKeepsArguments(c: Config, run: seq<State>, m: nat, k: nat, n: nat, p: nat)
    requires SteadyRun(c, run) && CallFrom(c, run, m, n, p) && m < k <= n
    ensures Busy(run[k], p) && Busy(run[n], p) && CallStays(run[k].th[p], run[n].th[p])
    decreases n
  {
    assert Busy(run[n], p) && Busy(run[k], p);
    if k < n {
      assert Busy(run[n - 1], p);
      CallKeepsArguments(c, run, m, k, n - 1, p);
      StepOfRun(c, run, n);
      StepKeepsBooks(c, run[n - 1], run[n]);
      StepKeepsCall(run[n - 1], run[n], p);
    }
  }

  // Positions in the history are states of the run.

  lemma HistoryOfState(c: Config, s: State)
    requires StatesInv(c, {s})
    ensures HistoryOk(s.sh)
  {
    assert Inv(c, s);
  }

  lemma HistoryAt(c: Config, run: seq<State>, n: nat)
    requires SteadyRun(c, run) && n < |run|
    ensures HistoryOk(run[n].sh)
  {
    StateOfRun(c, run, n);
    HistoryOfState(c, run[n]);
  }

  /** A step lengthens the history by at most one. */
  ghost predicate HistoryStep(sh: Shared, sh': Shared) {
    |sh.hist| <= |sh'.hist| <= |sh.hist| + 1 && sh.hist <= sh'.hist
  }

  lemma HistoryGrows(c: Config, run: seq<State>, n: nat)
    requires SteadyRun(c, run) && 0 < n < |run|
    ensures HistoryStep(run[n - 1].sh, run[n].sh)
  {
    ThreadsExist(c, run);
    StepOfRun(c, run, n);
    AnyStepTells(c, run[n - 1], run[n], 0);
  }

  lemma {:induction false} StateAtPosition(c: Config, run: seq<State>, m: nat, n: nat, i: nat) returns (k: nat)
    requires SteadyRun(c, run) && m <= n < |run|
    requires |run[m].sh.hist| <= i + 1 <= |run[n].sh.hist|
    ensures m <= k <= n && Keys(run[k].sh) == run[n].sh.hist[i]
    decreases n
  {
    if i + 1 < |run[n].sh.hist| {
      HistoryGrows(c, run, n);
      k := StateAtPosition(c, run, m, n - 1, i);
    } else {
      HistoryAt(c, run, n);
      k := n;
    }
  }

  // Linearizability.

  /** What the invariant says about a call: how often it has retried, and its result. */
  ghost predicate CallSaid(c: Config, s: State, p: nat) {
    && p < |s.th| && TriesOk(s.sh, s.th[p])
    && (s.th[p].pc == Return ==> ResultOk(s.sh, s.th[p]))
  }

  lemma AtState(c: Config, s: State, p: nat)
    requires StatesInv(c, {s}) && p < c.threads
    ensures CallSaid(c, s, p)
  {
    ThreadOfState(c, s, p);
    TriesOfThread(s.sh, p, s.th[p]);
    if s.th[p].pc == Return {
      ResultOfThread(s.sh, p, s.th[p]);
    }
  }

  lemma ThreadOfState(c: Config, s: State, p: nat)
    requires StatesInv(c, {s}) && p < c.threads
    ensures p < |s.th| && ThreadsOk(s.sh, map[p := s.th[p]])
  {
    assert Inv(c, s);
  }

  lemma TriesOfThread(sh: Shared, p: nat, t: Thread)
    requires ThreadsOk(sh, map[p := t])
    ensures TriesOk(sh, t)
  {
    ThreadBook(sh, p, t);
  }

  lemma ResultOfThread(sh: Shared, p: nat, t: Thread)
    requires ThreadsOk(sh, map[p := t]) && t.pc == Return
    ensures ResultOk(sh, t)
  {
    ThreadPoint(sh, p, t);
  }

  lemma AtStateOfRun(c: Config, run: seq<State>, n: nat, p: nat)
    requires SteadyRun(c, run) && n < |run| && p < c.threads
    ensures CallSaid(c, run[n], p)
  {
    StateOfRun(c, run, n);
    AtState(c, run[n], p);
  }

  /** Operation and key are those of the call made, in the step from state m, to the end of the call. */
  lemma CallHasItsArguments(c: Config, run: seq<State>, m: nat, n: nat, p: nat, op: Op, val: int, x: nat)
    requires SteadyRun(c, run) && CallFrom(c, run, m, n, p) && StepBy(c, run[m], p, op, val, x, run[m + 1])
    ensures Busy(run[n], p) && run[n].th[p].op == op && run[n].th[p].val == val
  {
    CallKeepsArguments(c, run, m, m + 1, n, p);
  }

  ghost predicate IsCall(c: Config, s: State, s': State, p: nat) {
    exists op, val, x :: StepBy(c, s, p, op, val, x, s')
  }

  /** An idle thread goes to work in no other way. */
  lemma WorkBeginsWithCall(c: Config, run: seq<State>, m: nat, n: nat, p: nat)
    requires SteadyRun(c, run) && CallFrom(c, run, m, n, p)
    ensures IsCall(c, run[m], run[m + 1], p)
  {
    StepOfRun(c, run, m + 1);
    assert Busy(run[m + 1], p);
    CallIsStep(c, run[m], run[m + 1], p);
  }

  lemma CallIsStep(c: Config, s: State, s': State, p: nat)
    requires SoundStep(c, {s}, s') && p < |s.th| && s.th[p].pc == Idle && Busy(s', p)
    ensures IsCall(c, s, s', p)
  {
    assert SoundAt(c, s, s');
    if x :| WriteBack(s, x, s') {
      assert false;
    } else {
      var q, op, val, x :| SteadyStepBy(c, s, q, op, val, x, s');
      assert q == p;
    }
  }

  /** An operation that took effect was carried out on its own key. */
  lemma ActedAsCalled(c: Config, run: seq<State>, m: nat, n: nat, p: nat, k: nat)
    requires SteadyRun(c, run) && CallFrom(c, run, m, n, p) && ActsOnceAt(run, m, n, p, k)
    ensures Busy(run[n], p) && !run[n].th[p].op.Contains?
    ensures var (before, after, val) := (Keys(run[k - 1].sh), Keys(run[k].sh), run[n].th[p].val);
            if run[n].th[p].op.Add? then val !in before && after == before + {val}
            else val in before && after == before - {val}
  {
    StepOfRun(c, run, k);
    AnyStepTells(c, run[k - 1], run[k], p);
    assert k - 1 > m;
    assert Busy(run[k - 1], p);
    CallKeepsArguments(c, run, m, k - 1, n, p);
  }

  /** A call of add or remove with key val that returns 1 changed the key set in exactly one step between
      call and return: add inserted val, which was absent, and remove deleted val, which was present. */
  lemma UpdateLinearizes(c: Config, run: seq<State>, m: nat, n: nat, p: nat, op: Op, val: int, x: nat)
    requires SteadyRun(c, run) && CallFrom(c, run, m, n, p) && StepBy(c, run[m], p, op, val, x, run[m + 1])
    requires Busy(run[n], p) && run[n].th[p].pc == Return && run[n].th[p].result && !op.Contains?
    ensures exists k: nat :: m < k <= n && ActsOnceAt(run, m, n, p, k)
              && if op.Add? then val !in Keys(run[k - 1].sh) && Keys(run[k].sh) == Keys(run[k - 1].sh) + {val}
                 else val in Keys(run[k - 1].sh) && Keys(run[k].sh) == Keys(run[k - 1].sh) - {val}
  {
    CallHasItsArguments(c, run, m, n, p, op, val, x);
    AtStateOfRun(c, run, n, p);
    CallSoFar(c, run, m, n, p);
    var k: nat :| ActsOnceAt(run, m, n, p, k);
    ActedAsCalled(c, run, m, n, p, k);
  }

  /** Any other call with key val changed nothing, and in some state between call and return val was present
      (a contains that returns 1, an add that returns 0) or absent (a contains or remove that returns 0). */
  lemma ReadLinearizes(c: Config, run: seq<State>, m: nat, n: nat, p: nat, op: Op, val: int, x: nat)
    requires SteadyRun(c, run) && CallFrom(c, run, m, n, p) && StepBy(c, run[m], p, op, val, x, run[m + 1])
    requires Busy(run[n], p) && run[n].th[p].pc == Return && (!run[n].th[p].result || op.Contains?)
    ensures NeverActs(run, m, n, p)
    ensures var present := if op.Contains? then run[n].th[p].result else op.Add?;
            exists k :: m < k <= n && (val in Keys(run[k].sh) <==> present)
  {
    CallHasItsArguments(c, run, m, n, p, op, val, x);
    AtStateOfRun(c, run, n, p);
    CallSoFar(c, run, m, n, p);
    var sh, t := run[n].sh, run[n].th[p];
    if t.lin.Some? {
      var k: nat :| ActsOnceAt(run, m, n, p, k);
      ActedAsCalled(c, run, m, n, p, k);
    }
    var present := if op.Contains? then t.result else op.Add?;
    var i :| t.start <= i < |sh.hist| && (val in sh.hist[i] <==> present);
    var k := StateAtPosition(c, run, m, n, i);
    if k == m {
      assert run[m + 1].sh == run[m].sh;
      k := m + 1;
    }
    assert m < k <= n && (val in Keys(run[k].sh) <==> present);
  }

  // Lock freedom.

  /** Another thread's CAS succeeded in the step to state k. */
  predicate OtherCas(s: State, s': State, p: nat) {
    && p < |s.th| && p < |s'.th|
    && s'.sh.wins > s.sh.wins && s'.th[p].mine == s.th[p].mine
  }

  ghost function OtherCasCount(run: seq<State>, m: nat, n: nat, p: nat): nat
    requires n < |run|
    decreases n
  {
    if n <= m then 0 else OtherCasCount(run, m, n - 1, p) + if OtherCas(run[n - 1], run[n], p) then 1 else 0
  }

  lemma StepCountsCas(s: State, s': State, p: nat)
    requires BooksKept(s, s') && p < |s.th|
    ensures Others(s'.sh, s'.th[p]) == Others(s.sh, s.th[p]) + if OtherCas(s, s', p) then 1 else 0
  {}

  lemma {:induction false} CallCountsCas(c: Config, run: seq<State>, m: nat, n: nat, p: nat)
    requires SteadyRun(c, run) && CallFrom(c, run, m, n, p)
    ensures Busy(run[n], p) && Others(run[n].sh, run[n].th[p]) == run[n].th[p].base + OtherCasCount(run, m, n, p)
    decreases n
  {
    assert Busy(run[n], p);
    StepOfRun(c, run, n);
    StepKeepsBooks(c, run[n - 1], run[n]);
    StepKeepsCall(run[n - 1], run[n], p);
    StepCountsCas(run[n - 1], run[n], p);
    if n - 1 > m {
      assert Busy(run[n - 1], p);
      CallCountsCas(c, run, m, n - 1, p);
    } else {
      AtStateOfRun(c, run, m, p);
      assert OtherCasCount(run, m, m, p) == 0;
    }
  }

  /** A call goes back to the head of the list at most once for every CAS by which another thread
      succeeded since it was called. */
  lemma RetriesArePaidFor(c: Config, run: seq<State>, m: nat, n: nat, p: nat)
    requires SteadyRun(c, run) && CallFrom(c, run, m, n, p)
    ensures Busy(run[n], p) && run[n].th[p].tries <= OtherCasCount(run, m, n, p)
  {
    CallCountsCas(c, run, m, n, p);
    AtStateOfRun(c, run, n, p);
  }
}
