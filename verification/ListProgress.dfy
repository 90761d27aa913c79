/** Lock freedom of the list, retry by retry: a thread goes back to the head of the list only if another
    thread's CAS has succeeded since it last read the head. */
module ListProgress {
  import opened ListMachine
  import opened ListInv
  import opened ListSafety
  import opened ListLinear

  /** Thread p reads the head of the list in this step, and so begins an attempt. */
  predicate ReadsHead(s: State, s': State, p: nat) {
    p < |s.th| && p < |s'.th| && s.th[p].pc == SHead && s'.th[p].pc == STest
  }

  /** What a step does to the thread's account of the attempt it is in. */
  predicate AttemptMoves(sh: Shared, t: Thread, sh': Shared, t': Thread) {
    && (t.pc != SHead ==> t'.seen == t.seen && (Attempting(t') ==> Attempting(t)))
    && (t.pc == SHead ==> t'.pc == STest && t'.tries == t.tries && (t.mine <= sh.wins ==> t'.seen == Others(sh', t')))
  }

  /** A retry is due to a CAS of another thread. */
  predicate RetryIsDue(sh: Shared, t: Thread, t': Thread) {
    t'.tries > t.tries ==> Attempting(t) && !Quiet(sh, t)
  }

  lemma TestMoves(t: Thread, right: nat)
    requires t.pc == STest
    ensures (Advance(t).seen, Advance(t).tries) == (t.seen, t.tries)
    ensures (Decide(t, right).seen, Decide(t, right).tries) == (t.seen, t.tries)
  {}

  lemma CasMoves(sh: Shared, p: nat, t: Thread)
    requires t.pc == SCas && PointsOk(sh, {t})
    ensures var (sh', t') := SearchStep(sh, p, t); AttemptMoves(sh, t, sh', t') && RetryIsDue(sh, t, t')
  {
    assert PcOk(sh, t);
  }

  lemma CheckMoves(sh: Shared, p: nat, t: Thread)
    requires (t.pc == SCheck || t.pc == SRecheck) && PointsOk(sh, {t})
    ensures var (sh', t') := SearchStep(sh, p, t); AttemptMoves(sh, t, sh', t') && RetryIsDue(sh, t, t')
  {
    assert PcOk(sh, t);
  }

  lemma WalkMoves(sh: Shared, p: nat, t: Thread)
    requires t.pc == SHead || t.pc == SNext || t.pc == SPersist || t.pc == SRetNext
    ensures var (sh', t') := SearchStep(sh, p, t); AttemptMoves(sh, t, sh', t') && RetryIsDue(sh, t, t')
  {}

  lemma FoundMoves(sh: Shared, p: nat, t: Thread)
    requires t.pc == Found
    ensures var (sh', t') := SearchStep(sh, p, t); AttemptMoves(sh, t, sh', t') && RetryIsDue(sh, t, t')
  {}

  lemma SearchMoves(sh: Shared, p: nat, t: Thread)
    requires t.pc == SHead || PhaseOf(t) == Walking || PhaseOf(t) == Deciding || t.pc == SPersist || t.pc == SRetNext
    requires PointsOk(sh, {t})
    ensures var (sh', t') := SearchStep(sh, p, t); AttemptMoves(sh, t, sh', t') && RetryIsDue(sh, t, t')
  {
    if t.pc.STest? {
      TestMoves(t, t.t);
    } else if t.pc.SCas? {
      CasMoves(sh, p, t);
    } else if t.pc.SCheck? || t.pc.SRecheck? {
      CheckMoves(sh, p, t);
    } else if t.pc.Found? {
      FoundMoves(sh, p, t);
    } else {
      WalkMoves(sh, p, t);
    }
  }

  lemma AddMoves(sh: Shared, p: nat, t: Thread, x: nat)
    requires (PhaseOf(t) == Adding || t.pc == APersistLeft) && PointsOk(sh, {t})
    ensures var (sh', t') := AddStep(sh, p, t, x); AttemptMoves(sh, t, sh', t') && RetryIsDue(sh, t, t')
  {
    assert PcOk(sh, t);
  }

  lemma RemoveMoves(sh: Shared, p: nat, t: Thread)
    requires (PhaseOf(t) == Removing || t.pc == RPersistLeft) && PointsOk(sh, {t})
    ensures var (sh', t') := RemoveStep(sh, p, t); AttemptMoves(sh, t, sh', t') && RetryIsDue(sh, t, t')
  {
    assert PcOk(sh, t);
  }

  lemma RetireMoves(c: Config, sh: Shared, p: nat, t: Thread)
    requires t.pc == EEpoch || t.pc == EBump || t.pc == EScan || t.pc == ELoad || t.pc == EFree
    ensures var (sh', t') := RetireStep(c, sh, p, t); AttemptMoves(sh, t, sh', t') && RetryIsDue(sh, t, t')
  {}

  lemma StartMoves(sh: Shared, p: nat, t: Thread, op: Op, val: int)
    requires PhaseOf(t) == Outside || PhaseOf(t) == Starting
    ensures var (sh', t') := StartStep(sh, p, t, op, val); AttemptMoves(sh, t, sh', t') && RetryIsDue(sh, t, t')
  {}

  lemma ReadingMoves(sh: Shared, t: Thread)
    requires PhaseOf(t) == Reading
    ensures AttemptMoves(sh, t, sh, ContainsStep(sh, t)) && RetryIsDue(sh, t, ContainsStep(sh, t))
  {}

  lemma EndMoves(sh: Shared, p: nat, t: Thread)
    requires PhaseOf(t) == Ending || PhaseOf(t) == Ended
    ensures var (sh', t') := EndStep(sh, p, t); AttemptMoves(sh, t, sh', t') && RetryIsDue(sh, t, t')
  {}

  lemma EveryMoveAttempts(c: Config, sh: Shared, p: nat, t: Thread, op: Op, val: int, x: nat)
    requires PointsOk(sh, {t})
    ensures var (sh', t') := Move(c, sh, p, t, op, val, x); AttemptMoves(sh, t, sh', t') && RetryIsDue(sh, t, t')
  {
    match RoutineOf(t.pc)
    case Search => SearchMoves(sh, p, t);
    case Insert => AddMoves(sh, p, t, x);
    case Delete => RemoveMoves(sh, p, t);
    case Retire => RetireMoves(c, sh, p, t);
    case Start => StartMoves(sh, p, t, op, val);
    case Contain => ReadingMoves(sh, t);
    case End => EndMoves(sh, p, t);
  }

  /** What a step of the machine says about the attempt of thread p. */
  ghost predicate AttemptStep(s: State, s': State, p: nat) {
    && p < |s.th| && p < |s'.th|
    && if ReadsHead(s, s', p) then s'.th[p].seen == Others(s'.sh, s'.th[p])
       else s'.th[p].seen == s.th[p].seen && (Attempting(s'.th[p]) ==> Attempting(s.th[p]))
  }

  ghost predicate RetryStep(s: State, s': State, p: nat) {
    && p < |s.th| && p < |s'.th|
    && (s'.th[p].tries > s.th[p].tries ==>
          Attempting(s.th[p]) && s.th[p].seen < Others(s.sh, s.th[p]) && !ReadsHead(s, s', p) && !OtherCas(s, s', p))
  }

  lemma OwnMoveAttempts(c: Config, s: State, p: nat, op: Op, val: int, x: nat, s': State)
    requires Inv(c, s) && StepBy(c, s, p, op, val, x, s')
    ensures AttemptStep(s, s', p) && RetryStep(s, s', p)
  {
    FactsOf(c, s, p);
    EveryMoveAttempts(c, s.sh, p, s.th[p], op, val, x);
    MoveIsBooked(c, s.sh, p, s.th[p], op, val, x);
  }

  lemma StepAttempts(c: Config, s: State, s': State, p: nat)
    requires SoundStep(c, {s}, s') && p < c.threads
    ensures AttemptStep(s, s', p) && RetryStep(s, s', p)
  {
    assert SoundAt(c, s, s');
    if x :| WriteBack(s, x, s') {
    } else {
      var q, op, val, x :| SteadyStepBy(c, s, q, op, val, x, s');
      if q == p {
        OwnMoveAttempts(c, s, p, op, val, x, s');
      }
    }
  }

  ghost predicate ReadsHeadAt(run: seq<State>, h: nat, p: nat) {
    0 < h < |run| && ReadsHead(run[h - 1], run[h], p)
  }

  /** The attempt that thread p is in at state n began in the step to state h. */
  ghost predicate BeganAt(run: seq<State>, h: nat, n: nat, p: nat) {
    h <= n && ReadsHeadAt(run, h, p) && forall k: nat :: h < k <= n ==> !ReadsHeadAt(run, k, p)
  }

  lemma AttemptsAt(c: Config, run: seq<State>, n: nat, p: nat)
    requires SteadyRun(c, run) && 0 < n < |run| && p < c.threads
    ensures AttemptStep(run[n - 1], run[n], p) && RetryStep(run[n - 1], run[n], p)
  {
    StepOfRun(c, run, n);
    StepAttempts(c, run[n - 1], run[n], p);
  }

  /** The attempt of thread p at state n, begun in the step to state h: what the thread has noted is the
      number of CAS operations by which others had succeeded then. */
  ghost predicate Noted(run: seq<State>, h: nat, n: nat, p: nat) {
    && h <= n < |run| && p < |run[h].th| && p < |run[n].th|
    && BeganAt(run, h, n, p) && run[n].th[p].seen == Others(run[h].sh, run[h].th[p])
  }

  lemma StillBegan(run: seq<State>, h: nat, n: nat, p: nat)
    requires 0 < n < |run| && BeganAt(run, h, n - 1, p) && !ReadsHead(run[n - 1], run[n], p)
    ensures BeganAt(run, h, n, p)
  {
    assert !ReadsHeadAt(run, n, p);
  }

  lemma StillNoted(run: seq<State>, h: nat, n: nat, p: nat)
    requires 0 < n < |run| && Noted(run, h, n - 1, p)
    requires AttemptStep(run[n - 1], run[n], p) && !ReadsHead(run[n - 1], run[n], p)
    ensures Noted(run, h, n, p)
  {
    StillBegan(run, h, n, p);
  }

  /** Every attempt within a call began with reading the head during the call. */
  lemma {:induction false} AttemptBegan(c: Config, run: seq<State>, m: nat, n: nat, p: nat) returns (h: nat)
    requires SteadyRun(c, run) && CallFrom(c, run, m, n, p) && Busy(run[n], p) && Attempting(run[n].th[p])
    ensures m < h && Noted(run, h, n, p)
    decreases n
  {
    AttemptsAt(c, run, n, p);
    if ReadsHead(run[n - 1], run[n], p) {
      h := n;
    } else {
      assert Busy(run[n - 1], p);
      h := AttemptBegan(c, run, m, n - 1, p);
      StillNoted(run, h, n, p);
    }
  }

  ghost predicate OtherCasAt(run: seq<State>, k: nat, p: nat) {
    0 < k < |run| && OtherCas(run[k - 1], run[k], p)
  }

  lemma CasCountedAt(c: Config, run: seq<State>, n: nat, p: nat)
    requires SteadyRun(c, run) && 0 < n < |run| && p < c.threads
    ensures p < |run[n - 1].th| && p < |run[n].th|
    ensures Others(run[n].sh, run[n].th[p])
            == Others(run[n - 1].sh, run[n - 1].th[p]) + if OtherCas(run[n - 1], run[n], p) then 1 else 0
  {
    StepOfRun(c, run, n);
    StepKeepsBooks(c, run[n - 1], run[n]);
    StepCountsCas(run[n - 1], run[n], p);
  }

  /** If more CAS operations of others have succeeded by state n than by state h, one did in between. */
  lemma {:induction false} CasBetween(c: Config, run: seq<State>, h: nat, n: nat, p: nat) returns (k: nat)
    requires SteadyRun(c, run) && h <= n < |run| && p < c.threads
    requires p < |run[h].th| && p < |run[n].th|
    requires Others(run[h].sh, run[h].th[p]) < Others(run[n].sh, run[n].th[p])
    ensures h < k <= n && OtherCasAt(run, k, p)
    decreases n
  {
    CasCountedAt(c, run, n, p);
    if OtherCas(run[n - 1], run[n], p) {
      k := n;
    } else {
      k := CasBetween(c, run, h, n - 1, p);
    }
  }

  /** A thread goes back to the head only if since it last read it, within the same call, a CAS of another
      thread succeeded. */
  lemma EachRetryIsPaidFor(c: Config, run: seq<State>, m: nat, n: nat, p: nat)
    requires SteadyRun(c, run) && CallFrom(c, run, m, n, p) && p < |run[n - 1].th| && p < |run[n].th|
    requires run[n].th[p].tries > run[n - 1].th[p].tries
    ensures exists h: nat, k: nat :: m < h < k < n && BeganAt(run, h, n, p) && OtherCasAt(run, k, p)
  {
    AttemptsAt(c, run, n, p);
    if n - 1 > m {
      assert Busy(run[n - 1], p);
      var h := AttemptBegan(c, run, m, n - 1, p);
      var k := CasBetween(c, run, h, n - 1, p);
      StillBegan(run, h, n, p);
    }
  }
}
