/** Which runs keep the invariant: exactly the steady ones, in which every scan ends with a sound minimum. If no
    copying load is above what it replaces, or above a reservation that counts, the run is steady. */
module ListSteady {
  import opened ListCommon
  import opened ListMachine
  import opened ListInv
  import opened ListSafety

  lemma EndShape(c: Config, sh: Shared, p: nat, t: Thread, op: Op, val: int, x: nat)
    requires ScanEnds(c, t)
    ensures Move(c, sh, p, t, op, val, x) == (sh, t.(pc := EFree, pos := 0))
  {}

  /** What a thread has found at the end of a scan is what it frees by. */
  lemma MinMeansAtMost(sh: Shared, t: Thread, t': Thread, r: nat, u: Thread, u': Thread)
    requires MinOk(sh, t', r, u') && t'.pc == EFree && t'.min == t.min && t'.list == t.list
    requires Running(u') && u'.since == u.since && SeesEntry(sh, t, u)
    ensures AtMost(t.min, ResOf(sh, r))
  {
    assert SeesEntry(sh, t', u');
  }

  /** If the invariant holds after a scan has ended, the minimum found is sound. */
  lemma KeptMeansSound(c: Config, s: State, p: nat, op: Op, val: int, x: nat, s': State)
    requires Inv(c, s) && Inv(c, s') && StepBy(c, s, p, op, val, x, s')
    ensures ScanSound(c, s, p)
  {
    if ScanEnds(c, s.th[p]) {
      EndShape(c, s.sh, p, s.th[p], op, val, x);
      forall r: nat | r < |s.th| && Running(s.th[r]) && SeesEntry(s.sh, s.th[p], s.th[r])
        ensures AtMost(s.th[p].min, ResOf(s.sh, r))
      {
        assert MinOk(s'.sh, s'.th[p], r, s'.th[r]);
        MinMeansAtMost(s.sh, s.th[p], s'.th[p], r, s.th[r], s'.th[r]);
      }
    }
  }

  /** A step keeps the invariant exactly if it is not the end of a scan whose minimum is above the reservation of an
      operation that can see a slot on the scanner's retired list. */
  lemma StepKeepsInvIff(c: Config, s: State, p: nat, op: Op, val: int, x: nat, s': State)
    requires Inv(c, s) && StepBy(c, s, p, op, val, x, s')
    ensures Inv(c, s') <==> ScanSound(c, s, p)
  {
    if ScanSound(c, s, p) {
      StepKeepsInv(c, s, p, op, val, x, s');
    }
    if Inv(c, s') {
      KeptMeansSound(c, s, p, op, val, x, s');
    }
  }

  lemma SteadyIsStep(c: Config, s: State, s': State)
    requires SteadyStep(c, s, s')
    ensures Step(c, s, s')
  {
    if p, op, val, x :| SteadyStepBy(c, s, p, op, val, x, s') {
      assert StepBy(c, s, p, op, val, x, s');
    }
  }

  lemma KeepingIsSteady(c: Config, s: State, s': State)
    requires Step(c, s, s') && Inv(c, s) && Inv(c, s')
    ensures SteadyStep(c, s, s')
  {
    if p: nat, op: Op, val: int, x: nat :| StepBy(c, s, p, op, val, x, s') {
      KeptMeansSound(c, s, p, op, val, x, s');
      assert SteadyStepBy(c, s, p, op, val, x, s');
    }
  }

  /** A run keeps the invariant in all its states if and only if it is steady. */
  lemma RunKeepsInvIff(c: Config, run: seq<State>)
    requires Run(c, run)
    ensures (forall n: nat :: n < |run| ==> Inv(c, run[n])) <==> SteadyRun(c, run)
  {
    if SteadyRun(c, run) {
      forall n: nat | n < |run| ensures Inv(c, run[n]) {
        RunsKeepInv(c, run, n);
      }
    }
    if forall n: nat :: n < |run| ==> Inv(c, run[n]) {
      forall n | 0 < n < |run| ensures SteadyStepAt(c, run, n) {
        assert StepAt(c, run, n);
        KeepingIsSteady(c, run[n - 1], run[n]);
      }
    }
  }

  lemma SteadyIsRun(c: Config, run: seq<State>)
    requires SteadyRun(c, run)
    ensures Run(c, run)
  {
    forall n | 0 < n < |run| ensures StepAt(c, run, n) {
      assert SteadyStepAt(c, run, n);
      SteadyIsStep(c, run[n - 1], run[n]);
    }
  }

  // Runs that are steady because of their copying loads.

  /** It is about to copy a value above the minimum that the copy replaces. */
  predicate Overtakes(sh: Shared, t: Thread) {
    t.pc == ELoad && Less(t.min, ResOf(sh, t.i))
  }

  /** No copying load overtakes, except where it does no harm. */
  ghost predicate CopiesOk(s: State) {
    forall p, r :: 0 <= p < |s.th| && 0 <= r < |s.th| ==> !Overtakes(s.sh, s.th[p]) || CopyOk(s, p, r)
  }

  /** A copy that is not above the minimum it replaces does no harm. */
  lemma NotOvertakingIsOk(s: State, p: nat, r: nat)
    requires p < |s.th| && r < |s.th| && !Overtakes(s.sh, s.th[p]) && ScanOk(s.sh, s.th[p], r, s.th[r])
    ensures CopyOk(s, p, r)
  {}

  /** All scans under way are sound. */
  ghost predicate ScansOk(s: State) {
    forall p, r :: 0 <= p < |s.th| && 0 <= r < |s.th| ==> ScanOk(s.sh, s.th[p], r, s.th[r])
  }

  lemma SoundScansEnd(c: Config, s: State, p: nat)
    requires Inv(c, s) && p < c.threads && ScansOk(s)
    ensures ScanSound(c, s, p)
  {
    forall r: nat | ScanEnds(c, s.th[p]) && r < |s.th| && Running(s.th[r]) && SeesEntry(s.sh, s.th[p], s.th[r])
      ensures AtMost(s.th[p].min, ResOf(s.sh, r))
    {
      assert ScanOk(s.sh, s.th[p], r, s.th[r]);
    }
  }

  lemma MoveKeepsScans(c: Config, s: State, p: nat, op: Op, val: int, x: nat, s': State)
    requires Inv(c, s) && StepBy(c, s, p, op, val, x, s') && p < c.threads && CopiesOk(s) && ScansOk(s)
    ensures ScansOk(s') && SteadyStepBy(c, s, p, op, val, x, s')
  {
    SoundScansEnd(c, s, p);
    StepKeepsInv(c, s, p, op, val, x, s');
    forall q, r | 0 <= q < c.threads && 0 <= r < c.threads ensures ScanOk(s'.sh, s'.th[q], r, s'.th[r]) {
      assert ScanOk(s.sh, s.th[q], r, s.th[r]);
      if q == p {
        if !Overtakes(s.sh, s.th[p]) {
          NotOvertakingIsOk(s, p, r);
        }
        OwnScanKept(c, s, p, op, val, x, r);
      } else {
        OtherScansKept(c, s, p, op, val, x, q, r);
      }
    }
  }

  lemma WriteBackKeepsScans(c: Config, s: State, x: nat, s': State)
    requires Inv(c, s) && WriteBack(s, x, s') && ScansOk(s)
    ensures ScansOk(s')
  {
    WriteBackKeepsInv(c, s, x, s');
    forall q, r | 0 <= q < c.threads && 0 <= r < c.threads ensures ScanOk(s'.sh, s'.th[q], r, s'.th[r]) {
      assert ScanOk(s.sh, s.th[q], r, s.th[r]);
      assert forall y: nat :: St(s'.sh, y) == St(s.sh, y);
    }
  }

  lemma StepKeepsScans(c: Config, s: State, s': State)
    requires Inv(c, s) && Step(c, s, s') && CopiesOk(s) && ScansOk(s)
    ensures ScansOk(s') && SteadyStep(c, s, s')
  {
    if x :| WriteBack(s, x, s') {
      WriteBackKeepsScans(c, s, x, s');
    } else {
      var p: nat, op: Op, val: int, x: nat :| StepBy(c, s, p, op, val, x, s');
      MoveKeepsScans(c, s, p, op, val, x, s');
    }
  }

  lemma FrontGrows(c: Config, run: seq<State>, n: nat)
    requires 0 < n < |run| && SteadyRun(c, run[..n]) && SteadyStep(c, run[n - 1], run[n])
    ensures SteadyRun(c, run[..n + 1])
  {
    var front := run[..n + 1];
    forall k | 0 < k < |front| ensures SteadyStepAt(c, front, k) {
      assert k < n ==> SteadyStepAt(c, run[..n], k);
    }
  }

  /** A run is steady up to state n if every copying load before it either is not above the minimum it replaces, or
      does no harm. */
  lemma {:induction false} CarefulIsSteady(c: Config, run: seq<State>, n: nat)
    requires Run(c, run) && n < |run| && forall k :: 0 <= k < n ==> CopiesOk(run[k])
    ensures SteadyRun(c, run[..n + 1]) && ScansOk(run[n])
  {
    if n > 0 {
      CarefulIsSteady(c, run, n - 1);
      RunsKeepInv(c, run[..n], n - 1);
      assert StepAt(c, run, n);
      StepKeepsScans(c, run[n - 1], run[n]);
      FrontGrows(c, run, n);
    }
  }
}
