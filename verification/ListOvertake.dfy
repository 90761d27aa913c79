/** What a copying load can do that rises above a reservation already scanned, in a run of the machine: thread 0
    frees a slot while thread 1 is about to read it. Up to the end of the scan the run is steady. Thread 2 reserves
    epoch 0 and stays in its call, so that nothing is freed before the retired list has EMPTY_FREQ entries; it ends
    its call between the two loads of its reservation. */
module ListOvertake {
  import opened ListCommon
  import opened ListMachine
  import opened ListInv
  import opened ListSafety
  import opened ListResults
  import opened ListSteady
  import opened ListPairs

  /** The last node that thread 0 removes. */
  const LAST: nat := EMPTY_FREQ - 1

  // Thread 1 reads the head while the last node is linked.

  /** Thread 1 is about to read the key of the last node; thread 2 still waits. */
  predicate IsWatched(o: Bystanders) {
    o.u.pc == CTest && o.u.t == Node(LAST) && (o.w, o.a, o.b) == (Waiter(), At(1), At(0))
  }

  lemma HeadIsRead(s: State, p: nat)
    requires Reached({s}) && p < |s.th| && s.th[p].pc == CHead
    ensures Reached({State(s.sh, s.th[p := s.th[p].(t := Nxt(s.sh, HEAD).idx, pc := CTest)])})
  {
    OneMore(s, p, Contains, 0, s.sh, s.th[p].(t := Nxt(s.sh, HEAD).idx, pc := CTest));
  }

  /** Thread 1 as it has read the head. */
  function Reader(sh: Shared): Thread { Entered(sh, IdleThread()).(t := Node(LAST), pc := CTest) }

  lemma ReaderEnters(s: State) returns (s': State, o: Bystanders)
    requires Reached({s}) && Added({s}, LAST, WAITING)
    ensures Reached({s'}) && Added({s'}, LAST, o) && IsWatched(o)
  {
    assert HasAdded(s, LAST, WAITING);
    SentinelsOf(s);
    Enters(s, 1);
    var t := Entered(s.sh, s.th[1]);
    HeadIsRead(State(SetRes(s.sh, 1, At(s.sh.epoch)), s.th[1 := t]), 1);
    SetTwice(s.th, 1, t, Reader(s.sh));
    s' := State(SetRes(s.sh, 1, At(s.sh.epoch)), s.th[1 := Reader(s.sh)]);
    o := Bystanders(Reader(s.sh), Waiter(), At(1), At(0));
    ReaderIsOutside(s, s', o);
  }

  lemma ReaderIsOutside(s: State, s': State, o: Bystanders)
    requires Added({s}, LAST, WAITING) && |s.th| == |s.sh.res| == 3
    requires s' == State(SetRes(s.sh, 1, o.a), s.th[1 := o.u]) && (o.w, o.b) == (WAITING.w, WAITING.b)
    ensures Added({s'}, LAST, o)
  {
    assert HasAdded(s, LAST, WAITING);
    AroundStays(s, s', EMPTY_FREQ, WAITING, o);
  }

  // Thread 0 scans.

  /** Thread 0 has retired all the nodes and scans the reservations. */
  ghost predicate IsScanning(s: State, o: Bystanders, i: nat, pc: PC) {
    && |s.th| == 3 && (s.th[1], s.th[2]) == (o.u, o.w)
    && (ResOf(s.sh, 0), ResOf(s.sh, 1), ResOf(s.sh, 2)) == (At(1), o.a, o.b)
    && IsEmpty(s.sh) && (Worker(s).list, Worker(s).pc, Worker(s).i) == (Entries(EMPTY_FREQ), pc, i)
    && (i > 0 ==> Worker(s).min == At(1))
  }

  ghost predicate Scans(ss: set<State>, o: Bystanders, i: nat, pc: PC) {
    forall s {:trigger IsScanning(s, o, i, pc)} :: s in ss ==> IsScanning(s, o, i, pc)
  }

  lemma RemoveEndsInScan(s: State, o: Bystanders)
    requires AllInRemove({s}, LAST, o) && Worker(s).pc == EScan
    ensures Scans({s}, o, 0, EScan)
  {
    assert InRemove(s, LAST, o);
  }

  /** A turn of the scan: the reservation of thread 2 is below that of thread 0, and that of thread 1 is not. */
  function ScansOnce(sh: Shared, t: Thread): Thread {
    if t.i == 0 then t.(min := ResOf(sh, 0), i := 1) else if t.i == 1 then t.(i := 2) else t.(pc := ELoad)
  }

  lemma ScanTurn(s: State, o: Bystanders, i: nat) returns (s': State)
    requires Reached({s}) && Scans({s}, o, i, EScan) && o.a == At(1) && o.b == At(0) && i < 3
    ensures Reached({s'}) && Scans({s'}, o, if i == 2 then 2 else i + 1, if i == 2 then ELoad else EScan)
  {
    assert IsScanning(s, o, i, EScan);
    OneMore(s, 0, Contains, 0, s.sh, ScansOnce(s.sh, s.th[0]));
    s' := State(s.sh, s.th[0 := ScansOnce(s.sh, s.th[0])]);
  }

  /** Thread 0 has compared the reservation of thread 2 and is about to copy it. */
  lemma ScanReachesThird(s: State, o: Bystanders) returns (s': State)
    requires Reached({s}) && Scans({s}, o, 0, EScan) && IsWatched(o)
    ensures Reached({s'}) && Scans({s'}, o, 2, ELoad)
  {
    s' := ScanTurn(s, o, 0);
    s' := ScanTurn(s', o, 1);
    s' := ScanTurn(s', o, 2);
  }

  // Thread 2 ends its call.

  lemma WaiterSeesTail(s: State, o: Bystanders) returns (s': State)
    requires Reached({s}) && Scans({s}, o, 2, ELoad) && o.w == Waiter()
    ensures Reached({s'}) && Scans({s'}, o.(w := Waiter().(t := TAIL, pc := CTest)), 2, ELoad)
  {
    assert IsScanning(s, o, 2, ELoad);
    HeadIsRead(s, 2);
    s' := State(s.sh, s.th[2 := Waiter().(t := TAIL, pc := CTest)]);
  }

  lemma WaiterFinishes(s: State, o: Bystanders) returns (s': State)
    requires Reached({s}) && Scans({s}, o, 2, ELoad) && o.w == Waiter().(t := TAIL, pc := CTest)
    ensures Reached({s'}) && Scans({s'}, o.(w := Finish(o.w, false)), 2, ELoad)
  {
    assert IsScanning(s, o, 2, ELoad);
    OneMore(s, 2, Contains, 0, s.sh, Finish(o.w, false));
    s' := State(s.sh, s.th[2 := Finish(o.w, false)]);
  }

  lemma WaiterWithdraws(s: State, o: Bystanders) returns (s': State)
    requires Reached({s}) && Scans({s}, o, 2, ELoad) && o.w.pc == EndOp && o.w.neu.None?
    ensures Reached({s'}) && Scans({s'}, o.(w := o.w.(pc := Return), b := Never), 2, ELoad)
  {
    assert IsScanning(s, o, 2, ELoad);
    SentinelsOf(s);
    OneMore(s, 2, Contains, 0, SetRes(s.sh, 2, Never), o.w.(pc := Return));
    s' := State(SetRes(s.sh, 2, Never), s.th[2 := o.w.(pc := Return)]);
  }

  /** Thread 0 is about to copy what is no longer the value it has compared. */
  predicate IsLeft(o: Bystanders) { o.u.pc == CTest && o.u.t == Node(LAST) && (o.a, o.b) == (At(1), Never) }

  lemma WaiterLeaves(s: State, o: Bystanders) returns (s': State, o': Bystanders)
    requires Reached({s}) && Scans({s}, o, 2, ELoad) && IsWatched(o)
    ensures Reached({s'}) && Scans({s'}, o', 2, ELoad) && IsLeft(o')
  {
    s' := WaiterSeesTail(s, o);
    o' := o.(w := Waiter().(t := TAIL, pc := CTest));
    s' := WaiterFinishes(s', o');
    o' := o'.(w := Finish(o'.w, false));
    s' := WaiterWithdraws(s', o');
    o' := o'.(w := o'.w.(pc := Return), b := Never);
  }

  /** A steady run leads to a state in which the next load of thread 0 overtakes. */
  lemma OvertakingIsReached() returns (s: State, o: Bystanders)
    ensures Reached({s}) && Scans({s}, o, 2, ELoad) && IsLeft(o)
  {
    s := Opens();
    s := Pairs(s, LAST, WAITING);
    s := AddOnce(s, LAST, WAITING);
    s, o := ReaderEnters(s);
    s := RemoveOnce(s, LAST, o);
    RemoveEndsInScan(s, o);
    s := ScanReachesThird(s, o);
    s, o := WaiterLeaves(s, o);
  }

  /** Thread 1 can see the last entry of thread 0's retired list. */
  predicate InSight(s: State, u: Thread) {
    Running(u) && Protected(s.sh, u.since, Node(LAST)) && !Bit(s.sh, Node(LAST)) && ResOf(s.sh, 1) == At(1)
  }

  lemma ReaderSees(s: State, o: Bystanders)
    requires Reached({s}) && Scans({s}, o, 2, ELoad) && IsLeft(o)
    ensures InSight(s, o.u)
  {
    assert IsScanning(s, o, 2, ELoad);
    ReachedIsInv(s);
    HeldByReader(s);
  }

  lemma HeldByReader(s: State)
    requires StatesInv(C, {s}) && |s.th| == 3 && s.th[1].pc == CTest && s.th[1].t == Node(LAST)
    ensures Protected(s.sh, s.th[1].since, Node(LAST)) && !Bit(s.sh, Node(LAST))
  {
    assert Inv(C, s);
    FactsOf(C, s, 1);
    NodeIsFindable(LAST);
    assert BitOk(C, s.sh, Node(LAST));
  }

  // What comes of the load.

  /** Thread 0 frees, from its j-th entry on. */
  ghost predicate IsFreeing(s: State, u: Thread, j: nat) {
    && |s.th| == 3 && s.th[1] == u && |s.sh.bit| == |s.sh.slot| == C.slots && j <= EMPTY_FREQ
    && (Worker(s).list, Worker(s).pc, Worker(s).pos, Worker(s).min) == (Entries(EMPTY_FREQ)[j..], EFree, 0, Never)
    && (j > 0 ==> Bit(s.sh, Node(j - 1)))
  }

  ghost predicate Frees(ss: set<State>, u: Thread, j: nat) {
    forall s {:trigger IsFreeing(s, u, j)} :: s in ss ==> IsFreeing(s, u, j)
  }

  predicate StandsAt(s: State, u: Thread) { |s.th| == 3 && s.th[1] == u }

  ghost predicate StepsTo(s: State, ss: set<State>) {
    forall s' {:trigger Step(C, s, s')} :: s' in ss ==> Step(C, s, s')
  }

  lemma MoveIsStep(s: State, sh': Shared, t': Thread)
    requires |s.th| > 0 && s.th[0].pc != Idle && s.th[0].pc != AAlloc
    requires MovesTo(s.sh, 0, s.th[0], Contains, 0, {(sh', t')})
    ensures StepsTo(s, {State(sh', s.th[0 := t'])})
  {
    assert IsMove(s.sh, 0, s.th[0], Contains, 0, (sh', t'));
    assert StepBy(C, s, 0, Contains, KEY, 0, State(sh', s.th[0 := t']));
  }

  lemma FreeMoves(sh: Shared, t: Thread, j: nat)
    requires t.pc == EFree && t.pos == 0 && t.min == Never && j < EMPTY_FREQ && t.list == Entries(EMPTY_FREQ)[j..]
    ensures MovesTo(sh, 0, t, Contains, 0, {(FreeNode(sh, Node(j)), t.(list := Entries(EMPTY_FREQ)[j + 1..]))})
  {
    assert t.list[0] == Entries(EMPTY_FREQ)[j];
    assert Without(t.list, 0) == Entries(EMPTY_FREQ)[j + 1..];
  }

  lemma FreesOne(s: State, u: Thread, j: nat) returns (s': State)
    requires Frees({s}, u, j) && j < EMPTY_FREQ
    ensures StepsTo(s, {s'}) && Frees({s'}, u, j + 1)
  {
    assert IsFreeing(s, u, j);
    NodeIsFindable(j);
    var t' := s.th[0].(list := Entries(EMPTY_FREQ)[j + 1..]);
    FreeMoves(s.sh, s.th[0], j);
    MoveIsStep(s, FreeNode(s.sh, Node(j)), t');
    s' := State(FreeNode(s.sh, Node(j)), s.th[0 := t']);
  }

  /** Thread 0 after the copying load, and with the list that it had before. */
  function Copied(t: Thread): Thread { t.(pc := EScan, min := Never, i := 3) }

  ghost predicate SteadyTo(s: State, ss: set<State>) {
    forall s' {:trigger SteadyStep(C, s, s')} :: s' in ss ==> SteadyStep(C, s, s')
  }

  lemma Copies(s: State, o: Bystanders) returns (s': State)
    requires Scans({s}, o, 2, ELoad) && IsLeft(o)
    ensures SteadyTo(s, {s'}) && StandsAt(s', o.u)
    ensures |s.th| == 3 && Overtakes(s.sh, s.th[0]) && s' == State(s.sh, s.th[0 := Copied(s.th[0])])
  {
    assert IsScanning(s, o, 2, ELoad);
    CopyMoves(s.sh, s.th[0]);
    assert IsMove(s.sh, 0, s.th[0], Contains, 0, (s.sh, Copied(s.th[0])));
    s' := State(s.sh, s.th[0 := Copied(s.th[0])]);
    assert SteadyStepBy(C, s, 0, Contains, KEY, 0, s');
  }

  lemma CopyMoves(sh: Shared, t: Thread)
    requires t.pc == ELoad && t.i == 2 && ResOf(sh, 2) == Never
    ensures MovesTo(sh, 0, t, Contains, 0, {(sh, Copied(t))})
  {}

  /** What thread 0 has found is above the reservation of thread 1. */
  lemma EndIsUnsound(s: State, u: Thread)
    requires StandsAt(s, u) && InSight(s, u) && Worker(s).list == Entries(EMPTY_FREQ)
    requires Worker(s).pc == EScan && Worker(s).i == 3 && Worker(s).min == Never
    ensures !ScanSound(C, s, 0)
  {
    assert Entries(EMPTY_FREQ)[LAST] in s.th[0].list;
    assert SeesEntry(s.sh, s.th[0], s.th[1]);
  }

  lemma EndsScan(s: State, u: Thread) returns (s': State)
    requires StandsAt(s, u) && Worker(s).pc == EScan && Worker(s).min == Never && Worker(s).i == 3
    requires Worker(s).list == Entries(EMPTY_FREQ) && |s.sh.bit| == |s.sh.slot| == C.slots
    ensures StepsTo(s, {s'}) && Frees({s'}, u, 0)
  {
    MoveIsStep(s, s.sh, Worker(s).(pc := EFree, pos := 0));
    s' := State(s.sh, s.th[0 := Worker(s).(pc := EFree, pos := 0)]);
  }

  /** A run in which thread 1 does nothing from state m on. */
  ghost predicate IsStanding(run: seq<State>, m: nat, u: Thread) {
    Run(C, run) && m < |run| && forall n :: m <= n < |run| ==> StandsAt(run[n], u)
  }

  ghost predicate Stands(runs: set<seq<State>>, m: nat, u: Thread) {
    forall run {:trigger IsStanding(run, m, u)} :: run in runs ==> IsStanding(run, m, u)
  }

  lemma LongerIsRun(run: seq<State>, s': State)
    requires Run(C, run) && Step(C, run[|run| - 1], s')
    ensures Run(C, run + [s'])
  {
    var longer := run + [s'];
    forall n | 0 < n < |longer| ensures StepAt(C, longer, n) {
      assert n < |run| ==> StepAt(C, run, n);
    }
  }

  lemma StandsLonger(run: seq<State>, m: nat, u: Thread, s': State)
    requires |run| > 0 && Stands({run}, m, u) && StepsTo(run[|run| - 1], {s'}) && StandsAt(s', u)
    ensures Stands({run + [s']}, m, u)
  {
    assert IsStanding(run, m, u) && Step(C, run[|run| - 1], s');
    LongerIsRun(run, s');
  }

  lemma {:induction false} FreesAll(run: seq<State>, m: nat, u: Thread, j: nat) returns (run': seq<State>)
    requires |run| > 0 && Stands({run}, m, u) && Frees({run[|run| - 1]}, u, j) && j <= EMPTY_FREQ
    ensures run <= run' && Stands({run'}, m, u) && Frees({run'[|run'| - 1]}, u, EMPTY_FREQ)
    decreases EMPTY_FREQ - j
  {
    run' := run;
    if j < EMPTY_FREQ {
      var s' := FreesOne(run[|run| - 1], u, j);
      assert IsFreeing(s', u, j + 1);
      StandsLonger(run, m, u, s');
      run' := FreesAll(run + [s'], m, u, j + 1);
    }
  }

  lemma SteadyStands(run: seq<State>, u: Thread)
    requires SteadyRun(C, run) && StandsAt(run[|run| - 1], u)
    ensures |run| > 0 && Stands({run}, |run| - 1, u)
  {
    SteadyIsRun(C, run);
  }

  /** From the end of the scan on. */
  lemma GoesOn(run: seq<State>, u: Thread, s': State) returns (run': seq<State>)
    requires |run| > 0 && Stands({run}, |run| - 1, u) && StepsTo(run[|run| - 1], {s'}) && Frees({s'}, u, 0)
    ensures run <= run' && Stands({run'}, |run| - 1, u) && Frees({run'[|run'| - 1]}, u, EMPTY_FREQ)
  {
    assert IsFreeing(s', u, 0);
    StandsLonger(run, |run| - 1, u, s');
    run' := FreesAll(run + [s'], |run| - 1, u, 0);
  }

  /** The step to state m is a copying load of thread 0 that overtakes. Up to there the run is steady, and there the
      scan is about to end with a minimum that is not sound. At the end of the run the slot x is free again, and
      thread 1, which has made no step since, is about to read it. */
  ghost predicate FreesInUse(run: seq<State>, m: nat, x: nat) {
    && 0 < m < |run| && Run(C, run) && SteadyRun(C, run[..m + 1])
    && |run[m - 1].th| == |run[m].th| == 3 && Overtakes(run[m - 1].sh, run[m - 1].th[0]) && !ScanSound(C, run[m], 0)
    && Running(run[m].th[1]) && x in Uses(run[m].th[1])
    && (forall n :: m <= n < |run| ==> StandsAt(run[n], run[m].th[1]))
    && !Bit(run[m].sh, x) && Bit(run[|run| - 1].sh, x)
  }

  lemma StandingFrees(run: seq<State>, whole: seq<State>, u: Thread)
    requires |run| > 1 && SteadyRun(C, run) && run <= whole && Stands({whole}, |run| - 1, u)
    requires |run[|run| - 2].th| == 3 && Overtakes(run[|run| - 2].sh, run[|run| - 2].th[0])
    requires StandsAt(run[|run| - 1], u) && u.pc == CTest && u.t == Node(LAST)
    requires !ScanSound(C, run[|run| - 1], 0) && !Bit(run[|run| - 1].sh, Node(LAST))
    requires Bit(whole[|whole| - 1].sh, Node(LAST))
    ensures FreesInUse(whole, |run| - 1, Node(LAST))
  {
    assert IsStanding(whole, |run| - 1, u);
    assert whole[..|run| - 1 + 1] == run;
  }

  lemma LastIsFree(s: State, u: Thread)
    requires Frees({s}, u, EMPTY_FREQ)
    ensures Bit(s.sh, Node(LAST))
  {
    assert IsFreeing(s, u, EMPTY_FREQ);
  }

  lemma ListIsFull(s: State, o: Bystanders)
    requires Reached({s}) && Scans({s}, o, 2, ELoad)
    ensures Worker(s).list == Entries(EMPTY_FREQ) && |s.sh.bit| == |s.sh.slot| == C.slots
  {
    assert IsScanning(s, o, 2, ELoad);
    SentinelsOf(s);
  }

  /** There is a run in which an overtaking load leads to a slot being freed under a running operation. */
  lemma OvertakingFreesInUse()
    ensures exists run: seq<State>, m: nat, x: nat :: FreesInUse(run, m, x)
  {
    var s, o := OvertakingIsReached();
    ReaderSees(s, o);
    ListIsFull(s, o);
    var s1 := Copies(s, o);
    EndIsUnsound(s1, o.u);
    var s2 := EndsScan(s1, o.u);
    assert IsReached(s) && SteadyStep(C, s, s1);
    var before: seq<State> :| SteadyRun(C, before) && before[|before| - 1] == s;
    LongerIsSteady(before, s1);
    var run := before + [s1];
    SteadyStands(run, o.u);
    var whole := GoesOn(run, o.u, s2);
    LastIsFree(whole[|whole| - 1], o.u);
    StandingFrees(run, whole, o.u);
    assert FreesInUse(whole, |run| - 1, Node(LAST));
  }
}
