/** A key that a crash loses although its add has returned 1. Thread 0 links node 3 behind the head and is held up
    before it persists the head's line. Thread 1 then adds 5: it links its node behind node 3, persists the line of
    node 3 and returns. Persistent memory still leads from the head past both. */
module ListLoss {
  import opened ListCommon
  import opened ListMachine
  import opened ListInv
  import opened ListSafety
  import opened ListLinear
  import opened ListDurable
  import opened ListMarks

  const L := Config(64, 2)

  function Start(): State {
    var next := seq(L.slots, x =>
      if x == HEAD then Link(TAIL, false) else if x == TAIL then Link(L.slots, false) else Link(0, false));
    var data := seq(L.slots, x => if x == HEAD then INT_MIN else if x == TAIL then INT_MAX else 0);
    var bit := seq(L.slots, x => x >= 2);
    var slot := seq(L.slots, x => if x >= 2 then Free else Linked);
    State(Shared(next, data, next, data, bit, 0, [Never, Never], slot, 0, 0, [{}]), [IdleThread(), IdleThread()])
  }

  /** The next step of thread p, which adds key `val` in slot x. */
  function Go(s: State, p: nat, val: int, x: nat): State
    requires p < |s.th|
  {
    var (sh, t) := Move(L, s.sh, p, s.th[p], Add, val, x);
    State(sh, s.th[p := t])
  }

  // What is known after a steps of thread 0 and b of thread 1.

  function FirstPC(a: nat): PC {
    if a == 0 then Idle else if a == 1 then StartRead else if a == 2 then StartStore else if a == 3 then SHead
    else if a == 4 then STest else if a == 5 then SCheck else if a == 6 then Found else if a == 7 then AAlloc
    else if a == 8 then AData else if a == 9 then ANext else if a == 10 then APersistNew else if a == 11 then ALink
    else APersistLeft
  }

  function SecondPC(b: nat): PC {
    if b == 0 then Idle else if b == 1 then StartRead else if b == 2 then StartStore else if b == 3 then SHead
    else if b == 4 then STest else if b == 5 then SNext else if b == 6 then STest else if b == 7 then SCheck
    else if b == 8 then Found else if b == 9 then AAlloc else if b == 10 then AData else if b == 11 then ANext
    else if b == 12 then APersistNew else if b == 13 then ALink else if b == 14 then APersistLeft
    else if b == 15 then EndOp else Return
  }

  predicate First(t: Thread, a: nat) {
    && t.pc == FirstPC(a)
    && (a > 0 ==> t.op == Add && t.val == t.key == 3)
    && (a >= 3 ==> t.caller == AddFirst)
    && (a == 4 ==> t.t == HEAD && t.tn == Link(TAIL, false))
    && (a >= 5 ==> t.left == HEAD && t.right == TAIL)
    && (8 <= a < 12 ==> t.neu == Some(2))
  }

  predicate Second(t: Thread, b: nat) {
    && t.pc == SecondPC(b)
    && (b > 0 ==> t.op == Add && t.val == t.key == 5)
    && (b >= 3 ==> t.caller == AddFirst)
    && (b == 4 ==> t.t == HEAD && t.tn == Link(2, false))
    && (b == 5 ==> t.t == 2)
    && (b == 6 ==> t.t == 2 && t.tn == Link(TAIL, false))
    && (b >= 7 ==> t.left == 2 && t.right == TAIL)
    && (10 <= b < 14 ==> t.neu == Some(3))
    && (b >= 14 ==> t.neu == None)
    && (b >= 15 ==> t.result)
  }

  predicate Memory(sh: Shared, a: nat, b: nat) {
    && |sh.next| == |sh.data| == |sh.dnext| == |sh.ddata| == |sh.bit| == |sh.slot| == 64
    && Nxt(sh, HEAD) == Link(if a >= 12 then 2 else TAIL, false) && !Nxt(sh, TAIL).mark && Dat(sh, HEAD) == INT_MIN
    && (a >= 9 ==> Dat(sh, 2) == 3) && (a >= 10 ==> Nxt(sh, 2) == Link(if b >= 14 then 3 else TAIL, false))
    && (b >= 11 ==> Dat(sh, 3) == 5) && (b >= 12 ==> Nxt(sh, 3) == Link(TAIL, false))
    && (a < 8 ==> Bit(sh, 2)) && (b < 10 ==> Bit(sh, 3)) && !Bit(sh, HEAD) && !Bit(sh, TAIL)
    && (b >= 14 ==> St(sh, 3) == Linked)
    && DNxt(sh, HEAD) == Link(TAIL, false)
  }

  predicate After(s: State, a: nat, b: nat) {
    |s.th| == 2 && First(s.th[0], a) && Second(s.th[1], b) && Memory(s.sh, a, b)
  }

  lemma StartIsInit() returns (s: State)
    ensures Init(L, s) && s.sh.dnext == s.sh.next
  {
    s := Start();
  }

  lemma InitThreads(s: State)
    requires Init(L, s)
    ensures |s.th| == 2 && s.th[0] == s.th[1] == IdleThread()
  {}

  lemma InitMemory(s: State)
    requires Init(L, s) && s.sh.dnext == s.sh.next
    ensures Memory(s.sh, 0, 0)
  {}

  lemma InitIsKnown(s: State)
    requires Init(L, s) && s.sh.dnext == s.sh.next
    ensures After(s, 0, 0)
  {
    InitThreads(s);
    InitMemory(s);
    IdleIsKnown(s.th[0], 0);
  }

  lemma IdleIsKnown(t: Thread, a: nat)
    requires t.pc == Idle && a == 0
    ensures First(t, a) && Second(t, a)
  {}

  lemma FirstSearches(s: State, a: nat)
    requires After(s, a, 0) && a < 4
    ensures After(Go(s, 0, 3, 2), a + 1, 0)
  {}

  lemma FirstFindsPlace(s: State, a: nat)
    requires After(s, a, 0) && 4 <= a < 8
    ensures After(Go(s, 0, 3, 2), a + 1, 0)
  {}

  lemma FirstLinks(s: State, a: nat)
    requires After(s, a, 0) && 8 <= a < 12
    ensures After(Go(s, 0, 3, 2), a + 1, 0)
  {}

  lemma SecondSearches(s: State, b: nat)
    requires After(s, 12, b) && b < 5
    ensures After(Go(s, 1, 5, 3), 12, b + 1)
  {}

  lemma SecondFindsPlace(s: State, b: nat)
    requires After(s, 12, b) && 5 <= b < 9
    ensures After(Go(s, 1, 5, 3), 12, b + 1)
  {}

  lemma SecondPrepares(s: State, b: nat)
    requires After(s, 12, b) && 9 <= b < 12
    ensures After(Go(s, 1, 5, 3), 12, b + 1)
  {}

  lemma SecondLinks(s: State, b: nat)
    requires After(s, 12, b) && 12 <= b < 16
    ensures After(Go(s, 1, 5, 3), 12, b + 1)
  {}

  // The run.

  function FirstSteps(n: nat): nat { if n < 12 then n else 12 }

  function SecondSteps(n: nat): nat { if n < 12 then 0 else n - 12 }

  ghost predicate KnownAt(s: State, n: nat) { After(s, FirstSteps(n), SecondSteps(n)) }

  /** `KnownAt` of a single state, folded: only ever applied to a set of one. */
  ghost predicate Known(ss: set<State>, n: nat) {
    forall s {:trigger KnownAt(s, n)} :: s in ss ==> KnownAt(s, n)
  }

  /** Thread 0 makes the first 12 steps, thread 1 the others. */
  function Mover(n: nat): nat { if n < 12 then 0 else 1 }

  function KeyOf(n: nat): int { if n < 12 then 3 else 5 }

  ghost predicate GoesOn(ss: set<State>, n: nat, s': State) {
    forall s {:trigger KnownAt(s, n)} :: s in ss ==> Mover(n) < |s.th| && s' == Go(s, Mover(n), KeyOf(n), Mover(n) + 2)
  }

  lemma NextIsKnown(s: State, n: nat) returns (s': State)
    requires n < 28 && Known({s}, n)
    ensures Known({s'}, n + 1) && GoesOn({s}, n, s')
  {
    assert KnownAt(s, n);
    s' := Go(s, Mover(n), KeyOf(n), Mover(n) + 2);
    if n < 4 {
      FirstSearches(s, n);
    } else if n < 8 {
      FirstFindsPlace(s, n);
    } else if n < 12 {
      FirstLinks(s, n);
    } else if n < 17 {
      SecondSearches(s, n - 12);
    } else if n < 21 {
      SecondFindsPlace(s, n - 12);
    } else if n < 24 {
      SecondPrepares(s, n - 12);
    } else {
      SecondLinks(s, n - 12);
    }
  }

  /** The call, or any other step, as a step of the machine. */
  lemma GoIsSteady(s: State, n: nat, s': State)
    requires n < 28 && Known({s}, n) && GoesOn({s}, n, s')
    ensures SteadyStepBy(L, s, Mover(n), Add, KeyOf(n), Mover(n) + 2, s')
  {
    assert KnownAt(s, n);
  }

  lemma StartOfRun() returns (s: State)
    ensures SteadyRun(L, [s]) && Known({s}, 0)
  {
    s := StartIsInit();
    InitIsKnown(s);
  }

  ghost predicate StepIsKnown(run: seq<State>, k: nat) {
    k + 1 < |run| ==> Known({run[k]}, k) && GoesOn({run[k]}, k, run[k + 1])
  }

  /** The run up to state n. */
  ghost predicate RunIsKnown(run: seq<State>, n: nat) {
    && |run| == n + 1 && SteadyRun(L, run) && Known({run[n]}, n)
    && (forall k: nat {:trigger StepIsKnown(run, k)} :: StepIsKnown(run, k))
  }

  lemma RunGoesOn(run: seq<State>, n: nat, s': State)
    requires RunIsKnown(run, n) && n < 28 && GoesOn({run[n]}, n, s') && Known({s'}, n + 1)
    ensures RunIsKnown(run + [s'], n + 1)
  {
    var longer := run + [s'];
    GoIsSteady(run[n], n, s');
    forall k | 0 < k < |longer| ensures SteadyStepAt(L, longer, k) {
      assert k < |run| ==> SteadyStepAt(L, run, k);
    }
    forall k: nat ensures StepIsKnown(longer, k) {
      assert StepIsKnown(run, k);
    }
  }

  lemma {:induction false} RunTo(n: nat) returns (run: seq<State>)
    requires n <= 28
    ensures RunIsKnown(run, n)
  {
    if n == 0 {
      var s := StartOfRun();
      run := [s];
      assert Known({run[0]}, 0);
    } else {
      run := RunTo(n - 1);
      var s' := NextIsKnown(run[n - 1], n - 1);
      RunGoesOn(run, n - 1, s');
      run := run + [s'];
    }
  }

  lemma SecondIsBusy(s: State, n: nat)
    requires Known({s}, n) && n <= 28
    ensures |s.th| == 2 && (n > 12 <==> Busy(s, 1))
  {
    assert KnownAt(s, n);
  }

  lemma AddIsCall(run: seq<State>)
    requires RunIsKnown(run, 28)
    ensures CallFrom(L, run, 12, 28, 1) && StepBy(L, run[12], 1, Add, 5, 3, run[13])
  {
    forall k: nat | k <= 28 ensures Known({run[k]}, k) {
      assert StepIsKnown(run, k);
    }
    forall k: nat | k <= 28 ensures |run[k].th| == 2 && (k > 12 <==> Busy(run[k], 1)) {
      SecondIsBusy(run[k], k);
    }
    assert StepIsKnown(run, 12);
    GoIsSteady(run[12], 12, run[13]);
  }

  lemma KeyIsPresent(s: State)
    requires Known({s}, 28)
    ensures |s.th| == 2 && s.th[1].pc == Return && s.th[1].result && 5 in Keys(s.sh)
    ensures DNxt(s.sh, HEAD) == Link(TAIL, false) && OwesBefore(s, 0, 5)
  {
    assert KnownAt(s, 28);
    assert IsMember(s.sh, 3);
  }

  lemma PathIsShort(sh: Shared, path: seq<nat>)
    requires IsDurablePath(sh, path) && DNxt(sh, HEAD) == Link(TAIL, false)
    ensures DurableKeys(sh, path) == {}
  {
    assert path[1] == TAIL && |path| == 2;
  }

  /** In the last state of the run thread 1 returns 1 from add(5), and 5 is in the key set; but every path of
      durable links leads past it, since thread 0 still owes the line of the head. */
  lemma AddIsLost() returns (run: seq<State>)
    ensures |run| == 29 && SteadyRun(L, run)
    ensures CallFrom(L, run, 12, 28, 1) && StepBy(L, run[12], 1, Add, 5, 3, run[13])
    ensures |run[28].th| == 2 && run[28].th[1].pc == Return && run[28].th[1].result && 5 in Keys(run[28].sh)
    ensures exists path :: IsDurablePath(run[28].sh, path)
    ensures forall path :: IsDurablePath(run[28].sh, path) ==> 5 !in DurableKeys(run[28].sh, path)
    ensures OwesBefore(run[28], 0, 5)
  {
    run := RunTo(28);
    AddIsCall(run);
    KeyIsPresent(run[28]);
    DurableImageIsSorted(L, run, 28);
    forall path | IsDurablePath(run[28].sh, path) ensures 5 !in DurableKeys(run[28].sh, path) {
      PathIsShort(run[28].sh, path);
    }
  }
}
