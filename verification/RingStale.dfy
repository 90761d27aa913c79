/** A run of the ring that ends with an announcement that recovery cannot cope with: producer 0 reads head_
    and is held up; producer 1 pushes, and the consumer pops what it has pushed; then producer 0 announces
    the head that it has read. */
module RingStale {
  import opened Masking
  import opened Ring
  import opened RingRecovery
  import opened RingCrash

  const TWO_ONE := Config(2, 1, 4, 1)

  // The threads after so many of their own steps.

  function Slow(n: nat): Actor {
    var a := Actor(Idle, [7], 0, 0, 0, 0, 0);
    match n
    case 0 => a.(buf := [])
    case 1 => a.(pc := Read)
    case 2 => a.(pc := Announce)
    case _ => a.(pc := Draw)
  }

  function Pusher(n: nat): Actor {
    var a := Actor(Idle, [8], 0, 0, 0, 0, 0);
    match n
    case 0 => a.(buf := [])
    case 1 => a.(pc := Read)
    case 2 => a.(pc := Announce)
    case 3 => a.(pc := Draw)
    case 4 => a.(pc := Publish)
    case 5 => a.(pc := Test)
    case 6 => a.(pc := Copy)
    case 7 => a.(pc := Save, k := 1)
    case 8 => a.(pc := Clear, k := 1)
    case _ => a.(k := 1)
  }

  function Popper(n: nat): Actor {
    var a := Actor(Idle, [], 0, 0, 0, 0, 0);
    var b := Actor(Idle, [8], 0, 0, 1, 2, 1);
    match n
    case 0 => a
    case 1 => a.(pc := Read)
    case 2 => a.(pc := Announce)
    case 3 => a.(pc := Draw)
    case 4 => a.(pc := Publish)
    case 5 => a.(pc := Test)
    case 6 => a.(pc := ScanInit)
    case 7 => a.(pc := Scan, min := 1)
    case 8 => a.(pc := Scan, min := 1, j := 1)
    case 9 => a.(pc := Scan, min := 1, j := 2)
    case 10 => a.(pc := Retest, min := 1, j := 2)
    case 11 => a.(pc := Copy, min := 1, j := 2)
    case 12 => b.(pc := Save)
    case 13 => b.(pc := Clear)
    case _ => b
  }

  /** Whether a thread's announcement of 0 stands, after n of its steps of which the last is numbered `last`. */
  function Announced(n: nat, last: nat): Pos { if 3 <= n < last then At(0) else Max }

  function Pushing(a: nat, b: nat, c: nat): Side {
    Side(if b >= 4 then 1 else 0, if c >= 10 then 1 else 0, [Announced(a, 9), Announced(b, 9)],
         [Max, if b >= 8 then At(0) else Max], [Slow(a), Pusher(b)], if b >= 7 then {0} else {})
  }

  function Popping(c: nat): Side {
    Side(if c >= 4 then 1 else 0, 0, [Announced(c, 14)], [if c >= 13 then At(0) else Max], [Popper(c)],
         if c >= 12 then {0} else {})
  }

  /** After a steps of producer 0, b of producer 1 and c of the consumer. */
  function After(a: nat, b: nat, c: nat): State {
    State(Pushing(a, b, c), Popping(c), [if b >= 7 then [8] else [0], [0], [0], [0]],
          if b >= 4 then map[0 := [8]] else map[], if c >= 12 then map[0 := [8]] else map[])
  }

  lemma AfterShape(a: nat, b: nat, c: nat)
    ensures Shape(TWO_ONE, After(a, b, c))
  {
    assert Pow2(0) == 1 && Pow2(1) == 2 && Pow2(2) == 4;
  }

  lemma SameState(s: State, s': State)
    requires s.push == s'.push && s.pop == s'.pop && s.slots == s'.slots && s.pushed == s'.pushed && s.popped == s'.popped
    ensures s == s'
  {}

  lemma SlowStep(a: nat, b: nat, c: nat)
    requires (a < 2 && b == c == 0) || (a == 2 && b == 9 && c == 14)
    ensures StepBy(TWO_ONE, After(a, b, c), Push, 0, [7], After(a + 1, b, c))
  {
    AfterShape(a, b, c);
  }

  lemma PusherStep(b: nat)
    requires b < 9
    ensures StepBy(TWO_ONE, After(2, b, 0), Push, 1, [8], After(2, b + 1, 0))
  {
    AfterShape(2, b, 0);
    assert SlotOf(TWO_ONE, 0) == 0;
    if b == 6 {
      assert After(2, 6, 0).slots[0][0 := 8] == [8];
    }
    SameState(Next(TWO_ONE, After(2, b, 0), Push, 1, [8]), After(2, b + 1, 0));
  }

  lemma PopperStep(c: nat)
    requires c < 14
    ensures StepBy(TWO_ONE, After(2, 9, c), Pop, 0, [], After(2, 9, c + 1))
  {
    AfterShape(2, 9, c);
    assert SlotOf(TWO_ONE, 0) == 0;
    if c == 11 {
      assert Popper(11).buf + [After(2, 9, 11).slots[0][0]] == [8];
    }
    SameState(Next(TWO_ONE, After(2, 9, c), Pop, 0, []), After(2, 9, c + 1));
  }

  function StateAt(n: nat): State {
    if n < 3 then After(n, 0, 0)
    else if n < 12 then After(2, n - 2, 0)
    else if n < 26 then After(2, 9, n - 11)
    else After(3, 9, 14)
  }

  lemma StateSteps(n: nat)
    requires 0 < n < 27
    ensures Step(TWO_ONE, StateAt(n - 1), StateAt(n))
  {
    if n < 3 {
      SlowStep(n - 1, 0, 0);
    } else if n < 12 {
      PusherStep(n - 3);
    } else if n < 26 {
      PopperStep(n - 12);
    } else {
      SlowStep(2, 9, 14);
    }
  }

  lemma StaleRun() returns (run: seq<State>)
    ensures Run(TWO_ONE, run) && |run| == 27 && run[26] == After(3, 9, 14)
  {
    run := seq(27, n requires 0 <= n => StateAt(n));
    AfterShape(0, 0, 0);
    assert Init(TWO_ONE, run[0]);
    forall n | 0 < n < |run| ensures StepAt(TWO_ONE, run, n) {
      StateSteps(n);
    }
  }

  lemma StalePositions()
    ensures LowestOf(After(3, 9, 14).push) == 0 && LowestOf(After(3, 9, 14).pop) == 1
  {
    var push, pop := After(3, 9, 14).push, After(3, 9, 14).pop;
    assert push.ann[..1] == [At(0)] && push.ann[..1][..0] == [] && pop.ann[..0] == [];
    assert Lowest(1, push.ann[..1]) == 0;
  }

  lemma NothingChosen(low: nat, high: Pos, announced: seq<Pos>, saved: seq<Pos>)
    requires |announced| == |saved| && forall i :: 0 <= i < |saved| ==> saved[i].Max? || saved[i].n <= low
    ensures Chosen(low, high, announced, saved) == []
  {
    NothingQualifies(low, high, announced, saved, |saved|);
  }

  /** Recovery from here has nothing to move, and ends with tail_ at 1 and head_ at 0. */
  ghost predicate EndsApart(s: State) {
    && |s.push.ann| == |s.push.pos| && |s.pop.ann| == |s.pop.pos|
    && LowestOf(s.push) == 0 && Chosen(0, Max, s.push.ann, s.push.pos) == []
    && LowestOf(s.pop) == 1 && Chosen(1, At(0), s.pop.ann, s.pop.pos) == []
  }

  /** A run that ends there: what is pushed next, after recovery, is never popped. */
  lemma StaleCrashIsNotRecoverable()
    ensures exists run: seq<State> :: Run(TWO_ONE, run) && |run| == 27 && EndsApart(run[26])
  {
    var run := StaleRun();
    StalePositions();
    var s := After(3, 9, 14);
    NothingChosen(0, Max, s.push.ann, s.push.pos);
    NothingChosen(1, At(0), s.pop.ann, s.pop.pos);
    assert run[26] == s;
  }
}
