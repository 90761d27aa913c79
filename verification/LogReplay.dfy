/** The redo log of the list (linkedlist/linkedlist.c:91-118, 256-271). After a crash recover goes through
    the per-thread log entries and carries out those in flight. It runs as thread 0, so the nested add or
    remove writes to entry 0 of the log it is replaying. Crashes may interrupt it anywhere. */
module LogReplay {

  datatype Req = ReqAdd | ReqRemove

  datatype LogEntry = LogEntry(inFlight: bool, req: Req, val: int)

  /** The effect of a list operation on the key set. */
  function Apply(keys: set<int>, e: LogEntry): set<int> {
    match e.req
    case ReqAdd => keys + {e.val}
    case ReqRemove => keys - {e.val}
  }

  function Redo(keys: set<int>, e: LogEntry): set<int> {
    if e.inFlight then Apply(keys, e) else keys
  }

  /** One uninterrupted replay, in slot order. */
  function ReplayFrom(keys: set<int>, log: seq<LogEntry>, i: nat): set<int>
    decreases |log| - i
  {
    if i >= |log| then keys else ReplayFrom(Redo(keys, log[i]), log, i + 1)
  }

  /** Entry j is the last one in flight for key v. */
  predicate LastFor(log: seq<LogEntry>, v: int, j: nat) {
    && j < |log| && log[j].inFlight && log[j].val == v
    && forall k :: j < k < |log| ==> !(log[k].inFlight && log[k].val == v)
  }

  predicate NoneFor(log: seq<LogEntry>, v: int, i: nat) {
    forall k :: i <= k < |log| ==> !(log[k].inFlight && log[k].val == v)
  }

  /** What one replay means for each key: the last entry in flight for it decides. */
  lemma {:induction false} LastEntryDecides(keys: set<int>, log: seq<LogEntry>, i: nat, v: int)
    requires i <= |log|
    ensures v in ReplayFrom(keys, log, i) <==>
              (exists j: nat :: i <= j && LastFor(log, v, j) && log[j].req.ReqAdd?) || (NoneFor(log, v, i) && v in keys)
    decreases |log| - i
  {
    if i < |log| {
      LastEntryDecides(Redo(keys, log[i]), log, i + 1, v);
      if log[i].inFlight && log[i].val == v {
        assert NoneFor(log, v, i + 1) <==> LastFor(log, v, i);
      } else {
        assert NoneFor(log, v, i) <==> NoneFor(log, v, i + 1);
      }
      LastForIsOne(log, v);
    }
  }

  lemma LastForIsOne(log: seq<LogEntry>, v: int)
    ensures forall j: nat, k: nat {:trigger LastFor(log, v, j), LastFor(log, v, k)} ::
              LastFor(log, v, j) && LastFor(log, v, k) ==> j == k
    ensures forall j: nat, i: nat {:trigger LastFor(log, v, j), NoneFor(log, v, i)} ::
              LastFor(log, v, j) && NoneFor(log, v, i) ==> j < i
  {}

  lemma LastEntriesDecide(keys: set<int>, log: seq<LogEntry>)
    ensures forall v :: v in ReplayFrom(keys, log, 0) <==>
              (exists j: nat :: LastFor(log, v, j) && log[j].req.ReqAdd?) || (NoneFor(log, v, 0) && v in keys)
  {
    forall v ensures v in ReplayFrom(keys, log, 0) <==>
                (exists j: nat :: LastFor(log, v, j) && log[j].req.ReqAdd?) || (NoneFor(log, v, 0) && v in keys)
    {
      LastEntryDecides(keys, log, 0, v);
    }
  }

  /** Look: the test of the loop, and of entry i. Begin: p_list_search of an add. SetReq, SetVal, SetFlight
      and FlushNested: set_tlog. Act: the rest of the list operation. ClearNested and FlushCleared:
      clear_tlog. ClearOuter and FlushOuter: the entry is cleared by recover itself. */
  datatype PC = Look | Begin | SetReq | SetVal | SetFlight | FlushNested | Act | ClearNested | FlushCleared
              | ClearOuter | FlushOuter | Done

  /** `log` is what the caches hold and `dlog` what persistent memory holds; `op` is the entry being redone. */
  datatype State = State(keys: set<int>, log: seq<LogEntry>, dlog: seq<LogEntry>, i: nat, pc: PC, op: LogEntry)

  predicate Sized(s: State) {
    |s.log| == |s.dlog| && |s.log| > 0 && (s.pc == Look || s.pc == Done || s.i < |s.log|)
  }

  function Flush(s: State, x: nat): State
    requires x < |s.log| == |s.dlog|
  {
    s.(dlog := s.dlog[x := s.log[x]])
  }

  function Next(s: State): State
    requires Sized(s)
  {
    match s.pc
    case Look =>
      if s.i >= |s.log| then s.(pc := Done)
      else if s.log[s.i].inFlight then s.(pc := Begin, op := s.log[s.i])
      else s.(i := s.i + 1)
    case Begin =>
      s.(pc := if s.op.req.ReqAdd? && s.op.val in s.keys then ClearOuter else SetReq)
    case SetReq => s.(log := s.log[0 := s.log[0].(req := s.op.req)], pc := SetVal)
    case SetVal => s.(log := s.log[0 := s.log[0].(val := s.op.val)], pc := SetFlight)
    case SetFlight => s.(log := s.log[0 := s.log[0].(inFlight := true)], pc := FlushNested)
    case FlushNested => Flush(s, 0).(pc := Act)
    case Act => s.(keys := Apply(s.keys, s.op), pc := ClearNested)
    case ClearNested => s.(log := s.log[0 := s.log[0].(inFlight := false)], pc := FlushCleared)
    case FlushCleared => Flush(s, 0).(pc := ClearOuter)
    case ClearOuter => s.(log := s.log[s.i := s.log[s.i].(inFlight := false)], pc := FlushOuter)
    case FlushOuter => Flush(s, s.i).(pc := Look, i := s.i + 1)
    case Done => s
  }

  /** A crash loses the caches; recovery starts over. */
  function Crash(s: State): State { s.(log := s.dlog, i := 0, pc := Look) }

  ghost predicate Step(s: State, s': State) {
    && Sized(s)
    && (s' == Next(s) || s' == Crash(s) || exists x: nat :: x < |s.log| && s' == Flush(s, x))
  }

  predicate Start(s: State, keys: set<int>, log: seq<LogEntry>) {
    s.keys == keys && s.log == log && s.dlog == log && |log| > 0 && s.i == 0 && s.pc == Look
  }

  ghost predicate Run(run: seq<State>, keys: set<int>, log: seq<LogEntry>) {
    && |run| > 0 && Start(run[0], keys, log)
    && forall n :: 0 < n < |run| ==> Step(run[n - 1], run[n])
  }

  // The invariant.

  /** The list operation has been carried out. */
  predicate Acted(s: State) {
    s.pc == ClearNested || s.pc == FlushCleared || s.pc == ClearOuter || s.pc == FlushOuter
  }

  /** A log line at work: cleared, or a copy of the operation being redone. */
  predicate LineOk(e: LogEntry, op: LogEntry) { e.inFlight ==> e == op }

  /** Outside the loop's work on an entry. */
  ghost predicate Resting(s: State, goal: set<int>) {
    && s.log == s.dlog && s.i <= |s.log|
    && (forall j :: 0 <= j < s.i ==> !s.log[j].inFlight)
    && ReplayFrom(s.keys, s.dlog, s.i) == goal
  }

  /** The log lines while entry i is redone. */
  ghost predicate LinesOk(s: State)
    requires |s.log| == |s.dlog| && s.i < |s.log|
  {
    && s.op.inFlight
    && (forall j :: 0 < j < |s.log| && j != s.i ==> s.log[j] == s.dlog[j])
    && (forall j :: 0 < j < s.i ==> !s.log[j].inFlight)
    && LineOk(s.log[0], s.op) && LineOk(s.dlog[0], s.op) && LineOk(s.log[s.i], s.op) && LineOk(s.dlog[s.i], s.op)
    && (s.pc == SetVal || s.pc == SetFlight ==> s.log[0].req == s.op.req)
    && (s.pc == SetFlight ==> s.log[0].val == s.op.val)
    && (s.pc == FlushCleared ==> !s.log[0].inFlight)
    && (s.pc == FlushOuter ==> !s.log[s.i].inFlight)
    && ((s.pc == ClearOuter || s.pc == FlushOuter) && s.i > 0 ==> s.log[0] == s.dlog[0] && !s.log[0].inFlight)
    && (s.pc == Begin ==> s.i > 0 ==> s.log[0] == s.dlog[0] && !s.log[0].inFlight)
  }

  /** While entry i is redone. */
  ghost predicate Working(s: State, goal: set<int>)
    requires |s.log| == |s.dlog| && s.i < |s.log|
  {
    && LinesOk(s)
    && (if Acted(s) then Apply(s.keys, s.op) == s.keys else s.log[s.i].inFlight && s.dlog[s.i].inFlight)
    && ReplayFrom(Apply(s.keys, s.op), s.dlog, s.i + 1) == goal
  }

  ghost predicate Inv(s: State, goal: set<int>) {
    && Sized(s)
    && match s.pc
       case Look => Resting(s, goal)
       case Done => Resting(s, goal) && s.i == |s.log|
       case _ => Working(s, goal)
  }

  lemma ApplyTwice(keys: set<int>, e: LogEntry)
    ensures Apply(Apply(keys, e), e) == Apply(keys, e)
  {}

  /** Cleared entries do not matter. */
  lemma {:induction false} SkipCleared(keys: set<int>, log: seq<LogEntry>, a: nat, b: nat)
    requires a <= b <= |log| && forall j :: a <= j < b ==> !log[j].inFlight
    ensures ReplayFrom(keys, log, a) == ReplayFrom(keys, log, b)
    decreases b - a
  {
    if a < b {
      SkipCleared(keys, log, a + 1, b);
    }
  }

  /** Nor do entries already passed. */
  lemma {:induction false} OnlyRestMatters(keys: set<int>, log: seq<LogEntry>, log': seq<LogEntry>, i: nat)
    requires |log| == |log'| && forall j :: i <= j < |log| ==> log[j] == log'[j]
    ensures ReplayFrom(keys, log, i) == ReplayFrom(keys, log', i)
    decreases |log| - i
  {
    if i < |log| {
      OnlyRestMatters(Redo(keys, log[i]), log, log', i + 1);
    }
  }

  /** Starting over from persistent memory leads to the same key set. */
  lemma CrashKeepsInv(s: State, goal: set<int>)
    requires Inv(s, goal)
    ensures Inv(Crash(s), goal)
  {
    if s.pc == Look || s.pc == Done {
      SkipCleared(s.keys, s.dlog, 0, s.i);
    } else {
      var keys := Redo(s.keys, s.dlog[0]);
      ApplyTwice(s.keys, s.op);
      if s.i > 0 {
        SkipCleared(keys, s.dlog, 1, s.i);
        assert ReplayFrom(s.keys, s.dlog, 0) == ReplayFrom(Redo(keys, s.dlog[s.i]), s.dlog, s.i + 1);
      }
    }
  }

  lemma FlushKeepsLines(s: State, x: nat)
    requires |s.log| == |s.dlog| && s.i < |s.log| && LinesOk(s) && x < |s.log|
    ensures LinesOk(Flush(s, x))
  {}

  /** At rest both copies of the log are the same. */
  lemma FlushAtRest(s: State, x: nat, goal: set<int>)
    requires Inv(s, goal) && x < |s.log| && (s.pc == Look || s.pc == Done)
    ensures Flush(s, x) == s
  {}

  lemma FlushAtWork(s: State, x: nat, goal: set<int>)
    requires |s.log| == |s.dlog| && s.i < |s.log| && x < |s.log| && Working(s, goal)
    ensures Working(Flush(s, x), goal)
  {
    FlushKeepsLines(s, x);
    OnlyRestMatters(Apply(s.keys, s.op), s.dlog, Flush(s, x).dlog, s.i + 1);
  }

  lemma FlushKeepsInv(s: State, x: nat, goal: set<int>)
    requires Inv(s, goal) && x < |s.log|
    ensures Inv(Flush(s, x), goal)
  {
    if s.pc == Look || s.pc == Done {
      FlushAtRest(s, x, goal);
    } else {
      FlushAtWork(s, x, goal);
    }
  }

  lemma ActKeepsInv(s: State, goal: set<int>)
    requires Inv(s, goal) && (s.pc == Begin || s.pc == Act)
    ensures Inv(Next(s), goal)
  {
    ApplyTwice(s.keys, s.op);
    if s.pc == Begin && s.op.req.ReqAdd? && s.op.val in s.keys {
      assert Apply(s.keys, s.op) == s.keys;
    }
  }

  lemma FinishKeepsInv(s: State, goal: set<int>)
    requires Inv(s, goal) && s.pc == FlushOuter
    ensures Inv(Next(s), goal)
  {
    var s' := Next(s);
    OnlyRestMatters(Apply(s.keys, s.op), s.dlog, s'.dlog, s.i + 1);
    assert s'.log == s'.dlog;
  }

  lemma LookKeepsInv(s: State, goal: set<int>)
    requires Inv(s, goal) && s.pc == Look
    ensures Inv(Next(s), goal)
  {}

  /** Steps that write the log in the caches. */
  lemma WriteKeepsInv(s: State, goal: set<int>)
    requires Inv(s, goal)
    requires s.pc == SetReq || s.pc == SetVal || s.pc == SetFlight || s.pc == ClearNested || s.pc == ClearOuter
    ensures Inv(Next(s), goal)
  {
    var s' := Next(s);
    assert s'.dlog == s.dlog && s'.keys == s.keys && s'.i == s.i && s'.op == s.op;
    assert LinesOk(s');
  }

  lemma PersistKeepsInv(s: State, goal: set<int>)
    requires Inv(s, goal) && (s.pc == FlushNested || s.pc == FlushCleared)
    ensures Inv(Next(s), goal)
  {
    OnlyRestMatters(Apply(s.keys, s.op), s.dlog, Next(s).dlog, s.i + 1);
    assert LinesOk(Next(s));
  }

  lemma NextKeepsInv(s: State, goal: set<int>)
    requires Inv(s, goal)
    ensures Inv(Next(s), goal)
  {
    if s.pc.Look? {
      LookKeepsInv(s, goal);
    } else if s.pc.Begin? || s.pc.Act? {
      ActKeepsInv(s, goal);
    } else if s.pc.FlushNested? || s.pc.FlushCleared? {
      PersistKeepsInv(s, goal);
    } else if s.pc.FlushOuter? {
      FinishKeepsInv(s, goal);
    } else if !s.pc.Done? {
      WriteKeepsInv(s, goal);
    }
  }

  lemma StepKeepsInv(s: State, s': State, goal: set<int>)
    requires Inv(s, goal) && Step(s, s')
    ensures Inv(s', goal)
  {
    if s' == Next(s) {
      NextKeepsInv(s, goal);
    } else if s' == Crash(s) {
      CrashKeepsInv(s, goal);
    } else {
      var x: nat :| x < |s.log| && s' == Flush(s, x);
      FlushKeepsInv(s, x, goal);
    }
  }

  lemma {:induction false} RunsKeepInv(run: seq<State>, keys: set<int>, log: seq<LogEntry>, n: nat)
    requires Run(run, keys, log) && n < |run|
    ensures Inv(run[n], ReplayFrom(keys, log, 0))
  {
    if n > 0 {
      RunsKeepInv(run, keys, log, n - 1);
      StepKeepsInv(run[n - 1], run[n], ReplayFrom(keys, log, 0));
    }
  }

  /** However often recovery crashes and starts over, wherever it crashes, and whatever log lines have
      reached persistent memory by then: once it is done, a key is present exactly if the last entry that was
      in flight for it is an add, or there was none and it was present before, as after one uninterrupted
      replay. Every entry is cleared, in the caches and in persistent memory. */
  lemma ReplaySurvivesCrashes(run: seq<State>, keys: set<int>, log: seq<LogEntry>, n: nat)
    requires Run(run, keys, log) && n < |run| && run[n].pc == Done
    ensures forall v :: v in run[n].keys <==>
              (exists j: nat :: LastFor(log, v, j) && log[j].req.ReqAdd?) || (NoneFor(log, v, 0) && v in keys)
    ensures run[n].keys == ReplayFrom(keys, log, 0)
    ensures |run[n].log| == |log| && run[n].dlog == run[n].log
    ensures forall j :: 0 <= j < |log| ==> !run[n].log[j].inFlight
  {
    RunsKeepInv(run, keys, log, n);
    LogKeepsLength(run, keys, log, n);
    LastEntriesDecide(keys, log);
    assert run[n].i == |run[n].log|;
  }

  lemma {:induction false} LogKeepsLength(run: seq<State>, keys: set<int>, log: seq<LogEntry>, n: nat)
    requires Run(run, keys, log) && n < |run|
    ensures |run[n].log| == |run[n].dlog| == |log|
  {
    if n > 0 {
      LogKeepsLength(run, keys, log, n - 1);
      StepKeepsLength(run[n - 1], run[n]);
    }
  }

  lemma StepKeepsLength(s: State, s': State)
    requires Step(s, s')
    ensures |s'.log| == |s.log| && |s'.dlog| == |s.dlog|
  {}

  // A replay that is not interrupted.

  function StageOf(pc: PC): nat {
    match pc
    case Look => 12
    case Begin => 11
    case SetReq => 10
    case SetVal => 9
    case SetFlight => 8
    case FlushNested => 7
    case Act => 6
    case ClearNested => 5
    case FlushCleared => 4
    case ClearOuter => 3
    case FlushOuter => 2
    case Done => 0
  }

  ghost function Undisturbed(s: State): State
    requires Sized(s) && s.i <= |s.log|
    decreases |s.log| - s.i, StageOf(s.pc)
  {
    if s.pc == Done then s else Undisturbed(Next(s))
  }

  /** Left alone, replay reaches its end from every state that crashes can lead to. */
  lemma {:induction false} ReplayFinishes(s: State, goal: set<int>)
    requires Inv(s, goal)
    ensures s.i <= |s.log|
    ensures Undisturbed(s).pc == Done && Undisturbed(s).keys == goal
    decreases |s.log| - s.i, StageOf(s.pc)
  {
    if s.pc != Done {
      NextKeepsInv(s, goal);
      ReplayFinishes(Next(s), goal);
    }
  }
}
