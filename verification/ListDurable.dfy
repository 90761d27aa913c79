/** The durable image in ADR mode. Persistent memory may lag behind the caches, but a thread that changes
    a link persists it before its operation ends, and until then its reservation keeps the node the
    stale link leads to. So, from the moment on that the head's own line is durable, the durable links form
    a sorted path from head to tail over allocated slots. */
module ListDurable {
  import opened ListCommon
  import opened ListMachine
  import opened ListInv
  import opened ListHeap
  import opened ListStable
  import opened ListSteps
  import opened ListEffects
  import opened ListUpdates
  import opened ListSafety

  /** The line a thread has changed and not yet persisted. */
  function Owes(t: Thread): Option {
    if t.pc.SPersist? || t.pc.APersistLeft? || t.pc.RPersistLeft? || InRetireOfRemove(t) then Some(t.left) else None
  }

  /** Linked, or in view of a running operation. */
  ghost predicate Live(s: State, x: nat) {
    IsLinked(s.sh, x) || exists p :: 0 <= p < |s.th| && InView(s, p, x)
  }

  predicate InView(s: State, p: nat, x: nat)
    requires p < |s.th|
  {
    Running(s.th[p]) && Protected(s.sh, s.th[p].since, x)
  }

  predicate UpToDate(sh: Shared, x: nat) {
    DNxt(sh, x).idx == Nxt(sh, x).idx && DDat(sh, x) == Dat(sh, x)
  }

  /** The durable link is stale, and some thread that still owes the line protects where it leads. */
  ghost predicate Covered(s: State, x: nat) {
    exists p :: 0 <= p < |s.th| && Covers(s, p, x)
  }

  predicate Covers(s: State, p: nat, x: nat)
    requires p < |s.th|
  {
    Owes(s.th[p]) == Some(x) && InView(s, p, DNxt(s.sh, x).idx)
  }

  ghost predicate LineOk(s: State, x: nat) {
    && DDat(s.sh, x) == Dat(s.sh, x)
    && Lt(s.sh, x, DNxt(s.sh, x).idx)
    && (DNxt(s.sh, x).idx == Nxt(s.sh, x).idx || Covered(s, x))
  }

  /** The head's line has not reached persistent memory since init. */
  predicate HeadIsStale(sh: Shared) { DNxt(sh, HEAD).idx == HEAD }

  predicate Settled(sh: Shared, x: nat) { x != TAIL && !(x == HEAD && HeadIsStale(sh)) }

  ghost predicate DurableOk(s: State) {
    && (forall x: nat {:trigger LineOk(s, x)} :: Live(s, x) && Settled(s.sh, x) ==> LineOk(s, x))
    && !DNxt(s.sh, HEAD).mark && !DNxt(s.sh, TAIL).mark && DDat(s.sh, HEAD) == INT_MIN
  }

  // The discipline every step follows.

  /** A changed link is owed by the thread that changed it, which protects the old target; a debt ends
      only by persisting the line; a new node is durable before it is linked. */
  ghost predicate Disciplined(sh: Shared, t: Thread, sh': Shared, t': Thread, x: nat) {
    && (Published(sh, x) && Nxt(sh', x).idx != Nxt(sh, x).idx ==>
          Owes(t') == Some(x) && Running(t') && Protected(sh', t'.since, Nxt(sh, x).idx))
    && (Owes(t) == Some(x) && Owes(t') != Some(x) ==> UpToDate(sh', x))
    && (LineSame(sh, sh', x) || UpToDate(sh', x))
    && (St(sh, x).Private? && IsLinked(sh', x) ==> UpToDate(sh', x))
  }

  /** Steps that leave links, lines and debts alone. */
  ghost predicate Harmless(sh: Shared, t: Thread, sh': Shared, t': Thread) {
    && sh'.next == sh.next && sh'.dnext == sh.dnext && sh'.ddata == sh.ddata
    && (Owes(t') == Owes(t) || Owes(t) == None)
    && (forall x: nat :: IsLinked(sh', x) ==> IsLinked(sh, x))
  }

  lemma HarmlessIsDisciplined(sh: Shared, t: Thread, sh': Shared, t': Thread, x: nat)
    requires Harmless(sh, t, sh', t')
    ensures Disciplined(sh, t, sh', t', x)
  {}

  lemma PersistIsDisciplined(c: Config, sh: Shared, t: Thread, y: nat, t': Thread, x: nat)
    requires Sizes(c, sh) && y < c.slots && (Owes(t) == None || Owes(t) == Some(y))
    ensures Disciplined(sh, t, Persist(sh, y), t', x)
  {}

  lemma StartDiscipline(sh: Shared, p: nat, t: Thread, op: Op, val: int)
    requires PhaseOf(t) == Outside || PhaseOf(t) == Starting
    ensures Harmless(sh, t, StartStep(sh, p, t, op, val).0, StartStep(sh, p, t, op, val).1)
  {}

  lemma TestDiscipline(sh: Shared, p: nat, t: Thread)
    requires t.pc == STest
    ensures Harmless(sh, t, SearchStep(sh, p, t).0, SearchStep(sh, p, t).1)
  {
    AdvanceShape(t);
    DecideShape(t, t.t);
  }

  lemma WalkDiscipline(sh: Shared, p: nat, t: Thread)
    requires t.pc == SHead || t.pc == STest || t.pc == SNext || PhaseOf(t) == Deciding || t.pc == SRetNext
    ensures Harmless(sh, t, SearchStep(sh, p, t).0, SearchStep(sh, p, t).1)
  {
    if t.pc == STest {
      TestDiscipline(sh, p, t);
    }
  }

  lemma SnipDiscipline(c: Config, sh: Shared, p: nat, t: Thread, right: nat, path: seq<nat>, t': Thread, x: nat)
    requires HeapOk(c, sh) && CanSnip(sh, t.left, path, right) && Protected(sh, t.since, path[0])
    requires t.since <= sh.snips && t'.since == t.since && Running(t') && Owes(t) == None && Owes(t') == Some(t.left)
    ensures Disciplined(sh, t, SnipNodes(sh, p, t.left, right, path), t', x)
  {
    SnipEffect(sh, p, t.left, right, path, x);
    SnipEffect(sh, p, t.left, right, path, path[0]);
    SnipKeepsChain(c, sh, p, t.left, path, right);
  }

  lemma SearchDiscipline(c: Config, sh: Shared, p: nat, t: Thread, x: nat)
    requires HeapOk(c, sh) && ThreadsOk(sh, map[p := t]) && t.pc == SCas
    ensures Disciplined(sh, t, SearchStep(sh, p, t).0, SearchStep(sh, p, t).1, x)
  {
    if Nxt(sh, t.left) == Link(t.ln, false) {
      CasDiscipline(c, sh, p, t, x);
    } else {
      HarmlessIsDisciplined(sh, t, sh, Again(t), x);
    }
  }

  lemma CasDiscipline(c: Config, sh: Shared, p: nat, t: Thread, x: nat)
    requires HeapOk(c, sh) && ThreadsOk(sh, map[p := t]) && t.pc == SCas && Nxt(sh, t.left) == Link(t.ln, false)
    ensures Disciplined(sh, t, SearchStep(sh, p, t).0, SearchStep(sh, p, t).1, x)
  {
    ThreadFrame(sh, p, t);
    ThreadPoint(sh, p, t);
    CasCanSnip(c, sh, t);
    assert MarkedAt(sh, t.since, t.path, t.right, 0);
    SnipDiscipline(c, sh, p, t, t.right, t.path, SearchStep(sh, p, t).1, x);
  }

  lemma LinkDiscipline(c: Config, sh: Shared, p: nat, t: Thread, x: nat)
    requires HeapOk(c, sh) && OwnsOk(sh, p, t) && NewNodeOk(sh, t) && AbsentOk(sh, t) && t.pc == ALink && t.neu.Some?
    requires Nxt(sh, t.left) == Link(t.right, false)
    ensures Disciplined(sh, t, LinkNode(sh, t.left, t.neu.value), LinkedIn(sh, t), x)
  {
    AddCanLink(c, sh, p, t);
    assert Protected(sh, t.since, t.right) && t.right != t.neu.value;
    LinkingDiscipline(c, sh, p, t, x);
  }

  lemma LinkingDiscipline(c: Config, sh: Shared, p: nat, t: Thread, x: nat)
    requires HeapOk(c, sh) && t.pc == ALink && t.neu.Some? && CanLink(sh, p, t.left, t.right, t.neu.value)
    requires DNxt(sh, t.neu.value) == Nxt(sh, t.neu.value) && DDat(sh, t.neu.value) == Dat(sh, t.neu.value)
    requires Protected(sh, t.since, t.right) && t.right != t.neu.value
    ensures Disciplined(sh, t, LinkNode(sh, t.left, t.neu.value), LinkedIn(sh, t), x)
  {
    LinkedAfterLink(c, sh, p, t.left, t.right, t.neu.value, x);
  }

  lemma LinkIsDisciplined(c: Config, sh: Shared, p: nat, t: Thread, x: nat)
    requires HeapOk(c, sh) && ThreadsOk(sh, map[p := t]) && t.pc == ALink && Nxt(sh, t.left) == Link(t.right, false)
    ensures t.neu.Some? && Disciplined(sh, t, LinkNode(sh, t.left, t.neu.value), LinkedIn(sh, t), x)
  {
    ThreadFrame(sh, p, t);
    ThreadBook(sh, p, t);
    ThreadPoint(sh, p, t);
    LinkDiscipline(c, sh, p, t, x);
  }

  lemma NewNodeKnown(c: Config, sh: Shared, p: nat, t: Thread)
    requires HeapOk(c, sh) && ThreadsOk(sh, map[p := t]) && (PhaseOf(t) == Adding || PhaseOf(t) == Persisting)
    ensures t.neu.Some? ==> St(sh, t.neu.value) == Private(p) && t.neu.value < c.slots
    ensures PhaseOf(t) == Adding && t.pc != AAlloc ==> t.neu.Some?
    ensures PhaseOf(t) == Persisting ==> t.left < c.slots
  {
    ThreadFrame(sh, p, t);
    ThreadBook(sh, p, t);
    ThreadPoint(sh, p, t);
    if t.neu.Some? {
      assert OwnsSlot(sh, p, t, t.neu.value);
    }
  }

  lemma NewNodeDiscipline(sh: Shared, p: nat, t: Thread, y: nat, x: nat)
    requires t.pc == AAlloc || t.pc == AData || t.pc == ANext
    requires t.pc != AAlloc ==> t.neu.Some? && St(sh, t.neu.value).Private?
    ensures Disciplined(sh, t, AddStep(sh, p, t, y).0, AddStep(sh, p, t, y).1, x)
  {
    if t.pc == AAlloc {
      AllocDiscipline(sh, p, t, y, x);
    } else {
      FillDiscipline(sh, p, t, y, x);
    }
  }

  lemma AllocDiscipline(sh: Shared, p: nat, t: Thread, y: nat, x: nat)
    requires t.pc == AAlloc
    ensures Disciplined(sh, t, AddStep(sh, p, t, y).0, AddStep(sh, p, t, y).1, x)
  {}

  lemma FillDiscipline(sh: Shared, p: nat, t: Thread, y: nat, x: nat)
    requires (t.pc == AData || t.pc == ANext) && t.neu.Some? && St(sh, t.neu.value).Private?
    ensures Disciplined(sh, t, AddStep(sh, p, t, y).0, AddStep(sh, p, t, y).1, x)
  {}

  lemma FailedLinkDiscipline(sh: Shared, p: nat, t: Thread, y: nat, x: nat)
    requires t.pc == ALink && Nxt(sh, t.left) != Link(t.right, false)
    ensures Disciplined(sh, t, AddStep(sh, p, t, y).0, AddStep(sh, p, t, y).1, x)
  {}

  lemma AddDiscipline(c: Config, sh: Shared, p: nat, t: Thread, y: nat, x: nat)
    requires HeapOk(c, sh) && ThreadsOk(sh, map[p := t]) && PhaseOf(t) == Adding
    ensures Disciplined(sh, t, AddStep(sh, p, t, y).0, AddStep(sh, p, t, y).1, x)
  {
    NewNodeKnown(c, sh, p, t);
    if t.pc.ALink? {
      if Nxt(sh, t.left) == Link(t.right, false) {
        LinkIsDisciplined(c, sh, p, t, x);
      } else {
        FailedLinkDiscipline(sh, p, t, y, x);
      }
    } else if t.pc.APersistNew? {
      PersistIsDisciplined(c, sh, t, t.neu.value, AddStep(sh, p, t, y).1, x);
    } else {
      NewNodeDiscipline(sh, p, t, y, x);
    }
  }

  lemma RemoveSnipDiscipline(c: Config, sh: Shared, p: nat, t: Thread, x: nat)
    requires HeapOk(c, sh) && ThreadsOk(sh, map[p := t]) && SnipsIt(sh, t)
    ensures Disciplined(sh, t, SnipNodes(sh, p, t.left, t.ri.idx, [t.right]), SnippedIt(t), x)
  {
    ThreadFrame(sh, p, t);
    ThreadPoint(sh, p, t);
    RemoveCanSnip(c, sh, t);
    SnipDiscipline(c, sh, p, t, t.ri.idx, [t.right], SnippedIt(t), x);
  }

  lemma RightKnown(sh: Shared, p: nat, t: Thread)
    requires ThreadsOk(sh, map[p := t]) && PhaseOf(t) == Removing
    ensures Protected(sh, t.since, t.right)
  {
    ThreadPoint(sh, p, t);
  }

  lemma RemoveDiscipline(c: Config, sh: Shared, p: nat, t: Thread, x: nat)
    requires HeapOk(c, sh) && ThreadsOk(sh, map[p := t]) && PhaseOf(t) == Removing
    ensures Disciplined(sh, t, RemoveStep(sh, p, t).0, RemoveStep(sh, p, t).1, x)
  {
    RightKnown(sh, p, t);
    if t.pc == RPersistMark {
      PersistIsDisciplined(c, sh, t, t.right, t.(pc := RSnip), x);
    } else if SnipsIt(sh, t) {
      RemoveSnipDiscipline(c, sh, p, t, x);
    }
  }

  lemma EpochDiscipline(c: Config, sh: Shared, p: nat, t: Thread)
    requires t.pc == EEpoch || t.pc == EBump
    ensures Harmless(sh, t, RetireStep(c, sh, p, t).0, RetireStep(c, sh, p, t).1)
  {}

  lemma ScanDiscipline(c: Config, sh: Shared, p: nat, t: Thread)
    requires Scanning(t)
    ensures Harmless(sh, t, RetireStep(c, sh, p, t).0, RetireStep(c, sh, p, t).1)
  {}

  lemma FreeDiscipline(c: Config, sh: Shared, p: nat, t: Thread)
    requires t.pc == EFree
    ensures Harmless(sh, t, RetireStep(c, sh, p, t).0, RetireStep(c, sh, p, t).1)
  {}

  lemma RetireDiscipline(c: Config, sh: Shared, p: nat, t: Thread)
    requires t.pc == EEpoch || t.pc == EBump || t.pc == EScan || t.pc == ELoad || t.pc == EFree
    ensures Harmless(sh, t, RetireStep(c, sh, p, t).0, RetireStep(c, sh, p, t).1)
  {
    if t.pc.EEpoch? || t.pc.EBump? {
      EpochDiscipline(c, sh, p, t);
    } else if t.pc.EScan? || t.pc.ELoad? {
      ScanDiscipline(c, sh, p, t);
    } else {
      FreeDiscipline(c, sh, p, t);
    }
  }

  lemma EndDiscipline(sh: Shared, p: nat, t: Thread)
    requires PhaseOf(t) == Ending || PhaseOf(t) == Ended
    ensures Harmless(sh, t, EndStep(sh, p, t).0, EndStep(sh, p, t).1)
  {}

  lemma LeftKnown(sh: Shared, p: nat, t: Thread)
    requires ThreadsOk(sh, map[p := t]) && t.pc == SPersist
    ensures Protected(sh, t.since, t.left)
  {
    ThreadPoint(sh, p, t);
  }

  lemma SnipPersistDiscipline(c: Config, sh: Shared, p: nat, t: Thread, x: nat)
    requires HeapOk(c, sh) && ThreadsOk(sh, map[p := t]) && t.pc == SPersist
    ensures Disciplined(sh, t, SearchStep(sh, p, t).0, SearchStep(sh, p, t).1, x)
  {
    LeftKnown(sh, p, t);
    PersistIsDisciplined(c, sh, t, t.left, RetireLoop(t, t.ln), x);
  }

  lemma PersistingDiscipline(c: Config, sh: Shared, p: nat, t: Thread, op: Op, val: int, y: nat, x: nat)
    requires HeapOk(c, sh) && ThreadsOk(sh, map[p := t]) && PhaseOf(t) == Persisting
    ensures Disciplined(sh, t, Move(c, sh, p, t, op, val, y).0, Move(c, sh, p, t, op, val, y).1, x)
  {
    NewNodeKnown(c, sh, p, t);
    PersistIsDisciplined(c, sh, t, t.left, Finish(t, true), x);
  }

  lemma SearchingDiscipline(c: Config, sh: Shared, p: nat, t: Thread, x: nat)
    requires HeapOk(c, sh) && ThreadsOk(sh, map[p := t])
    requires t.pc == SHead || PhaseOf(t) == Walking || PhaseOf(t) == Deciding || t.pc == SPersist || t.pc == SRetNext
    ensures Disciplined(sh, t, SearchStep(sh, p, t).0, SearchStep(sh, p, t).1, x)
  {
    if t.pc.SCas? {
      SearchDiscipline(c, sh, p, t, x);
    } else if t.pc.SPersist? {
      SnipPersistDiscipline(c, sh, p, t, x);
    } else {
      WalkDiscipline(sh, p, t);
      HarmlessIsDisciplined(sh, t, SearchStep(sh, p, t).0, SearchStep(sh, p, t).1, x);
    }
  }

  lemma RetiringDiscipline(c: Config, sh: Shared, p: nat, t: Thread, x: nat)
    requires t.pc == EEpoch || t.pc == EBump || t.pc == EScan || t.pc == ELoad || t.pc == EFree
    ensures Disciplined(sh, t, RetireStep(c, sh, p, t).0, RetireStep(c, sh, p, t).1, x)
  {
    RetireDiscipline(c, sh, p, t);
    HarmlessIsDisciplined(sh, t, RetireStep(c, sh, p, t).0, RetireStep(c, sh, p, t).1, x);
  }

  lemma StartingDiscipline(sh: Shared, p: nat, t: Thread, op: Op, val: int, x: nat)
    requires PhaseOf(t) == Outside || PhaseOf(t) == Starting
    ensures Disciplined(sh, t, StartStep(sh, p, t, op, val).0, StartStep(sh, p, t, op, val).1, x)
  {
    StartDiscipline(sh, p, t, op, val);
    HarmlessIsDisciplined(sh, t, StartStep(sh, p, t, op, val).0, StartStep(sh, p, t, op, val).1, x);
  }

  lemma EndingDiscipline(sh: Shared, p: nat, t: Thread, x: nat)
    requires PhaseOf(t) == Ending || PhaseOf(t) == Ended
    ensures Disciplined(sh, t, EndStep(sh, p, t).0, EndStep(sh, p, t).1, x)
  {
    EndDiscipline(sh, p, t);
    HarmlessIsDisciplined(sh, t, EndStep(sh, p, t).0, EndStep(sh, p, t).1, x);
  }

  lemma ReadingDiscipline(sh: Shared, t: Thread, x: nat)
    requires PhaseOf(t) == Reading
    ensures Disciplined(sh, t, sh, ContainsStep(sh, t), x)
  {
    HarmlessIsDisciplined(sh, t, sh, ContainsStep(sh, t), x);
  }

  lemma ThreadIsDisciplined(c: Config, sh: Shared, p: nat, t: Thread, op: Op, val: int, y: nat, x: nat)
    requires HeapOk(c, sh) && ThreadsOk(sh, map[p := t])
    ensures Disciplined(sh, t, Move(c, sh, p, t, op, val, y).0, Move(c, sh, p, t, op, val, y).1, x)
  {
    if RoutineOf(t.pc).Start? {
      StartingDiscipline(sh, p, t, op, val, x);
    } else if RoutineOf(t.pc).Contain? {
      ReadingDiscipline(sh, t, x);
    } else if RoutineOf(t.pc).Search? {
      SearchingDiscipline(c, sh, p, t, x);
    } else if PhaseOf(t).Adding? {
      AddDiscipline(c, sh, p, t, y, x);
    } else if PhaseOf(t).Removing? {
      RemoveDiscipline(c, sh, p, t, x);
    } else if t.pc.APersistLeft? || t.pc.RPersistLeft? {
      PersistingDiscipline(c, sh, p, t, op, val, y, x);
    } else if RoutineOf(t.pc).Retire? {
      RetiringDiscipline(c, sh, p, t, x);
    } else {
      EndingDiscipline(sh, p, t, x);
    }
  }

  /** Every step is disciplined. */
  lemma MoveIsDisciplined(c: Config, s: State, p: nat, op: Op, val: int, y: nat, x: nat)
    requires Inv(c, s) && p < c.threads
    ensures var (sh', t') := Move(c, s.sh, p, s.th[p], op, val, y);
            Disciplined(s.sh, s.th[p], sh', t', x)
  {
    assert ThreadsOk(s.sh, map[p := s.th[p]]);
    ThreadIsDisciplined(c, s.sh, p, s.th[p], op, val, y, x);
  }

  /** The line that the thread's next step persists. */
  function Persists(t: Thread): Option {
    if t.pc.SPersist? || t.pc.APersistLeft? || t.pc.RPersistLeft? then Some(t.left)
    else if t.pc.RPersistMark? then Some(t.right)
    else if t.pc.APersistNew? then t.neu
    else None
  }

  /** Lines reach persistent memory in no other way. */
  lemma MoveCopiesLines(c: Config, sh: Shared, p: nat, t: Thread, op: Op, val: int, y: nat)
    requires t.pc == APersistNew ==> t.neu.Some?
    ensures var sh' := Move(c, sh, p, t, op, val, y).0;
            if Persists(t).Some? then sh' == Persist(sh, Persists(t).value) else (sh'.dnext, sh'.ddata) == (sh.dnext, sh.ddata)
  {}

  // The discipline keeps the durable image in order.

  /** Whatever is live after a step was live before or has just been linked. */
  lemma LiveBefore(c: Config, s: State, p: nat, op: Op, val: int, y: nat, s': State, x: nat)
    requires Inv(c, s) && SteadyStepBy(c, s, p, op, val, y, s') && Evolves(c, s.sh, s'.sh, p)
    requires Live(s', x)
    ensures Live(s, x) || (St(s.sh, x).Private? && IsLinked(s'.sh, x))
  {
    assert SlotEvolves(s.sh, s'.sh, p, x);
    if !IsLinked(s'.sh, x) {
      var q :| 0 <= q < |s'.th| && InView(s', q, x);
      ReservationMoves(c, s.sh, p, s.th[p], op, val, y);
      assert GoneOk(s.sh, x);
      assert InView(s, q, x);
    }
  }

  /** The link of a live slot leads upwards. */
  lemma LiveLinkAscends(c: Config, s: State, x: nat)
    requires Inv(c, s) && Live(s, x) && x != TAIL
    ensures Lt(s.sh, x, Nxt(s.sh, x).idx) && Live(s, Nxt(s.sh, x).idx)
  {
    if IsLinked(s.sh, x) {
      assert SuccessorOk(s.sh, x);
    } else {
      var p :| 0 <= p < |s.th| && InView(s, p, x);
      FactsOf(c, s, p);
      assert ProtectedOk(s.sh, s.th[p].since, s.th[p].start, s.th[p].val, ResOf(s.sh, p).n, x);
      assert InView(s, p, Nxt(s.sh, x).idx);
    }
  }

  lemma OwingRuns(t: Thread, x: nat)
    requires Owes(t) == Some(x)
    ensures Running(t)
  {}

  lemma ReservationStays(c: Config, s: State, p: nat, op: Op, val: int, y: nat, s': State, q: nat)
    requires StepBy(c, s, p, op, val, y, s') && p < |s.sh.res| && q < |s.th|
    requires Running(s.th[q]) && Running(s'.th[q])
    ensures s'.th[q].since == s.th[q].since
  {
    if q == p {
      ReservationMoves(c, s.sh, p, s.th[p], op, val, y);
    }
  }

  lemma CoverStays(c: Config, s: State, p: nat, op: Op, val: int, y: nat, s': State, x: nat, q: nat)
    requires Inv(c, s) && SteadyStepBy(c, s, p, op, val, y, s') && Evolves(c, s.sh, s'.sh, p)
    requires q < c.threads && Covers(s, q, x) && LineSame(s.sh, s'.sh, x) && Owes(s'.th[q]) == Some(x)
    ensures Covers(s', q, x)
  {
    OwingRuns(s'.th[q], x);
    ReservationStays(c, s, p, op, val, y, s', q);
    ViewStays(c, s, p, op, val, y, s', q, DNxt(s.sh, x).idx);
  }

  lemma ViewStays(c: Config, s: State, p: nat, op: Op, val: int, y: nat, s': State, q: nat, x: nat)
    requires Inv(c, s) && SteadyStepBy(c, s, p, op, val, y, s') && Evolves(c, s.sh, s'.sh, p)
    requires q < c.threads && Running(s.th[q]) && Protected(s.sh, s.th[q].since, x)
    ensures Protected(s'.sh, s.th[q].since, x)
  {
    FactsOf(c, s, q);
    StepKeepsShelter(c, s, p, op, val, y, q);
    ProtectedStays(c, s.sh, s'.sh, p, s.th[q].since, x);
  }

  lemma CoveredStays(c: Config, s: State, p: nat, op: Op, val: int, y: nat, s': State, x: nat)
    requires Inv(c, s) && SteadyStepBy(c, s, p, op, val, y, s') && Evolves(c, s.sh, s'.sh, p)
    requires Covered(s, x) && LineSame(s.sh, s'.sh, x) && !UpToDate(s'.sh, x)
    ensures Covered(s', x)
  {
    var q :| 0 <= q < |s.th| && Covers(s, q, x);
    DebtStays(c, s, p, op, val, y, s', x, q);
    CoverStays(c, s, p, op, val, y, s', x, q);
  }

  lemma DebtStays(c: Config, s: State, p: nat, op: Op, val: int, y: nat, s': State, x: nat, q: nat)
    requires Inv(c, s) && SteadyStepBy(c, s, p, op, val, y, s') && q < c.threads
    requires Owes(s.th[q]) == Some(x) && !UpToDate(s'.sh, x)
    ensures Owes(s'.th[q]) == Some(x)
  {
    MoveIsDisciplined(c, s, p, op, val, y, x);
  }

  lemma LinePublished(s: State, x: nat)
    ensures Live(s, x) ==> Published(s.sh, x)
  {}

  /** A stale or current durable link still leads upwards after the step. */
  lemma DurableLinkAscends(c: Config, s: State, p: nat, s': State, x: nat)
    requires Inv(c, s) && LineOk(s, x) && Live(s, x) && x != TAIL
    requires Evolves(c, s.sh, s'.sh, p) && LineSame(s.sh, s'.sh, x)
    ensures Lt(s'.sh, x, DNxt(s'.sh, x).idx) && DDat(s'.sh, x) == Dat(s'.sh, x)
  {
    LiveLinkAscends(c, s, x);
    LinePublished(s, x);
    var y := DNxt(s.sh, x).idx;
    assert Live(s, y) by {
      if y != Nxt(s.sh, x).idx {
        var q :| 0 <= q < |s.th| && Covers(s, q, x);
        assert InView(s, q, y);
      }
    }
    LinePublished(s, y);
    assert SlotEvolves(s.sh, s'.sh, p, x) && SlotEvolves(s.sh, s'.sh, p, y);
  }

  lemma StepKeepsLine(c: Config, s: State, p: nat, op: Op, val: int, y: nat, s': State, x: nat)
    requires Inv(c, s) && SteadyStepBy(c, s, p, op, val, y, s') && Evolves(c, s.sh, s'.sh, p)
    requires LineOk(s, x) && Live(s, x) && x != TAIL && !UpToDate(s'.sh, x)
    ensures LineOk(s', x)
  {
    MoveIsDisciplined(c, s, p, op, val, y, x);
    LinePublished(s, x);
    DurableLinkAscends(c, s, p, s', x);
    if Covered(s, x) {
      CoveredStays(c, s, p, op, val, y, s', x);
    } else {
      assert Covers(s', p, x);
    }
  }

  lemma StepKeepsSettled(c: Config, s: State, p: nat, op: Op, val: int, y: nat, s': State, x: nat)
    requires Inv(c, s) && DurableOk(s) && SteadyStepBy(c, s, p, op, val, y, s')
    requires Evolves(c, s.sh, s'.sh, p) && Live(s', x) && Settled(s'.sh, x) && !UpToDate(s'.sh, x)
    ensures LineOk(s', x)
  {
    LiveBefore(c, s, p, op, val, y, s', x);
    MoveIsDisciplined(c, s, p, op, val, y, x);
    assert Settled(s.sh, x);
    StepKeepsLine(c, s, p, op, val, y, s', x);
  }

  lemma StepKeepsSentinels(c: Config, s: State, p: nat, op: Op, val: int, y: nat, s': State)
    requires Inv(c, s) && Inv(c, s') && DurableOk(s) && SteadyStepBy(c, s, p, op, val, y, s')
    ensures !DNxt(s'.sh, HEAD).mark && !DNxt(s'.sh, TAIL).mark && DDat(s'.sh, HEAD) == INT_MIN
  {
    FactsOf(c, s, p);
    MoveCopiesLines(c, s.sh, p, s.th[p], op, val, y);
  }

  lemma StepKeepsDurable(c: Config, s: State, p: nat, op: Op, val: int, y: nat, s': State)
    requires Inv(c, s) && DurableOk(s) && SteadyStepBy(c, s, p, op, val, y, s')
    ensures DurableOk(s')
  {
    StepKeepsInv(c, s, p, op, val, y, s');
    StepKeepsSentinels(c, s, p, op, val, y, s');
    forall x: nat | Live(s', x) && Settled(s'.sh, x) ensures LineOk(s', x) {
      LiveLinkAscends(c, s', x);
      if !UpToDate(s'.sh, x) {
        StepKeepsSettled(c, s, p, op, val, y, s', x);
      }
    }
  }

  lemma WriteBackKeepsCover(s: State, y: nat, s': State, x: nat)
    requires WriteBack(s, y, s')
    ensures Live(s', x) ==> Live(s, x)
    ensures Covered(s, x) && LineSame(s.sh, s'.sh, x) ==> Covered(s', x)
  {
    assert forall z: nat :: St(s'.sh, z) == St(s.sh, z);
    assert forall p: nat, z: nat :: p < |s.th| ==> InView(s', p, z) == InView(s, p, z);
    if Covered(s, x) && LineSame(s.sh, s'.sh, x) {
      var q :| 0 <= q < |s.th| && Covers(s, q, x);
      assert Covers(s', q, x);
    }
  }

  lemma WriteBackKeepsLine(c: Config, s: State, y: nat, s': State, x: nat)
    requires Inv(c, s) && DurableOk(s) && WriteBack(s, y, s')
    requires Live(s', x) && Settled(s'.sh, x)
    ensures LineOk(s', x)
  {
    WriteBackKeepsCover(s, y, s', x);
    assert Settled(s.sh, x) ==> LineOk(s, x);
    LiveLinkAscends(c, s, x);
  }

  lemma WriteBackKeepsDurable(c: Config, s: State, y: nat, s': State)
    requires Inv(c, s) && DurableOk(s) && WriteBack(s, y, s')
    ensures DurableOk(s')
  {
    forall x: nat | Live(s', x) && Settled(s'.sh, x) ensures LineOk(s', x) {
      WriteBackKeepsLine(c, s, y, s', x);
    }
  }

  ghost predicate DurableAt(c: Config, s: State) {
    Inv(c, s) && DurableOk(s)
  }

  /** `DurableAt` of a single state, folded: only ever applied to a set of one. */
  ghost predicate StatesOk(c: Config, states: set<State>) {
    forall s {:trigger DurableAt(c, s)} :: s in states ==> DurableAt(c, s)
  }

  lemma DurableIsInductive(c: Config, s: State, s': State)
    requires StatesOk(c, {s}) && SoundStep(c, {s}, s')
    ensures StatesOk(c, {s'})
  {
    assert DurableAt(c, s) && SoundAt(c, s, s');
    InvIsInductive(c, s, s');
    if x :| WriteBack(s, x, s') {
      WriteBackKeepsDurable(c, s, x, s');
    } else {
      var p, op, val, x :| SteadyStepBy(c, s, p, op, val, x, s');
      StepKeepsDurable(c, s, p, op, val, x, s');
    }
  }

  lemma InitIsDurable(c: Config, s: State)
    requires Init(c, s)
    ensures StatesOk(c, {s})
  {
    InitIsInv(c, s);
    forall x: nat | Live(s, x) && Settled(s.sh, x) ensures LineOk(s, x) {
      assert x == HEAD;
    }
  }

  lemma {:induction false} RunsKeepDurable(c: Config, run: seq<State>, n: nat)
    requires SteadyRun(c, run) && n < |run|
    ensures StatesOk(c, {run[n]})
  {
    if n == 0 {
      InitIsDurable(c, run[0]);
    } else {
      RunsKeepDurable(c, run, n - 1);
      StepOfRun(c, run, n);
      DurableIsInductive(c, run[n - 1], run[n]);
    }
  }

  // The durable path.

  /** A live slot's durable link leads to a live slot with a larger key. */
  ghost predicate LeadsUp(s: State, x: nat) {
    Live(s, DNxt(s.sh, x).idx) && Lt(s.sh, x, DNxt(s.sh, x).idx) && DDat(s.sh, x) == Dat(s.sh, x)
  }

  ghost predicate AllLeadUp(s: State) {
    forall x: nat {:trigger LeadsUp(s, x)} :: Live(s, x) && x != TAIL ==> LeadsUp(s, x)
  }

  lemma DurableLeadsUp(c: Config, s: State)
    requires Inv(c, s) && DurableOk(s) && !HeadIsStale(s.sh)
    ensures AllLeadUp(s)
  {
    forall x: nat | Live(s, x) && x != TAIL ensures LeadsUp(s, x) {
      assert LineOk(s, x);
      LiveLinkAscends(c, s, x);
      if DNxt(s.sh, x).idx != Nxt(s.sh, x).idx {
        var q :| 0 <= q < |s.th| && Covers(s, q, x);
        assert InView(s, q, DNxt(s.sh, x).idx);
      }
    }
  }

  ghost function LiveAbove(s: State, x: nat): set<nat> {
    set y: nat | y < |s.sh.slot| && Live(s, y) && Lt(s.sh, x, y)
  }

  lemma LiveAboveShrinks(s: State, x: nat)
    requires AllLeadUp(s) && Live(s, x) && x != TAIL
    ensures Live(s, DNxt(s.sh, x).idx) && LiveAbove(s, DNxt(s.sh, x).idx) < LiveAbove(s, x)
  {
    assert LeadsUp(s, x);
    LinePublished(s, DNxt(s.sh, x).idx);
    assert DNxt(s.sh, x).idx in LiveAbove(s, x);
  }

  /** The slots met in persistent memory by following links from x to the tail. */
  ghost function DurableChain(s: State, x: nat): seq<nat>
    requires AllLeadUp(s) && Live(s, x)
    decreases LiveAbove(s, x)
  {
    if x == TAIL then [TAIL] else
      LiveAboveShrinks(s, x);
      [x] + DurableChain(s, DNxt(s.sh, x).idx)
  }

  /** A strictly sorted path of durable links over slots that are not free. The tail's key is not compared. */
  ghost predicate DurablePath(sh: Shared, path: seq<nat>) {
    && (forall i :: 0 <= i < |path| - 1 ==> path[i] != TAIL && DNxt(sh, path[i]).idx == path[i + 1])
    && (forall i, j :: 0 <= i < j < |path| - 1 ==> DDat(sh, path[i]) < DDat(sh, path[j]))
    && (forall i :: 0 <= i < |path| ==> path[i] < |sh.slot| && !Bit(sh, path[i]))
  }

  lemma {:induction false} DurableChainIsPath(c: Config, s: State, x: nat)
    requires Sizes(c, s.sh) && LedgerOk(c, s.sh) && AllLeadUp(s) && Live(s, x)
    ensures var path := DurableChain(s, x);
            |path| > 0 && path[0] == x && path[|path| - 1] == TAIL && DurablePath(s.sh, path)
    decreases LiveAbove(s, x)
  {
    LinePublished(s, x);
    assert BitOk(c, s.sh, x);
    if x != TAIL {
      LiveAboveShrinks(s, x);
      assert LeadsUp(s, x);
      var y := DNxt(s.sh, x).idx;
      var rest := DurableChain(s, y);
      DurableChainIsPath(c, s, y);
      assert |rest| > 1 ==> LeadsUp(s, y);
      assert DurableChain(s, x) == [x] + rest;
    }
  }

  ghost predicate IsDurablePath(sh: Shared, path: seq<nat>) {
    |path| >= 2 && path[0] == HEAD && path[|path| - 1] == TAIL && DurablePath(sh, path)
  }

  lemma PathNeedsHead(sh: Shared, path: seq<nat>)
    requires IsDurablePath(sh, path)
    ensures !HeadIsStale(sh)
  {
    assert DNxt(sh, path[0]).idx == path[1];
    assert |path| > 2 ==> DDat(sh, path[0]) < DDat(sh, path[1]);
  }

  /** In every state of every steady run, whatever lines have reached persistent memory: the durable links from
      slot 0 form a path to slot 1 with strictly increasing durable keys over slots that are not free,
      exactly if the head's durable link is no longer the one it was allocated with. */
  lemma DurableImageIsSorted(c: Config, run: seq<State>, n: nat)
    requires SteadyRun(c, run) && n < |run|
    ensures var sh := run[n].sh;
            && !DNxt(sh, HEAD).mark && DDat(sh, HEAD) == INT_MIN && !DNxt(sh, TAIL).mark
            && ((exists path :: IsDurablePath(sh, path)) <==> !HeadIsStale(sh))
  {
    RunsKeepDurable(c, run, n);
    assert DurableAt(c, run[n]);
    if path :| IsDurablePath(run[n].sh, path) {
      PathNeedsHead(run[n].sh, path);
    }
    if !HeadIsStale(run[n].sh) {
      DurableLeadsUp(c, run[n]);
      assert LeadsUp(run[n], HEAD);
      DurableChainIsPath(c, run[n], HEAD);
      assert IsDurablePath(run[n].sh, DurableChain(run[n], HEAD));
    }
  }

  // When the head becomes durable.

  /** The step persists the head's line, on a thread's account or unasked. */
  ghost predicate PersistsHead(c: Config, s: State, s': State) {
    || WriteBack(s, HEAD, s')
    || exists p: nat, op: Op, val: int, x: nat :: SteadyStepBy(c, s, p, op, val, x, s') && Persists(s.th[p]) == Some(HEAD)
  }

  lemma MoveCopiesHead(c: Config, s: State, p: nat, op: Op, val: int, x: nat, s': State)
    requires Inv(c, s) && SteadyStepBy(c, s, p, op, val, x, s')
    ensures HeadIsStale(s'.sh) <==> HeadIsStale(s.sh) && Persists(s.th[p]) != Some(HEAD)
  {
    assert SuccessorOk(s.sh, HEAD);
    FactsOf(c, s, p);
    MoveCopiesLines(c, s.sh, p, s.th[p], op, val, x);
  }

  lemma WriteBackCopiesHead(c: Config, s: State, x: nat, s': State)
    requires Inv(c, s) && WriteBack(s, x, s')
    ensures HeadIsStale(s'.sh) <==> HeadIsStale(s.sh) && x != HEAD
  {
    assert SuccessorOk(s.sh, HEAD);
  }

  lemma HeadIsCopied(c: Config, s: State, s': State)
    requires SoundStep(c, {s}, s')
    ensures HeadIsStale(s'.sh) <==> HeadIsStale(s.sh) && !PersistsHead(c, s, s')
  {
    assert SoundAt(c, s, s');
    if WriteBack(s, HEAD, s') {
      WriteBackCopiesHead(c, s, HEAD, s');
    } else if p: nat, op: Op, val: int, x: nat :|
        SteadyStepBy(c, s, p, op, val, x, s') && Persists(s.th[p]) == Some(HEAD) {
      MoveCopiesHead(c, s, p, op, val, x, s');
    } else if y :| WriteBack(s, y, s') {
      WriteBackCopiesHead(c, s, y, s');
    } else {
      var p, op, val, x :| SteadyStepBy(c, s, p, op, val, x, s');
      MoveCopiesHead(c, s, p, op, val, x, s');
    }
  }

  ghost predicate PersistsHeadAt(c: Config, run: seq<State>, k: nat) {
    0 < k < |run| && PersistsHead(c, run[k - 1], run[k])
  }

  /** If init has left the head's durable link as it was allocated, it stays so until a step persists the
      head's line, and never comes back. */
  lemma {:induction false} HeadSettlesIff(c: Config, run: seq<State>, n: nat)
    requires SteadyRun(c, run) && n < |run| && HeadIsStale(run[0].sh)
    ensures !HeadIsStale(run[n].sh) <==> exists k: nat :: k <= n && PersistsHeadAt(c, run, k)
  {
    if n > 0 {
      HeadSettlesIff(c, run, n - 1);
      StepOfRun(c, run, n);
      HeadIsCopied(c, run[n - 1], run[n]);
      assert PersistsHeadAt(c, run, n) <==> PersistsHead(c, run[n - 1], run[n]);
    }
  }
}
