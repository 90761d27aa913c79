/** The invariant of the list machine holds in every state of every steady run. */
module ListSafety {
  import opened ListCommon
  import opened ListMachine
  import opened ListInv
  import opened ListHeap
  import opened ListStable
  import opened ListSteps
  import opened ListEffects
  import opened ListUpdates

  // Every step of a thread is one of the steps treated before.

  /** The slot a step frees, if it frees one. */
  predicate Frees(t: Thread, x: nat) {
    || (t.pc == EFree && t.pos < |t.list| && Before(t.list[t.pos].epoch, t.min) && x == t.list[t.pos].idx)
    || (t.pc == DelNew && t.neu == Some(x))
  }

  lemma StartOk(c: Config, sh: Shared, p: nat, t: Thread, op: Op, val: int)
    requires HeapOk(c, sh) && p < c.threads && ThreadsOk(sh, map[p := t])
    requires PhaseOf(t) == Outside || PhaseOf(t) == Starting
    requires t.pc == Idle ==> val > INT_MIN
    ensures StepResult(c, sh, p, StartStep(sh, p, t, op, val).0, StartStep(sh, p, t, op, val).1)
  {
    ThreadFacts(sh, p, t);
    assert p in map[p := t];
    var (sh', t') := StartStep(sh, p, t, op, val);
    if t.pc == StartStore {
      ReserveStep(c, sh, p, t, op, val);
    } else {
      CallStep(c, sh, p, t, op, if t.pc == Idle then val else 0);
      CallStepIgnores(sh, p, t, op, val);
      OwnsMoves(sh, sh, p, t, t');
      EvolvesRefl(c, sh, p);
    }
  }

  lemma CallStepIgnores(sh: Shared, p: nat, t: Thread, op: Op, val: int)
    ensures t.pc == StartRead ==> StartStep(sh, p, t, op, val) == StartStep(sh, p, t, op, 0)
  {}

  /** Steps that only read. */
  lemma LookStep(c: Config, sh: Shared, p: nat, t: Thread, t': Thread)
    requires HeapOk(c, sh) && ThreadsOk(sh, map[p := t])
    requires BooksOk(sh, {t'}) && PointsOk(sh, {t'}) && SameFrame(t, t')
    ensures StepResult(c, sh, p, sh, t')
  {
    LocalFrame(sh, p, t, t');
    EvolvesRefl(c, sh, p);
    assert EffectOk(c, sh, p, sh);
    Gather(c, sh, p, sh, t');
  }

  lemma ReadingSound(c: Config, sh: Shared, p: nat, t: Thread)
    requires HeapOk(c, sh) && ThreadsOk(sh, map[p := t]) && PhaseOf(t) == Reading
    ensures BooksOk(sh, {ContainsStep(sh, t)}) && PointsOk(sh, {ContainsStep(sh, t)}) && t.pend == []
  {
    ThreadFacts(sh, p, t);
    ReadingBook(sh, t);
    ReadingPoint(c, sh, p, t);
  }

  lemma ReadingOkStep(c: Config, sh: Shared, p: nat, t: Thread)
    requires HeapOk(c, sh) && ThreadsOk(sh, map[p := t]) && PhaseOf(t) == Reading
    ensures StepResult(c, sh, p, sh, ContainsStep(sh, t))
  {
    ReadingSound(c, sh, p, t);
    LookStep(c, sh, p, t, ContainsStep(sh, t));
  }

  lemma TestFrame(sh: Shared, p: nat, t: Thread)
    requires t.pc == STest && t.pend == []
    ensures SearchStep(sh, p, t).0 == sh && SameFrame(t, SearchStep(sh, p, t).1)
  {}

  lemma HeadSound(c: Config, sh: Shared, p: nat, t: Thread)
    requires HeapOk(c, sh) && ThreadsOk(sh, map[p := t]) && t.pc == SHead
    ensures BooksOk(sh, {SearchStep(sh, p, t).1}) && SearchStep(sh, p, t).0 == sh
    ensures PointsOk(sh, {SearchStep(sh, p, t).1}) && t.pend == []
  {
    ThreadFacts(sh, p, t);
    HeadBook(sh, p, t);
    HeadPoint(c, sh, p, t);
  }

  lemma HeadOk(c: Config, sh: Shared, p: nat, t: Thread)
    requires HeapOk(c, sh) && ThreadsOk(sh, map[p := t]) && t.pc == SHead
    ensures SearchStep(sh, p, t).0 == sh && StepResult(c, sh, p, sh, SearchStep(sh, p, t).1)
  {
    HeadSound(c, sh, p, t);
    LookStep(c, sh, p, t, SearchStep(sh, p, t).1);
  }

  lemma TestSound(c: Config, sh: Shared, p: nat, t: Thread)
    requires HeapOk(c, sh) && ThreadsOk(sh, map[p := t]) && t.pc == STest
    ensures BooksOk(sh, {SearchStep(sh, p, t).1}) && SearchStep(sh, p, t).0 == sh
    ensures PointsOk(sh, {SearchStep(sh, p, t).1}) && t.pend == []
  {
    TestBooks(sh, p, t);
    TestPoints(c, sh, p, t);
    ThreadFrame(sh, p, t);
  }

  lemma TestBooks(sh: Shared, p: nat, t: Thread)
    requires ThreadsOk(sh, map[p := t]) && t.pc == STest
    ensures BooksOk(sh, {SearchStep(sh, p, t).1})
  {
    ThreadBook(sh, p, t);
    TestBook(sh, p, t);
  }

  lemma TestPoints(c: Config, sh: Shared, p: nat, t: Thread)
    requires HeapOk(c, sh) && ThreadsOk(sh, map[p := t]) && t.pc == STest
    ensures PointsOk(sh, {SearchStep(sh, p, t).1})
  {
    ThreadFacts(sh, p, t);
    TestPoint(c, sh, p, t);
  }

  lemma TestOk(c: Config, sh: Shared, p: nat, t: Thread)
    requires HeapOk(c, sh) && ThreadsOk(sh, map[p := t]) && t.pc == STest
    ensures SearchStep(sh, p, t).0 == sh && StepResult(c, sh, p, sh, SearchStep(sh, p, t).1)
  {
    TestSound(c, sh, p, t);
    TestFrame(sh, p, t);
    LookStep(c, sh, p, t, SearchStep(sh, p, t).1);
  }

  lemma NextSound(c: Config, sh: Shared, p: nat, t: Thread)
    requires HeapOk(c, sh) && ThreadsOk(sh, map[p := t]) && t.pc == SNext
    ensures BooksOk(sh, {SearchStep(sh, p, t).1}) && SearchStep(sh, p, t).0 == sh
    ensures PointsOk(sh, {SearchStep(sh, p, t).1}) && t.pend == []
  {
    ThreadFacts(sh, p, t);
    NextBook(sh, p, t);
    NextPoints(sh, p, t);
  }

  lemma NextPoints(sh: Shared, p: nat, t: Thread)
    requires ThreadsOk(sh, map[p := t]) && t.pc == SNext
    ensures PointsOk(sh, {SearchStep(sh, p, t).1})
  {
    ThreadFacts(sh, p, t);
    NextPoint(sh, p, t);
  }

  lemma NextOk(c: Config, sh: Shared, p: nat, t: Thread)
    requires HeapOk(c, sh) && ThreadsOk(sh, map[p := t]) && t.pc == SNext
    ensures SearchStep(sh, p, t).0 == sh && StepResult(c, sh, p, sh, SearchStep(sh, p, t).1)
  {
    NextSound(c, sh, p, t);
    LookStep(c, sh, p, t, SearchStep(sh, p, t).1);
  }

  lemma CheckSound(c: Config, sh: Shared, p: nat, t: Thread)
    requires HeapOk(c, sh) && ThreadsOk(sh, map[p := t]) && (t.pc == SCheck || t.pc == SRecheck)
    ensures BooksOk(sh, {SearchStep(sh, p, t).1}) && SearchStep(sh, p, t).0 == sh
    ensures PointsOk(sh, {SearchStep(sh, p, t).1}) && t.pend == []
  {
    CheckBooks(sh, p, t);
    CheckPoints(c, sh, p, t);
    ThreadFrame(sh, p, t);
  }

  lemma CheckBooks(sh: Shared, p: nat, t: Thread)
    requires ThreadsOk(sh, map[p := t]) && (t.pc == SCheck || t.pc == SRecheck)
    ensures BooksOk(sh, {SearchStep(sh, p, t).1})
  {
    ThreadFacts(sh, p, t);
    CheckBook(sh, p, t);
  }

  lemma CheckPoints(c: Config, sh: Shared, p: nat, t: Thread)
    requires HeapOk(c, sh) && ThreadsOk(sh, map[p := t]) && (t.pc == SCheck || t.pc == SRecheck)
    ensures PointsOk(sh, {SearchStep(sh, p, t).1})
  {
    ThreadFacts(sh, p, t);
    CheckPoint(c, sh, p, t);
  }

  lemma CheckOk(c: Config, sh: Shared, p: nat, t: Thread)
    requires HeapOk(c, sh) && ThreadsOk(sh, map[p := t]) && (t.pc == SCheck || t.pc == SRecheck)
    ensures SearchStep(sh, p, t).0 == sh && StepResult(c, sh, p, sh, SearchStep(sh, p, t).1)
  {
    CheckSound(c, sh, p, t);
    LookStep(c, sh, p, t, SearchStep(sh, p, t).1);
  }

  lemma FoundSound(c: Config, sh: Shared, p: nat, t: Thread)
    requires HeapOk(c, sh) && ThreadsOk(sh, map[p := t]) && t.pc == Found
    ensures BooksOk(sh, {SearchStep(sh, p, t).1}) && SearchStep(sh, p, t).0 == sh
    ensures PointsOk(sh, {SearchStep(sh, p, t).1}) && t.pend == []
  {
    ThreadFacts(sh, p, t);
    FoundBook(sh, p, t);
    FoundPoint(sh, p, t);
  }

  lemma FoundStepOk(c: Config, sh: Shared, p: nat, t: Thread)
    requires HeapOk(c, sh) && ThreadsOk(sh, map[p := t]) && t.pc == Found
    ensures SearchStep(sh, p, t).0 == sh && StepResult(c, sh, p, sh, SearchStep(sh, p, t).1)
  {
    FoundSound(c, sh, p, t);
    LookStep(c, sh, p, t, SearchStep(sh, p, t).1);
  }

  lemma SearchOk(c: Config, sh: Shared, p: nat, t: Thread)
    requires HeapOk(c, sh) && ThreadsOk(sh, map[p := t])
    requires t.pc == SHead || PhaseOf(t) == Walking || PhaseOf(t) == Deciding || t.pc == SPersist || t.pc == SRetNext
    ensures StepResult(c, sh, p, SearchStep(sh, p, t).0, SearchStep(sh, p, t).1)
  {
    if t.pc.SHead? {
      HeadOk(c, sh, p, t);
    } else if t.pc.STest? {
      TestOk(c, sh, p, t);
    } else if t.pc.SNext? {
      NextOk(c, sh, p, t);
    } else if t.pc.SCas? {
      if Nxt(sh, t.left) == Link(t.ln, false) {
        CasSucceeds(c, sh, p, t);
      } else {
        CasFails(c, sh, p, t);
      }
    } else if t.pc.SPersist? {
      PersistSnipStep(c, sh, p, t);
    } else if t.pc.SRetNext? {
      NextToRetireStep(c, sh, p, t);
    } else if t.pc.Found? {
      FoundStepOk(c, sh, p, t);
    } else {
      CheckOk(c, sh, p, t);
    }
  }

  lemma AddOk(c: Config, sh: Shared, p: nat, t: Thread, x: nat)
    requires HeapOk(c, sh) && ThreadsOk(sh, map[p := t]) && (PhaseOf(t) == Adding || t.pc == APersistLeft)
    ensures StepResult(c, sh, p, AddStep(sh, p, t, x).0, AddStep(sh, p, t, x).1)
  {
    ThreadFacts(sh, p, t);
    if t.pc.AAlloc? {
      if Bit(sh, x) {
        AllocStep(c, sh, p, t, x);
      } else {
        EvolvesRefl(c, sh, p);
      }
    } else if t.pc.AData? {
      DataStep(c, sh, p, t);
    } else if t.pc.ANext? {
      LinkFieldStep(c, sh, p, t);
    } else if t.pc.APersistNew? {
      PersistNewStep(c, sh, p, t);
    } else if t.pc.ALink? {
      if Nxt(sh, t.left) == Link(t.right, false) {
        LinkStep(c, sh, p, t);
      } else {
        LinkFails(c, sh, p, t);
      }
    } else {
      PersistLeftStep(c, sh, p, t);
    }
  }

  lemma RemoveOk(c: Config, sh: Shared, p: nat, t: Thread)
    requires HeapOk(c, sh) && ThreadsOk(sh, map[p := t]) && (PhaseOf(t) == Removing || t.pc == RPersistLeft)
    ensures StepResult(c, sh, p, RemoveStep(sh, p, t).0, RemoveStep(sh, p, t).1)
  {
    ThreadFacts(sh, p, t);
    if t.pc.RRead? {
      ReadRightStep(c, sh, p, t);
    } else if t.pc.RMark? {
      if Nxt(sh, t.right) == t.ri {
        MarkStep(c, sh, p, t);
      } else {
        MarkFails(c, sh, p, t);
      }
    } else if t.pc.RPersistMark? {
      PersistMarkStep(c, sh, p, t);
    } else if t.pc.RSnip? {
      if Nxt(sh, t.left) == Link(t.right, false) {
        RemoveSnips(c, sh, p, t);
      } else {
        RemoveLeavesNode(c, sh, p, t);
      }
    } else if t.pc.RKey? {
      KeyStep(c, sh, p, t);
    } else {
      PersistLeftStep(c, sh, p, t);
    }
  }

  lemma EpochOk(c: Config, sh: Shared, p: nat, t: Thread)
    requires HeapOk(c, sh) && ThreadsOk(sh, map[p := t]) && t.pc == EEpoch
    ensures StepResult(c, sh, p, RetireStep(c, sh, p, t).0, RetireStep(c, sh, p, t).1)
  {
    EpochHasPending(sh, p, t);
    EpochStep(c, sh, p, t, RetireStep(c, sh, p, t).1);
  }

  lemma EpochHasPending(sh: Shared, p: nat, t: Thread)
    requires ThreadsOk(sh, map[p := t]) && t.pc == EEpoch
    ensures |t.pend| > 0
  {
    ThreadFacts(sh, p, t);
    ListedFacts(sh, t);
  }

  lemma FreeOk(c: Config, sh: Shared, p: nat, t: Thread)
    requires HeapOk(c, sh) && ThreadsOk(sh, map[p := t]) && t.pc == EFree
    requires forall x: nat :: Frees(t, x) ==> KeepsShelter(sh, FreeNode(sh, x), t.since)
    ensures StepResult(c, sh, p, RetireStep(c, sh, p, t).0, RetireStep(c, sh, p, t).1)
  {
    if t.pos < |t.list| && Before(t.list[t.pos].epoch, t.min) {
      assert Frees(t, t.list[t.pos].idx);
      FreeStep(c, sh, p, t);
    } else if t.pos < |t.list| {
      ScanStep(c, sh, p, t, t.(pos := t.pos + 1));
    } else {
      DoneStep(c, sh, p, t);
    }
  }

  lemma LoadScans(c: Config, sh: Shared, p: nat, t: Thread)
    requires Scanning(t)
    ensures RetireStep(c, sh, p, t).0 == sh && Scans(t, RetireStep(c, sh, p, t).1)
  {}

  lemma RetireOk(c: Config, sh: Shared, p: nat, t: Thread)
    requires HeapOk(c, sh) && ThreadsOk(sh, map[p := t])
    requires t.pc == EEpoch || t.pc == EBump || t.pc == EScan || t.pc == ELoad || t.pc == EFree
    requires forall x: nat :: Frees(t, x) ==> KeepsShelter(sh, FreeNode(sh, x), t.since)
    ensures StepResult(c, sh, p, RetireStep(c, sh, p, t).0, RetireStep(c, sh, p, t).1)
  {
    if t.pc.EEpoch? {
      EpochOk(c, sh, p, t);
    } else if t.pc.EBump? {
      BumpStep(c, sh, p, t, AfterBump(t));
    } else if t.pc.EScan? || t.pc.ELoad? {
      LoadScans(c, sh, p, t);
      ScanStep(c, sh, p, t, RetireStep(c, sh, p, t).1);
    } else {
      FreeOk(c, sh, p, t);
    }
  }

  lemma ReturnFrame(sh: Shared, p: nat, t: Thread)
    requires ThreadsOk(sh, map[p := t]) && t.pc == Return
    ensures FramesOk(sh, p, {t.(pc := Idle)})
  {
    ThreadFrame(sh, p, t);
    OwnsMoves(sh, sh, p, t, t.(pc := Idle));
  }

  lemma ReturnBook(sh: Shared, p: nat, t: Thread)
    requires ThreadsOk(sh, map[p := t]) && t.pc == Return
    ensures BooksOk(sh, {t.(pc := Idle)})
  {
    ThreadBook(sh, p, t);
  }

  lemma ReturnOk(c: Config, sh: Shared, p: nat, t: Thread)
    requires HeapOk(c, sh) && ThreadsOk(sh, map[p := t]) && t.pc == Return
    ensures StepResult(c, sh, p, sh, t.(pc := Idle))
  {
    ReturnFrame(sh, p, t);
    ReturnBook(sh, p, t);
    EvolvesRefl(c, sh, p);
    assert EffectOk(c, sh, p, sh);
    Gather(c, sh, p, sh, t.(pc := Idle));
  }

  lemma EndOk(c: Config, sh: Shared, p: nat, t: Thread)
    requires HeapOk(c, sh) && ThreadsOk(sh, map[p := t]) && p < c.threads
    requires PhaseOf(t) == Ending || PhaseOf(t) == Ended
    ensures StepResult(c, sh, p, EndStep(sh, p, t).0, EndStep(sh, p, t).1)
  {
    if t.pc.EndOp? {
      EndStepOk(c, sh, p, t);
    } else if t.pc.DelNew? {
      DelStep(c, sh, p, t);
    } else {
      ReturnOk(c, sh, p, t);
    }
  }

  lemma MoveOk(c: Config, sh: Shared, p: nat, t: Thread, op: Op, val: int, x: nat)
    requires HeapOk(c, sh) && ThreadsOk(sh, map[p := t]) && p < c.threads
    requires t.pc == Idle ==> val > INT_MIN
    requires forall y: nat :: Frees(t, y) ==> KeepsShelter(sh, FreeNode(sh, y), t.since) || !Running(t)
    ensures StepResult(c, sh, p, Move(c, sh, p, t, op, val, x).0, Move(c, sh, p, t, op, val, x).1)
  {
    match RoutineOf(t.pc)
    case Start => StartOk(c, sh, p, t, op, val);
    case Contain => ReadingOkStep(c, sh, p, t);
    case Search => SearchOk(c, sh, p, t);
    case Insert => AddOk(c, sh, p, t, x);
    case Delete => RemoveOk(c, sh, p, t);
    case Retire => RetireOk(c, sh, p, t);
    case End => EndOk(c, sh, p, t);
  }

  /** The facts of one thread, out of the invariant. */
  lemma FactsOf(c: Config, s: State, p: nat)
    requires Inv(c, s) && p < c.threads
    ensures FrameOk(s.sh, p, s.th[p]) && BookOk(s.sh, s.th[p]) && PcOk(s.sh, s.th[p])
  {
    assert ThreadsOk(s.sh, map[p := s.th[p]]);
    ThreadFacts(s.sh, p, s.th[p]);
  }

  // No slot in view of a running operation is freed.

  lemma SeenIsRecent(sh: Shared, q: nat, u: Thread, x: nat)
    requires ShelterOk(sh, q, u.since, u.start, u.val)
    ensures Protected(sh, u.since, x) && St(sh, x).Retired? ==> St(sh, x).epoch >= ResOf(sh, q).n
  {
    assert Protected(sh, u.since, x) ==> ProtectedOk(sh, u.since, u.start, u.val, ResOf(sh, q).n, x);
  }

  /** A retired slot older than the scanned minimum is in nobody's view: whoever could see it was
      scanned with a reservation not above the epoch it was retired in. */
  lemma OldIsUnseen(sh: Shared, p: nat, t: Thread, n: Entry, q: nat, u: Thread)
    requires OwnsSlot(sh, p, t, n.idx) && n in t.list && t.pc == EFree && Before(n.epoch, t.min)
    requires ShelterOk(sh, q, u.since, u.start, u.val) && MinOk(sh, t, q, u) && Running(u)
    ensures !Protected(sh, u.since, n.idx)
  {
    SeenIsRecent(sh, q, u, n.idx);
  }

  lemma FreedIsUnseen(c: Config, s: State, p: nat, x: nat, q: nat)
    requires Inv(c, s) && p < c.threads && q < c.threads
    requires Frees(s.th[p], x) && Running(s.th[q])
    ensures !Protected(s.sh, s.th[q].since, x)
  {
    FactsOf(c, s, p);
    FactsOf(c, s, q);
    assert OwnsSlot(s.sh, p, s.th[p], x);
    if s.th[p].pc == EFree {
      assert MinOk(s.sh, s.th[p], q, s.th[q]);
      OldIsUnseen(s.sh, p, s.th[p], s.th[p].list[s.th[p].pos], q, s.th[q]);
    }
  }

  lemma OnlyFreesFree(c: Config, sh: Shared, p: nat, t: Thread, op: Op, val: int, x: nat, y: nat)
    requires |sh.slot| == |sh.next|
    requires St(Move(c, sh, p, t, op, val, x).0, y) == Free && St(sh, y) != Free
    ensures Frees(t, y)
  {}

  lemma StepKeepsShelter(c: Config, s: State, p: nat, op: Op, val: int, x: nat, q: nat)
    requires Inv(c, s) && p < c.threads && q < c.threads && Running(s.th[q])
    ensures KeepsShelter(s.sh, Move(c, s.sh, p, s.th[p], op, val, x).0, s.th[q].since)
    ensures forall y: nat :: Frees(s.th[p], y) ==> KeepsShelter(s.sh, FreeNode(s.sh, y), s.th[q].since)
  {
    var sh' := Move(c, s.sh, p, s.th[p], op, val, x).0;
    forall y: nat | Protected(s.sh, s.th[q].since, y) ensures St(sh', y) != Free && !Frees(s.th[p], y) {
      if Frees(s.th[p], y) {
        FreedIsUnseen(c, s, p, y, q);
      }
      if St(sh', y) == Free {
        OnlyFreesFree(c, s.sh, p, s.th[p], op, val, x, y);
      }
    }
  }

  // Scans of the reservations.

  /** Slots on another thread's retired list come into view or leave it only with a new reservation. */
  lemma EntriesSeenBefore(c: Config, sh: Shared, sh': Shared, p: nat, q: nat, scanner: Thread, t: Thread)
    requires Evolves(c, sh, sh', p) && OwnsOk(sh, q, scanner) && q != p
    requires SeesEntry(sh', scanner, t)
    ensures SeesEntry(sh, scanner, t)
  {
    var n :| n in scanner.list && Protected(sh', t.since, n.idx);
    assert OwnsSlot(sh, q, scanner, n.idx) && SlotEvolves(sh, sh', p, n.idx);
    assert Protected(sh, t.since, n.idx);
  }

  predicate ScanUnderWay(t: Thread) {
    t.pc == EFree || t.pc == ELoad || (t.pc == EScan && t.i > 0)
  }

  /** The reservations and the thread's view stay as they are, and no scan gets under way. */
  predicate Plain(sh: Shared, t: Thread, sh': Shared, t': Thread) {
    && sh'.res == sh.res && t'.since == t.since
    && (Running(t') ==> Running(t))
    && !ScanUnderWay(t')
  }

  lemma WalkIsPlain(sh: Shared, p: nat, t: Thread)
    requires t.pc == STest
    ensures Plain(sh, t, SearchStep(sh, p, t).0, SearchStep(sh, p, t).1)
  {
    AdvanceShape(t);
    DecideShape(t, t.t);
    assert Advance(t).since == t.since;
  }

  lemma SearchIsPlain(sh: Shared, p: nat, t: Thread)
    requires t.pc == SHead || PhaseOf(t) == Walking || PhaseOf(t) == Deciding || t.pc == SPersist || t.pc == SRetNext
    ensures Plain(sh, t, SearchStep(sh, p, t).0, SearchStep(sh, p, t).1)
  {
    if t.pc.STest? {
      WalkIsPlain(sh, p, t);
    } else if t.pc.Found? {
      FoundIsPlain(sh, p, t);
    } else if t.pc.SCas? || t.pc.SPersist? {
      WriteIsPlain(sh, p, t);
    }
  }

  lemma FoundIsPlain(sh: Shared, p: nat, t: Thread)
    requires t.pc == Found
    ensures Plain(sh, t, SearchStep(sh, p, t).0, SearchStep(sh, p, t).1)
  {}

  lemma WriteIsPlain(sh: Shared, p: nat, t: Thread)
    requires t.pc == SCas || t.pc == SPersist
    ensures Plain(sh, t, SearchStep(sh, p, t).0, SearchStep(sh, p, t).1)
  {}

  lemma ReadingIsPlain(sh: Shared, t: Thread)
    requires PhaseOf(t) == Reading
    ensures Plain(sh, t, sh, ContainsStep(sh, t))
  {}

  lemma AddIsPlain(sh: Shared, p: nat, t: Thread, x: nat)
    requires PhaseOf(t) == Adding || t.pc == APersistLeft
    ensures Plain(sh, t, AddStep(sh, p, t, x).0, AddStep(sh, p, t, x).1)
  {}

  lemma RemoveIsPlain(sh: Shared, p: nat, t: Thread)
    requires PhaseOf(t) == Removing || t.pc == RPersistLeft
    ensures Plain(sh, t, RemoveStep(sh, p, t).0, RemoveStep(sh, p, t).1)
  {}

  lemma EpochIsPlain(c: Config, sh: Shared, p: nat, t: Thread)
    requires t.pc == EEpoch || t.pc == EBump
    ensures Plain(sh, t, RetireStep(c, sh, p, t).0, RetireStep(c, sh, p, t).1)
  {}

  lemma EndIsNotScanning(sh: Shared, p: nat, t: Thread)
    requires PhaseOf(t) == Ending || PhaseOf(t) == Ended
    ensures !Running(EndStep(sh, p, t).1)
  {}

  /** Outside the reservation protocol a step is plain. */
  lemma MoveIsPlain(c: Config, sh: Shared, p: nat, t: Thread, op: Op, val: int, x: nat)
    requires PhaseOf(t) != Outside && PhaseOf(t) != Starting && PhaseOf(t) != Ending && PhaseOf(t) != Ended
    requires !Scanning(t) && t.pc != EFree
    ensures Plain(sh, t, Move(c, sh, p, t, op, val, x).0, Move(c, sh, p, t, op, val, x).1)
  {
    if RoutineOf(t.pc).Contain? {
      ReadingIsPlain(sh, t);
    } else if RoutineOf(t.pc).Search? {
      SearchIsPlain(sh, p, t);
    } else if RoutineOf(t.pc).Insert? {
      AddIsPlain(sh, p, t, x);
    } else if RoutineOf(t.pc).Delete? {
      RemoveIsPlain(sh, p, t);
    } else {
      EpochIsPlain(c, sh, p, t);
    }
  }

  /** What a step does to the acting thread's place in the reservation protocol. */
  lemma ReservationMoves(c: Config, sh: Shared, p: nat, t: Thread, op: Op, val: int, x: nat)
    requires p < |sh.res|
    ensures var (sh', t') := Move(c, sh, p, t, op, val, x);
            Running(t') ==> if Running(t) then ResOf(sh', p) == ResOf(sh, p) && t'.since == t.since
                            else t.pc == StartStore && t'.since == sh.snips && sh'.slot == sh.slot
  {
    match PhaseOf(t)
    case Outside | Starting =>
    case Ending | Ended => EndIsNotScanning(sh, p, t);
    case _ =>
      if !Scanning(t) && t.pc != EFree {
        MoveIsPlain(c, sh, p, t, op, val, x);
      }
  }

  /** A fresh reservation protects nothing that is already retired. */
  lemma FreshSeesNoEntry(c: Config, sh: Shared, sh': Shared, q: nat, scanner: Thread, t: Thread)
    requires LedgerOk(c, sh) && OwnsOk(sh, q, scanner) && sh'.slot == sh.slot && t.since == sh.snips
    ensures !SeesEntry(sh', scanner, t)
  {
    forall n | n in scanner.list ensures !Protected(sh', t.since, n.idx) {
      assert OwnsSlot(sh, q, scanner, n.idx) && GoneOk(sh, n.idx);
    }
  }

  /** A scan that is under way knows: what it has found so far is not above a reservation that it has passed and
      whose operation can see a slot on the scanner's list. */
  ghost predicate ScanOk(sh: Shared, scanner: Thread, p: nat, t: Thread) {
    (scanner.pc == EFree || (Scanning(scanner) && p < scanner.i)) && Running(t) && SeesEntry(sh, scanner, t) ==>
      ResOf(sh, p).At? && scanner.min.At? && scanner.min.n <= ResOf(sh, p).n
  }

  /** A step of thread p brings no slot on another thread's list into view. */
  lemma ViewsKept(c: Config, s: State, p: nat, op: Op, val: int, x: nat, q: nat, r: nat)
    requires Inv(c, s) && p < c.threads && q < c.threads && r < c.threads && q != p
    requires Evolves(c, s.sh, Move(c, s.sh, p, s.th[p], op, val, x).0, p)
    ensures var (sh', t') := Move(c, s.sh, p, s.th[p], op, val, x); var u := if r == p then t' else s.th[r];
            Running(u) && SeesEntry(sh', s.th[q], u) ==>
              Running(s.th[r]) && SeesEntry(s.sh, s.th[q], s.th[r]) && ResOf(sh', r) == ResOf(s.sh, r)
  {
    var (sh', t') := Move(c, s.sh, p, s.th[p], op, val, x);
    var u := if r == p then t' else s.th[r];
    FactsOf(c, s, q);
    ReservationMoves(c, s.sh, p, s.th[p], op, val, x);
    if Running(u) && SeesEntry(sh', s.th[q], u) {
      if r == p && !Running(s.th[p]) {
        FreshSeesNoEntry(c, s.sh, sh', q, s.th[q], u);
      } else {
        EntriesSeenBefore(c, s.sh, sh', p, q, s.th[q], u);
        assert SeesEntry(s.sh, s.th[q], s.th[r]);
      }
    }
  }

  /** Scans by the other threads, and what they have found. */
  lemma OtherScansKept(c: Config, s: State, p: nat, op: Op, val: int, x: nat, q: nat, r: nat)
    requires Inv(c, s) && p < c.threads && q < c.threads && r < c.threads && q != p
    requires Evolves(c, s.sh, Move(c, s.sh, p, s.th[p], op, val, x).0, p)
    ensures var (sh', t') := Move(c, s.sh, p, s.th[p], op, val, x); var u := if r == p then t' else s.th[r];
            && MinOk(sh', s.th[q], r, u)
            && (ScanOk(s.sh, s.th[q], r, s.th[r]) ==> ScanOk(sh', s.th[q], r, u))
  {
    ViewsKept(c, s, p, op, val, x, q, r);
    assert MinOk(s.sh, s.th[q], r, s.th[r]);
  }

  /** A step of get_min. */
  predicate Loads(c: Config, sh: Shared, t: Thread, t': Thread) {
    || (t.pc == EScan && t'.pc == EScan && t'.i == t.i + 1 &&
          if t.i == 0 then t'.min == ResOf(sh, 0) else t'.min == t.min && AtMost(t.min, ResOf(sh, t.i)))
    || (t.pc == EScan && t'.pc == ELoad && t'.i == t.i && t'.min == t.min)
    || (t.pc == ELoad && t'.pc == EScan && t'.i == t.i + 1 && t'.min == ResOf(sh, t.i))
    || (t.pc == EScan && t'.pc == EFree && t'.min == t.min && t.i >= c.threads && t.i > 0)
    || (t.pc == EFree && t'.pc == EFree && t'.min == t.min)
  }

  /** The step of a thread while it scans, or frees what the scan allows. */
  ghost predicate ScanMoves(c: Config, sh: Shared, t: Thread, sh': Shared, t': Thread) {
    && sh'.res == sh.res && Loads(c, sh, t, t')
    && (forall n :: n in t'.list ==> n in t.list)
    && (forall y: nat :: St(sh', y) == St(sh, y) || St(sh', y) == Free)
  }

  lemma ScanningMoves(c: Config, sh: Shared, p: nat, t: Thread, op: Op, val: int, x: nat)
    requires |sh.slot| == |sh.next|
    ensures var (sh', t') := Move(c, sh, p, t, op, val, x);
            ScanUnderWay(t') ==> ScanMoves(c, sh, t, sh', t')
  {
    match RoutineOf(t.pc)
    case Start =>
    case End => EndIsNotScanning(sh, p, t);
    case Retire => RetireScans(c, sh, p, t);
    case _ => MoveIsPlain(c, sh, p, t, op, val, x);
  }

  lemma RetireScans(c: Config, sh: Shared, p: nat, t: Thread)
    requires |sh.slot| == |sh.next| && RoutineOf(t.pc).Retire?
    ensures var (sh', t') := RetireStep(c, sh, p, t);
            ScanUnderWay(t') ==> ScanMoves(c, sh, t, sh', t')
  {
    if t.pc.EFree? {
      FreeIsScanMove(c, sh, p, t);
    } else if t.pc.EScan? || t.pc.ELoad? {
      LoadIsScanMove(c, sh, p, t);
    } else {
      EpochIsPlain(c, sh, p, t);
    }
  }

  lemma LoadIsScanMove(c: Config, sh: Shared, p: nat, t: Thread)
    requires Scanning(t)
    ensures var (sh', t') := RetireStep(c, sh, p, t);
            ScanUnderWay(t') ==> ScanMoves(c, sh, t, sh', t')
  {}

  lemma FreeIsScanMove(c: Config, sh: Shared, p: nat, t: Thread)
    requires |sh.slot| == |sh.next| && t.pc == EFree
    ensures var (sh', t') := RetireStep(c, sh, p, t);
            ScanUnderWay(t') ==> ScanMoves(c, sh, t, sh', t')
  {
    if t.pos < |t.list| {
      assert t.list == t.list[..t.pos] + [t.list[t.pos]] + t.list[t.pos + 1..];
    }
  }

  /** The running minimum bounds every reservation read so far. */
  lemma ScanBounds(c: Config, sh: Shared, t: Thread, sh': Shared, t': Thread, r: nat)
    requires ScanMoves(c, sh, t, sh', t') && r < c.threads && ResOf(sh, r).At?
    requires t.pc == ELoad && r < t.i ==> AtMost(ResOf(sh, t.i), ResOf(sh, r))
    requires t'.pc == EFree || (Scanning(t') && r < t'.i)
    requires t.pc == EFree || (Scanning(t) && r < t.i) ==> t.min.At? && t.min.n <= ResOf(sh, r).n
    ensures t'.min.At? && t'.min.n <= ResOf(sh', r).n
  {}

  lemma ReservationKnown(c: Config, s: State, r: nat)
    requires Inv(c, s) && r < c.threads && Running(s.th[r])
    ensures ResOf(s.sh, r).At?
  {
    assert ThreadsOk(s.sh, map[r := s.th[r]]);
    ThreadFrame(s.sh, r, s.th[r]);
  }

  /** The copying load of thread p, if it makes one, does not copy a value above the reservation of a thread that
      the scan has passed and that can see a slot on p's list. */
  ghost predicate CopyOk(s: State, p: nat, r: nat)
    requires p < |s.th| && r < |s.th|
  {
    s.th[p].pc == ELoad && r < s.th[p].i && Running(s.th[r]) && SeesEntry(s.sh, s.th[p], s.th[r]) ==>
      AtMost(ResOf(s.sh, s.th[p].i), ResOf(s.sh, r))
  }

  lemma OwnScanKept(c: Config, s: State, p: nat, op: Op, val: int, x: nat, r: nat)
    requires Inv(c, s) && p < c.threads && r < c.threads && CopyOk(s, p, r) && ScanOk(s.sh, s.th[p], r, s.th[r])
    ensures var (sh', t') := Move(c, s.sh, p, s.th[p], op, val, x);
            ScanOk(sh', t', r, if r == p then t' else s.th[r])
  {
    var t := s.th[p];
    var (sh', t') := Move(c, s.sh, p, t, op, val, x);
    var u := if r == p then t' else s.th[r];
    ScanningMoves(c, s.sh, p, t, op, val, x);
    ReservationMoves(c, s.sh, p, t, op, val, x);
    if Running(s.th[r]) {
      ReservationKnown(c, s, r);
    }
    if ScanUnderWay(t') && Running(u) {
      ScanGoesOn(c, s.sh, t, sh', t', r, s.th[r], u);
    }
  }

  /** A scan that goes on knows one more reservation at most. */
  lemma ScanGoesOn(c: Config, sh: Shared, t: Thread, sh': Shared, t': Thread, r: nat, u: Thread, u': Thread)
    requires ScanMoves(c, sh, t, sh', t') && r < c.threads
    requires t.pc == ELoad && r < t.i && SeesEntry(sh, t, u) ==> AtMost(ResOf(sh, t.i), ResOf(sh, r))
    requires ScanOk(sh, t, r, u) && Running(u) && u'.since == u.since && ResOf(sh, r).At?
    ensures ScanOk(sh', t', r, u')
  {
    if (t'.pc == EFree || (Scanning(t') && r < t'.i)) && SeesEntry(sh', t', u') {
      EntrySeenBefore(c, sh, t, sh', t', u, u');
      ScanBounds(c, sh, t, sh', t', r);
    }
  }

  /** The step that ends a scan leaves the scanner with the minimum and the list it had. */
  lemma EndOfScan(c: Config, sh: Shared, p: nat, t: Thread, op: Op, val: int, x: nat)
    requires |sh.slot| == |sh.next|
    ensures var (sh', t') := Move(c, sh, p, t, op, val, x);
            t'.pc == EFree ==> ScanMoves(c, sh, t, sh', t') && (t.pc == EFree || ScanEnds(c, t)) && t'.min == t.min
  {
    ScanningMoves(c, sh, p, t, op, val, x);
  }

  /** What the thread itself is about to free. */
  lemma OwnMinKept(c: Config, s: State, p: nat, op: Op, val: int, x: nat, r: nat)
    requires Inv(c, s) && p < c.threads && r < c.threads && ScanSound(c, s, p)
    ensures var (sh', t') := Move(c, s.sh, p, s.th[p], op, val, x);
            MinOk(sh', t', r, if r == p then t' else s.th[r])
  {
    var t := s.th[p];
    var (sh', t') := Move(c, s.sh, p, t, op, val, x);
    var u := if r == p then t' else s.th[r];
    if t'.pc == EFree && Running(u) && SeesEntry(sh', t', u) {
      EndOfScan(c, s.sh, p, t, op, val, x);
      ReservationMoves(c, s.sh, p, t, op, val, x);
      ReservationKnown(c, s, r);
      EntrySeenBefore(c, s.sh, t, sh', t', s.th[r], u);
      assert MinOk(s.sh, t, r, s.th[r]);
    }
  }

  /** Scanning and freeing bring no slot on one's own list into view. */
  lemma EntrySeenBefore(c: Config, sh: Shared, t: Thread, sh': Shared, t': Thread, u: Thread, u': Thread)
    requires ScanMoves(c, sh, t, sh', t') && u'.since == u.since && SeesEntry(sh', t', u')
    ensures SeesEntry(sh, t, u)
  {
    var n :| n in t'.list && Protected(sh', u'.since, n.idx);
    assert n in t.list && Protected(sh, u.since, n.idx);
  }

  /** What thread p itself is about to free, after its step. */
  ghost predicate OwnMinOk(c: Config, s: State, p: nat)
    requires |s.th| == c.threads && p < c.threads
  {
    forall r :: 0 <= r < c.threads ==> MinOk(s.sh, s.th[p], r, s.th[r])
  }

  lemma MinimaKept(c: Config, s: State, p: nat, op: Op, val: int, x: nat, s': State)
    requires Inv(c, s) && StepBy(c, s, p, op, val, x, s') && Evolves(c, s.sh, s'.sh, p) && OwnMinOk(c, s', p)
    ensures forall q, r :: 0 <= q < c.threads && 0 <= r < c.threads ==> MinOk(s'.sh, s'.th[q], r, s'.th[r])
  {
    forall q, r | 0 <= q < c.threads && 0 <= r < c.threads ensures MinOk(s'.sh, s'.th[q], r, s'.th[r]) {
      if q != p {
        OtherScansKept(c, s, p, op, val, x, q, r);
      }
    }
  }

  lemma OthersKept(c: Config, s: State, p: nat, op: Op, val: int, x: nat, s': State)
    requires Inv(c, s) && StepBy(c, s, p, op, val, x, s') && Evolves(c, s.sh, s'.sh, p) && HeapOk(c, s'.sh)
    ensures forall q :: 0 <= q < c.threads && q != p ==> ThreadOk(s'.sh, q, s'.th[q])
  {
    forall q | 0 <= q < c.threads && q != p ensures ThreadOk(s'.sh, q, s'.th[q]) {
      if Running(s.th[q]) {
        StepKeepsShelter(c, s, p, op, val, x, q);
      }
      ThreadSurvives(c, s.sh, s'.sh, p, q, s.th[q]);
    }
  }

  lemma ActingKept(c: Config, s: State, p: nat, op: Op, val: int, x: nat, s': State)
    requires Inv(c, s) && StepBy(c, s, p, op, val, x, s')
    ensures StepResult(c, s.sh, p, s'.sh, s'.th[p])
  {
    assert ThreadsOk(s.sh, map[p := s.th[p]]);
    if Running(s.th[p]) {
      StepKeepsShelter(c, s, p, op, val, x, p);
    }
    MoveOk(c, s.sh, p, s.th[p], op, val, x);
  }

  /** Only a scan of one's own can break the invariant. */
  lemma InvAfterStep(c: Config, s: State, p: nat, op: Op, val: int, x: nat, s': State)
    requires Inv(c, s) && StepBy(c, s, p, op, val, x, s') && OwnMinOk(c, s', p)
    ensures Inv(c, s') && Evolves(c, s.sh, s'.sh, p)
  {
    ActingKept(c, s, p, op, val, x, s');
    assert p in map[p := s'.th[p]];
    OthersKept(c, s, p, op, val, x, s');
    MinimaKept(c, s, p, op, val, x, s');
  }

  lemma StepKeepsInv(c: Config, s: State, p: nat, op: Op, val: int, x: nat, s': State)
    requires Inv(c, s) && SteadyStepBy(c, s, p, op, val, x, s')
    ensures Inv(c, s') && Evolves(c, s.sh, s'.sh, p)
  {
    forall r | 0 <= r < c.threads ensures MinOk(s'.sh, s'.th[p], r, s'.th[r]) {
      OwnMinKept(c, s, p, op, val, x, r);
    }
    InvAfterStep(c, s, p, op, val, x, s');
  }

  /** A spontaneous write-back changes nothing a thread relies on. */
  lemma WriteBackKeepsInv(c: Config, s: State, x: nat, s': State)
    requires Inv(c, s) && WriteBack(s, x, s')
    ensures Inv(c, s') && Evolves(c, s.sh, s'.sh, c.threads)
  {
    PersistKeeps(c, s.sh, c.threads, x);
    assert forall y: nat :: St(s'.sh, y) == St(s.sh, y);
    forall q | 0 <= q < c.threads ensures ThreadOk(s'.sh, q, s'.th[q]) {
      ThreadSurvives(c, s.sh, s'.sh, c.threads, q, s.th[q]);
    }
    forall q, r | 0 <= q < c.threads && 0 <= r < c.threads ensures MinOk(s'.sh, s'.th[q], r, s'.th[r]) {
      assert MinOk(s.sh, s.th[q], r, s.th[r]);
      if SeesEntry(s'.sh, s.th[q], s.th[r]) {
        EntriesSeenBefore(c, s.sh, s'.sh, c.threads, q, s.th[q], s.th[r]);
      }
    }
  }

  lemma InitIsInv(c: Config, s: State)
    requires Init(c, s)
    ensures Inv(c, s)
  {
    var sh := s.sh;
    assert Keys(sh) == {};
    forall p | 0 <= p < c.threads ensures ThreadOk(sh, p, s.th[p]) {
      assert forall x: nat :: OwnsSlot(sh, p, s.th[p], x);
    }
  }

  lemma InvIsInductive(c: Config, s: State, s': State)
    requires Inv(c, s) && SteadyStep(c, s, s')
    ensures Inv(c, s')
  {
    if x :| WriteBack(s, x, s') {
      WriteBackKeepsInv(c, s, x, s');
    } else {
      var p, op, val, x :| SteadyStepBy(c, s, p, op, val, x, s');
      StepKeepsInv(c, s, p, op, val, x, s');
    }
  }

  lemma {:induction false} RunsKeepInv(c: Config, run: seq<State>, n: nat)
    requires SteadyRun(c, run) && n < |run|
    ensures Inv(c, run[n])
  {
    if n == 0 {
      InitIsInv(c, run[0]);
    } else {
      RunsKeepInv(c, run, n - 1);
      assert SteadyStepAt(c, run, n);
      InvIsInductive(c, run[n - 1], run[n]);
    }
  }

  /** A step from a state where the invariant holds. */
  ghost predicate SoundAt(c: Config, from: State, to: State) {
    Inv(c, from) && SteadyStep(c, from, to)
  }

  /** `SoundAt` from a single state, folded: only ever applied to a set of one. */
  ghost predicate SoundStep(c: Config, from: set<State>, to: State) {
    forall s {:trigger SoundAt(c, s, to)} :: s in from ==> SoundAt(c, s, to)
  }

  lemma StepOfRun(c: Config, run: seq<State>, n: nat)
    requires SteadyRun(c, run) && 0 < n < |run|
    ensures SoundStep(c, {run[n - 1]}, run[n])
  {
    RunsKeepInv(c, run, n - 1);
    assert SteadyStepAt(c, run, n);
  }

  /** `Inv` of a single state, folded: only ever applied to a set of one. */
  ghost predicate StatesInv(c: Config, states: set<State>) {
    forall s {:trigger Inv(c, s)} :: s in states ==> Inv(c, s)
  }

  lemma StateOfRun(c: Config, run: seq<State>, n: nat)
    requires SteadyRun(c, run) && n < |run|
    ensures StatesInv(c, {run[n]})
  {
    RunsKeepInv(c, run, n);
  }
}
