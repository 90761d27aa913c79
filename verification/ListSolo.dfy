/** An operation that runs alone returns, from whatever state the other threads have left behind: a rank
    drawn from the retries still paid for, the program point, and the keys still ahead goes down in every
    step. */
module ListSolo {
  import opened ListCommon
  import opened ListMachine
  import opened ListInv
  import opened ListStable
  import opened ListSteps
  import opened ListEffects
  import opened ListSafety
  import opened ListSteady
  import opened ListLinear

  // The rank of a program point.

  datatype Rank = Rank(stage: nat, part: nat, distance: nat, place: nat, work: nat)

  predicate Below(a: Rank, b: Rank) {
    || a.stage < b.stage
    || (a.stage == b.stage && a.part < b.part)
    || (a.stage == b.stage && a.part == b.part && a.distance < b.distance)
    || (a.stage == b.stage && a.part == b.part && a.distance == b.distance && a.place < b.place)
    || (a.stage == b.stage && a.part == b.part && a.distance == b.distance && a.place == b.place && a.work < b.work)
  }

  /** Retries that other threads' successful CAS operations have paid for. */
  function Credit(sh: Shared, t: Thread): int { Others(sh, t) - t.base - t.tries }

  function SearchStage(caller: Caller): nat {
    if caller.AddRetry? then 27 else if caller.RemClean? then 24 else 30
  }

  function Stage(t: Thread): nat {
    match RoutineOf(t.pc)
    case Start => if t.pc.Idle? then 50 else if t.pc.StartRead? then 40 else 39
    case Contain => 20
    case Search => SearchStage(t.caller)
    case Retire => if t.inRemove then 20 else SearchStage(t.caller)
    case Insert =>
      if t.pc.AAlloc? then 29
      else if t.pc.AData? then 28
      else if t.pc.ANext? then 26
      else if t.pc.APersistNew? then 25
      else if t.pc.ALink? then 24
      else 12
    case Delete =>
      if t.pc.RRead? then 29
      else if t.pc.RMark? then 28
      else if t.pc.RPersistMark? then 27
      else if t.pc.RSnip? then 26
      else if t.pc.RKey? then 25
      else 12
    case End => if t.pc.EndOp? then 10 else if t.pc.DelNew? then 9 else 0
  }

  function Part(pc: PC): nat {
    match RoutineOf(pc)
    case Contain => if pc.CHead? then 9 else 8
    case Search =>
      if pc.SHead? then 9
      else if pc.STest? || pc.SNext? then 8
      else if pc.SCas? then 7
      else if pc.SPersist? then 6
      else if pc.SRetNext? then 5
      else if pc.Found? then 3
      else 4
    case Retire => 5
    case _ => 3
  }

  /** The slots whose keys are still ahead of a traversal. */
  function Ahead(sh: Shared, x: nat): set<nat> {
    set y: nat | y < |sh.slot| && Lt(sh, x, y)
  }

  function Distance(sh: Shared, t: Thread): nat {
    var part := Part(t.pc);
    if part == 8 then |Ahead(sh, t.t)| else if part == 5 then |t.pend| else 0
  }

  function PlaceIn(pc: PC): nat {
    if pc.EBump? then 5
    else if pc.EScan? || pc.ELoad? || pc.CTest? then 4
    else if pc.EFree? || pc.CMark? then 3
    else if pc.SRetNext? || pc.CKey? then 2
    else if pc.EEpoch? || pc.SNext? || pc.CNext? then 1
    else 0
  }

  function Work(c: Config, t: Thread): nat {
    if t.pc == EScan && t.i < c.threads then 2 * (c.threads - t.i)
    else if t.pc == ELoad then if t.i < c.threads then 2 * (c.threads - t.i) - 1 else 1
    else if t.pc == EFree && t.pos < |t.list| then |t.list| - t.pos
    else 0
  }

  function RankOf(c: Config, sh: Shared, t: Thread): Rank {
    Rank(Stage(t), Part(t.pc), Distance(sh, t), PlaceIn(t.pc), Work(c, t))
  }

  /** A retry. Only a remove goes back to a stage where an add would need a node. */
  predicate Retries(t: Thread, t': Thread) {
    && t'.tries == t.tries + 1 && t.pc != AAlloc && Stage(t') <= 30
    && (Stage(t') <= Stage(t) || Stage(t') < 29 || PhaseOf(t) == Removing)
  }

  /** A step that makes progress, or spends credit. */
  predicate Descends(c: Config, sh: Shared, t: Thread, sh': Shared, t': Thread) {
    || Retries(t, t')
    || (t'.tries == t.tries && Below(RankOf(c, sh', t'), RankOf(c, sh, t)))
  }

  lemma SmallerSet(a: set<nat>, b: set<nat>)
    requires a < b
    ensures |a| < |b|
  {
    assert b == a + (b - a);
    assert |b - a| > 0;
  }

  lemma AheadShrinks(sh: Shared, x: nat, y: nat)
    requires y < |sh.slot| && Lt(sh, x, y)
    ensures |Ahead(sh, y)| < |Ahead(sh, x)|
  {
    assert y in Ahead(sh, x) && y !in Ahead(sh, y);
    SmallerSet(Ahead(sh, y), Ahead(sh, x));
  }

  // Every step descends.

  /** A retry, or a step to a later stage. */
  predicate StageDrops(t: Thread, t': Thread) {
    Retries(t, t') || (t'.tries == t.tries && Stage(t') < Stage(t))
  }

  /** A step to a later part of the same stage. */
  predicate PartDrops(t: Thread, t': Thread) {
    Retries(t, t') || (t'.tries == t.tries && Stage(t') == Stage(t) && Part(t'.pc) < Part(t.pc))
  }

  lemma DropsDescend(c: Config, sh: Shared, t: Thread, sh': Shared, t': Thread)
    requires StageDrops(t, t') || PartDrops(t, t')
    ensures Descends(c, sh, t, sh', t')
  {}

  /** A step to a later place in the same part of the same stage. */
  lemma PlaceDescends(c: Config, sh: Shared, t: Thread, t': Thread)
    requires t'.tries == t.tries && Stage(t') == Stage(t) && Part(t'.pc) == Part(t.pc) == 8
    requires t'.t == t.t && PlaceIn(t'.pc) < PlaceIn(t.pc)
    ensures Descends(c, sh, t, sh, t')
  {}

  /** A traversal moves on. */
  lemma MovingDescends(c: Config, sh: Shared, t: Thread, t': Thread)
    requires t'.tries == t.tries && Stage(t') == Stage(t) && Part(t'.pc) == Part(t.pc) == 8
    requires t'.t < |sh.slot| && Lt(sh, t.t, t'.t)
    ensures Descends(c, sh, t, sh, t')
  {
    AheadShrinks(sh, t.t, t'.t);
  }

  lemma ReadingLooksAhead(sh: Shared, p: nat, t: Thread)
    requires t.pc == CNext && ThreadsOk(sh, map[p := t])
    ensures Nxt(sh, t.t).idx < |sh.slot| && Lt(sh, t.t, Nxt(sh, t.t).idx)
  {
    ThreadFacts(sh, p, t);
    ShelteredNext(sh, p, t, t.t);
  }

  lemma SearchLooksAhead(sh: Shared, p: nat, t: Thread)
    requires t.pc == STest && ThreadsOk(sh, map[p := t])
    ensures t.tn.idx < |sh.slot| && Lt(sh, t.t, t.tn.idx)
  {
    ThreadFacts(sh, p, t);
  }

  lemma ReadingDescends(c: Config, sh: Shared, p: nat, t: Thread)
    requires PhaseOf(t) == Reading && ThreadsOk(sh, map[p := t])
    ensures Descends(c, sh, t, sh, ContainsStep(sh, t))
  {
    var t' := ContainsStep(sh, t);
    if t.pc == CNext {
      ReadingLooksAhead(sh, p, t);
      MovingDescends(c, sh, t, t');
    } else if t.pc == CHead || t'.pc == EndOp {
      ReadingDrops(sh, t);
      DropsDescend(c, sh, t, sh, t');
    } else {
      PlaceDescends(c, sh, t, t');
    }
  }

  lemma ReadingDrops(sh: Shared, t: Thread)
    requires PhaseOf(t) == Reading && (t.pc == CHead || ContainsStep(sh, t).pc == EndOp)
    ensures StageDrops(t, ContainsStep(sh, t)) || PartDrops(t, ContainsStep(sh, t))
  {}

  lemma AdvanceMoves(t: Thread)
    requires t.pc == STest
    ensures Advance(t).tries == t.tries && Stage(Advance(t)) == Stage(t)
    ensures if Advance(t).pc == SNext then Advance(t).t == t.tn.idx else Part(Advance(t).pc) < 8
  {
    AdvanceShape(t);
  }

  lemma DecideMoves(t: Thread, right: nat)
    requires t.pc == STest
    ensures PartDrops(t, Decide(t, right))
  {}

  lemma TestDescends(c: Config, sh: Shared, p: nat, t: Thread)
    requires t.pc == STest && ThreadsOk(sh, map[p := t])
    ensures Descends(c, sh, t, SearchStep(sh, p, t).0, SearchStep(sh, p, t).1)
  {
    SearchLooksAhead(sh, p, t);
    AdvanceMoves(t);
    DecideMoves(t, t.t);
    if t.tn.mark || Dat(sh, t.t) < t.key {
      if Advance(t).pc == SNext {
        MovingDescends(c, sh, t, Advance(t));
      } else {
        DropsDescend(c, sh, t, sh, Advance(t));
      }
    } else {
      DropsDescend(c, sh, t, sh, Decide(t, t.t));
    }
  }

  lemma FoundDrops(sh: Shared, p: nat, t: Thread)
    requires t.pc == Found
    ensures StageDrops(t, SearchStep(sh, p, t).1)
  {}

  lemma SearchDrops(sh: Shared, p: nat, t: Thread)
    requires t.pc == SHead || t.pc == SCas || t.pc == SPersist || t.pc == SCheck || t.pc == SRecheck
    ensures PartDrops(t, SearchStep(sh, p, t).1)
  {}

  lemma WalkDescends(c: Config, sh: Shared, p: nat, t: Thread)
    requires t.pc == SNext || t.pc == SRetNext
    ensures Descends(c, sh, t, SearchStep(sh, p, t).0, SearchStep(sh, p, t).1)
  {}

  lemma SearchDescends(c: Config, sh: Shared, p: nat, t: Thread)
    requires t.pc == SHead || PhaseOf(t) == Walking || PhaseOf(t) == Deciding || t.pc == SPersist || t.pc == SRetNext
    requires ThreadsOk(sh, map[p := t])
    ensures Descends(c, sh, t, SearchStep(sh, p, t).0, SearchStep(sh, p, t).1)
  {
    var (sh', t') := SearchStep(sh, p, t);
    if t.pc.STest? {
      TestDescends(c, sh, p, t);
    } else if t.pc.SNext? || t.pc.SRetNext? {
      WalkDescends(c, sh, p, t);
    } else if t.pc.Found? {
      FoundDrops(sh, p, t);
      DropsDescend(c, sh, t, sh', t');
    } else {
      SearchDrops(sh, p, t);
      DropsDescend(c, sh, t, sh', t');
    }
  }

  lemma AddDrops(sh: Shared, p: nat, t: Thread, x: nat)
    requires PhaseOf(t) == Adding || t.pc == APersistLeft
    requires t.pc == AAlloc ==> Bit(sh, x)
    ensures StageDrops(t, AddStep(sh, p, t, x).1)
  {}

  lemma RemoveRetries(t: Thread)
    requires (t.pc == RRead || t.pc == RMark) && t.caller == RemFind
    ensures StageDrops(t, Again(t))
  {}

  lemma RemoveStarts(sh: Shared, p: nat, t: Thread)
    requires (t.pc == RRead || t.pc == RMark) && t.caller == RemFind
    ensures StageDrops(t, RemoveStep(sh, p, t).1)
  {
    RemoveRetries(t);
  }

  lemma RemoveGoesOn(sh: Shared, p: nat, t: Thread)
    requires t.pc == RPersistMark || t.pc == RSnip || t.pc == RKey || t.pc == RPersistLeft
    ensures StageDrops(t, RemoveStep(sh, p, t).1)
  {}

  lemma RemoveDrops(sh: Shared, p: nat, t: Thread)
    requires PhaseOf(t) == Removing || t.pc == RPersistLeft
    requires t.caller == RemFind || t.pc == RPersistLeft
    ensures StageDrops(t, RemoveStep(sh, p, t).1)
  {
    if t.pc == RRead || t.pc == RMark {
      RemoveStarts(sh, p, t);
    } else {
      RemoveGoesOn(sh, p, t);
    }
  }

  lemma RetireDoneDescends(c: Config, sh: Shared, t: Thread, sh': Shared, t': Thread)
    requires t.pc == EEpoch || t.pc == EBump || t.pc == EScan || t.pc == ELoad || t.pc == EFree
    requires t'.pend == t.pend || |t'.pend| < |t.pend|
    requires t.pc == EEpoch ==> |t'.pend| < |t.pend|
    requires t'.tries == t.tries && t'.inRemove == t.inRemove && t'.caller == t.caller
    requires t'.pc == (if t.inRemove then RPersistLeft else SRetNext)
    ensures Descends(c, sh, t, sh', t')
  {}

  lemma RetireGoesOn(c: Config, sh: Shared, t: Thread, sh': Shared, t': Thread)
    requires t.pc == EEpoch || t.pc == EBump || t.pc == EScan || t.pc == ELoad || t.pc == EFree
    requires t'.pc == EBump || t'.pc == EScan || t'.pc == ELoad || t'.pc == EFree
    requires t'.tries == t.tries && t'.inRemove == t.inRemove && t'.caller == t.caller
    requires if t.pc == EEpoch then |t'.pend| < |t.pend| else t'.pend == t.pend
    requires t.pc != EEpoch ==>
               PlaceIn(t'.pc) < PlaceIn(t.pc) || (PlaceIn(t'.pc) == PlaceIn(t.pc) && Work(c, t') < Work(c, t))
    ensures Descends(c, sh, t, sh', t')
  {}

  lemma AfterBumpDescends(c: Config, sh: Shared, t: Thread, sh': Shared, u: Thread)
    requires (t.pc == EEpoch && |u.pend| < |t.pend|) || (t.pc == EBump && u.pend == t.pend)
    requires u.tries == t.tries && u.inRemove == t.inRemove && u.caller == t.caller
    ensures Descends(c, sh, t, sh', AfterBump(u))
  {
    if |u.list| % EMPTY_FREQ == 0 {
      RetireGoesOn(c, sh, t, sh', AfterBump(u));
    } else {
      RetireDoneDescends(c, sh, t, sh', AfterBump(u));
    }
  }

  lemma EpochDescends(c: Config, sh: Shared, p: nat, t: Thread)
    requires t.pc == EEpoch && |t.pend| > 0
    ensures Descends(c, sh, t, RetireStep(c, sh, p, t).0, RetireStep(c, sh, p, t).1)
  {
    var u := Listed(sh, t);
    if u.counter % EPOCH_FREQ == 0 {
      RetireGoesOn(c, sh, t, RetireStep(c, sh, p, t).0, u.(pc := EBump));
    } else {
      AfterBumpDescends(c, sh, t, RetireStep(c, sh, p, t).0, u);
    }
  }

  lemma ScanDescends(c: Config, sh: Shared, p: nat, t: Thread)
    requires (Scanning(t) || t.pc == EFree) && c.threads > 0
    ensures Descends(c, sh, t, RetireStep(c, sh, p, t).0, RetireStep(c, sh, p, t).1)
  {
    var (sh', t') := RetireStep(c, sh, p, t);
    if t.pc == EFree && t.pos >= |t.list| {
      RetireDoneDescends(c, sh, t, sh', t');
    } else {
      RetireGoesOn(c, sh, t, sh', t');
    }
  }

  lemma RetireDescends(c: Config, sh: Shared, p: nat, t: Thread)
    requires t.pc == EEpoch || t.pc == EBump || t.pc == EScan || t.pc == ELoad || t.pc == EFree
    requires c.threads > 0 && (t.pc == EEpoch ==> |t.pend| > 0)
    ensures Descends(c, sh, t, RetireStep(c, sh, p, t).0, RetireStep(c, sh, p, t).1)
  {
    if t.pc.EEpoch? {
      EpochDescends(c, sh, p, t);
    } else if t.pc.EBump? {
      AfterBumpDescends(c, sh, t, RetireStep(c, sh, p, t).0, t);
    } else {
      ScanDescends(c, sh, p, t);
    }
  }

  predicate MayMove(sh: Shared, t: Thread, x: nat) {
    t.pc != Idle && t.pc != Return && (t.pc == AAlloc ==> Bit(sh, x))
  }

  lemma StartDrops(sh: Shared, p: nat, t: Thread, op: Op, val: int)
    requires t.pc == StartRead || t.pc == StartStore
    ensures StageDrops(t, StartStep(sh, p, t, op, val).1)
  {}

  lemma EndDrops(sh: Shared, p: nat, t: Thread)
    requires t.pc == EndOp || t.pc == DelNew
    ensures StageDrops(t, EndStep(sh, p, t).1)
  {}

  /** Steps that do not walk. */
  lemma MoveDrops(c: Config, sh: Shared, p: nat, t: Thread, op: Op, val: int, x: nat)
    requires MayMove(sh, t, x) && (PhaseOf(t) == Removing ==> t.caller == RemFind)
    requires var ph := PhaseOf(t);
             ph == Outside || ph == Starting || ph == Adding || ph == Removing || ph == Persisting || ph == Ending || ph == Ended
    ensures StageDrops(t, Move(c, sh, p, t, op, val, x).1)
  {
    if t.pc.StartRead? || t.pc.StartStore? {
      StartDrops(sh, p, t, op, val);
    } else if t.pc.EndOp? || t.pc.DelNew? {
      EndDrops(sh, p, t);
    } else if RoutineOf(t.pc).Insert? {
      AddDrops(sh, p, t, x);
    } else {
      RemoveDrops(sh, p, t);
    }
  }

  lemma RemovingCaller(sh: Shared, p: nat, t: Thread)
    requires ThreadsOk(sh, map[p := t])
    ensures PhaseOf(t) == Removing ==> t.caller == RemFind
    ensures t.pc == EEpoch ==> |t.pend| > 0
  {
    ThreadFacts(sh, p, t);
    if t.pc == EEpoch {
      EpochHasPending(sh, p, t);
    }
  }

  /** Every step of a call descends, unless the allocator finds no slot. */
  lemma ThreadDescends(c: Config, sh: Shared, p: nat, t: Thread, op: Op, val: int, x: nat)
    requires ThreadsOk(sh, map[p := t]) && c.threads > 0 && MayMove(sh, t, x)
    ensures Descends(c, sh, t, Move(c, sh, p, t, op, val, x).0, Move(c, sh, p, t, op, val, x).1)
  {
    var (sh', t') := Move(c, sh, p, t, op, val, x);
    RemovingCaller(sh, p, t);
    match RoutineOf(t.pc)
    case Contain => ReadingDescends(c, sh, p, t);
    case Search => SearchDescends(c, sh, p, t);
    case Retire => RetireDescends(c, sh, p, t);
    case _ =>
      MoveDrops(c, sh, p, t, op, val, x);
      DropsDescend(c, sh, t, sh', t');
  }

  // An operation run alone.

  predicate HasRoom(c: Config, sh: Shared) {
    exists x: nat :: x < c.slots && Findable(c, x) && Bit(sh, x)
  }

  /** An add that has no node yet will find a free slot. */
  predicate Provided(c: Config, s: State, p: nat) {
    p < |s.th| && (s.th[p].op.Add? && Stage(s.th[p]) >= 29 ==> HasRoom(c, s.sh))
  }

  ghost predicate SoloStep(c: Config, s: State, p: nat, s': State) {
    exists op, val, x :: StepBy(c, s, p, op, val, x, s')
  }

  /** Only thread p moves. */
  ghost predicate SoloRun(c: Config, run: seq<State>, p: nat) {
    forall n :: 0 < n < |run| ==> SoloStepAt(c, run, p, n)
  }

  ghost predicate SoloStepAt(c: Config, run: seq<State>, p: nat, n: nat)
    requires 0 < n < |run|
  {
    forall s, s' {:trigger SoloStep(c, s, p, s')} :: s == run[n - 1] && s' == run[n] ==> SoloStep(c, s, p, s')
  }

  lemma BitsStay(c: Config, sh: Shared, p: nat, t: Thread, op: Op, val: int, x: nat, y: nat)
    requires t.pc != AAlloc && Bit(sh, y)
    ensures Bit(Move(c, sh, p, t, op, val, x).0, y)
  {}

  lemma RoomStays(c: Config, sh: Shared, p: nat, t: Thread, op: Op, val: int, x: nat)
    requires t.pc != AAlloc && HasRoom(c, sh)
    ensures HasRoom(c, Move(c, sh, p, t, op, val, x).0)
  {
    var y: nat :| y < c.slots && Findable(c, y) && Bit(sh, y);
    BitsStay(c, sh, p, t, op, val, x, y);
  }

  /** The part of the invariant that a thread needs to run alone: the facts of its own, and what its scan
      knows of its own reservation. */
  ghost predicate SoloInv(c: Config, sh: Shared, p: nat, t: Thread) {
    HeapOk(c, sh) && ThreadsOk(sh, map[p := t]) && ScanOk(sh, t, p, t)
  }

  /** The thread is not about to copy a value above its own reservation while it can still see a slot on its
      own retired list. */
  ghost predicate OwnCopyOk(sh: Shared, p: nat, t: Thread) {
    t.pc == ELoad && p < t.i && SeesEntry(sh, t, t) ==> AtMost(ResOf(sh, t.i), ResOf(sh, p))
  }

  /** `SoloInv` of a single thread state, folded: only ever applied to a set of one. */
  ghost predicate SolosInv(c: Config, sh: Shared, p: nat, ts: set<Thread>) {
    forall t {:trigger SoloInv(c, sh, p, t)} :: t in ts ==> SoloInv(c, sh, p, t)
  }

  /** What running alone needs to know of a state. */
  ghost predicate SoloOk(c: Config, s: State, p: nat) {
    && p < c.threads && p < |s.th| && SolosInv(c, s.sh, p, {s.th[p]})
    && s.th[p].pc != Idle && Provided(c, s, p) && OwnCopyOk(s.sh, p, s.th[p])
  }

  /** A thread frees nothing in its own view. */
  lemma OwnViewStays(sh: Shared, p: nat, t: Thread, x: nat)
    requires FrameOk(sh, p, t) && ScanOk(sh, t, p, t) && Running(t) && Frees(t, x)
    ensures KeepsShelter(sh, FreeNode(sh, x), t.since)
  {
    assert t.pc == EFree;
    var n := t.list[t.pos];
    assert n in t.list && OwnsSlot(sh, p, t, n.idx);
    OldIsUnseen(sh, p, t, n, p, t);
  }

  lemma AloneIsSound(c: Config, sh: Shared, p: nat, t: Thread, op: Op, val: int, x: nat)
    requires SoloInv(c, sh, p, t) && p < c.threads && t.pc != Idle
    ensures StepResult(c, sh, p, Move(c, sh, p, t, op, val, x).0, Move(c, sh, p, t, op, val, x).1)
  {
    ThreadFrame(sh, p, t);
    forall y: nat | Frees(t, y) && Running(t) ensures KeepsShelter(sh, FreeNode(sh, y), t.since) {
      OwnViewStays(sh, p, t, y);
    }
    MoveOk(c, sh, p, t, op, val, x);
  }

  lemma OwnReservation(sh: Shared, p: nat, t: Thread)
    requires ThreadsOk(sh, map[p := t]) && Running(t)
    ensures ResOf(sh, p).At?
  {
    ThreadFrame(sh, p, t);
  }

  lemma OwnScanGoesOn(c: Config, sh: Shared, p: nat, t: Thread, op: Op, val: int, x: nat)
    requires SoloInv(c, sh, p, t) && p < c.threads && OwnCopyOk(sh, p, t)
    ensures var (sh', t') := Move(c, sh, p, t, op, val, x); ScanOk(sh', t', p, t')
  {
    var (sh', t') := Move(c, sh, p, t, op, val, x);
    ScanningMoves(c, sh, p, t, op, val, x);
    ReservationMoves(c, sh, p, t, op, val, x);
    if ScanUnderWay(t') && Running(t') {
      OwnReservation(sh, p, t);
      ScanGoesOn(c, sh, t, sh', t', p, t, t');
    }
  }

  lemma FreshCopyIsOk(sh: Shared, p: nat, t: Thread)
    requires ScanOk(sh, t, p, t) && !Overtakes(sh, t) && (t.pc == ELoad ==> Running(t))
    ensures OwnCopyOk(sh, p, t)
  {}

  lemma AloneKeepsFacts(c: Config, sh: Shared, p: nat, t: Thread, op: Op, val: int, x: nat)
    requires SolosInv(c, sh, p, {t}) && p < c.threads && t.pc != Idle && OwnCopyOk(sh, p, t)
    ensures var (sh', t') := Move(c, sh, p, t, op, val, x); SolosInv(c, sh', p, {t'})
  {
    assert SoloInv(c, sh, p, t);
    AloneIsSound(c, sh, p, t, op, val, x);
    OwnScanGoesOn(c, sh, p, t, op, val, x);
  }

  lemma NextCopyIsOk(c: Config, sh: Shared, p: nat, t: Thread)
    requires SolosInv(c, sh, p, {t}) && !Overtakes(sh, t)
    ensures OwnCopyOk(sh, p, t)
  {
    assert SoloInv(c, sh, p, t);
    FreshCopyIsOk(sh, p, t);
  }

  lemma AloneKeepsInv(c: Config, sh: Shared, p: nat, t: Thread, op: Op, val: int, x: nat)
    requires SolosInv(c, sh, p, {t}) && p < c.threads && t.pc != Idle && OwnCopyOk(sh, p, t)
    ensures var (sh', t') := Move(c, sh, p, t, op, val, x); SolosInv(c, sh', p, {t'}) && OwnCopyOk(sh', p, t')
  {
    var (sh', t') := Move(c, sh, p, t, op, val, x);
    AloneKeepsFacts(c, sh, p, t, op, val, x);
    AloneIsSteady(c, sh, p, t, op, val, x);
    NextCopyIsOk(c, sh', p, t');
  }

  lemma StageGoesDown(c: Config, sh: Shared, t: Thread, sh': Shared, t': Thread)
    requires Descends(c, sh, t, sh', t')
    ensures Stage(t') <= Stage(t) || Stage(t') < 29 || PhaseOf(t) == Removing
    ensures t.pc == AAlloc ==> Stage(t') < 29
    ensures t.pc != Idle ==> t'.pc != Idle
  {}

  lemma OpOfThread(sh: Shared, p: nat, t: Thread)
    requires ThreadsOk(sh, map[p := t])
    ensures PhaseOf(t) == Removing ==> t.op.Remove?
    ensures 0 <= Credit(sh, t)
  {
    ThreadFacts(sh, p, t);
  }

  /** A step by one thread, with what is known before and after it. */
  ghost predicate ThreadSteps(c: Config, sh: Shared, p: nat, t: Thread, sh': Shared, t': Thread) {
    && ThreadsOk(sh, map[p := t]) && ThreadsOk(sh', map[p := t'])
    && Descends(c, sh, t, sh', t') && Booked(sh, t, sh', t')
  }

  lemma MoveGivesSteps(c: Config, s: State, p: nat, op: Op, val: int, x: nat, s': State)
    requires SoloOk(c, s, p) && StepBy(c, s, p, op, val, x, s') && MayMove(s.sh, s.th[p], x)
    ensures SolosInv(c, s'.sh, p, {s'.th[p]}) && OwnCopyOk(s'.sh, p, s'.th[p])
    ensures ThreadSteps(c, s.sh, p, s.th[p], s'.sh, s'.th[p])
  {
    assert SoloInv(c, s.sh, p, s.th[p]);
    AloneKeepsInv(c, s.sh, p, s.th[p], op, val, x);
    assert SoloInv(c, s'.sh, p, s'.th[p]);
    ThreadDescends(c, s.sh, p, s.th[p], op, val, x);
    MoveIsBooked(c, s.sh, p, s.th[p], op, val, x);
  }

  predicate CreditGoesDown(c: Config, sh: Shared, t: Thread, sh': Shared, t': Thread) {
    && 0 <= Credit(sh', t') <= Credit(sh, t)
    && (Credit(sh', t') == Credit(sh, t) ==> Below(RankOf(c, sh', t'), RankOf(c, sh, t)))
  }

  lemma StepSpendsCredit(c: Config, sh: Shared, p: nat, t: Thread, sh': Shared, t': Thread)
    requires ThreadSteps(c, sh, p, t, sh', t') && t.pc != Idle
    ensures CreditGoesDown(c, sh, t, sh', t') && t'.pc != Idle
    ensures t'.op.Add? && Stage(t') >= 29 ==> t.op.Add? && Stage(t) >= 29 && t.pc != AAlloc
  {
    OpOfThread(sh, p, t);
    OpOfThread(sh', p, t');
    StageGoesDown(c, sh, t, sh', t');
  }

  /** A step of a call run alone: the invariant and the supply of slots are kept, and the credit goes down,
      or stays and the rank goes down. */
  lemma SoloStepDescends(c: Config, s: State, p: nat, op: Op, val: int, x: nat, s': State)
    requires SoloOk(c, s, p) && StepBy(c, s, p, op, val, x, s') && MayMove(s.sh, s.th[p], x)
    ensures SoloOk(c, s', p) && CreditGoesDown(c, s.sh, s.th[p], s'.sh, s'.th[p])
  {
    MoveGivesSteps(c, s, p, op, val, x, s');
    StepSpendsCredit(c, s.sh, p, s.th[p], s'.sh, s'.th[p]);
    if s.th[p].pc != AAlloc && HasRoom(c, s.sh) {
      RoomStays(c, s.sh, p, s.th[p], op, val, x);
    }
  }

  lemma RetireIsSteady(c: Config, sh: Shared, p: nat, t: Thread)
    requires t.pc == EEpoch || t.pc == EBump || t.pc == EScan || t.pc == ELoad || t.pc == EFree
    ensures var (sh', t') := RetireStep(c, sh, p, t); !Overtakes(sh', t')
  {}

  /** A thread alone copies what it has compared. */
  lemma AloneIsSteady(c: Config, sh: Shared, p: nat, t: Thread, op: Op, val: int, x: nat)
    ensures var (sh', t') := Move(c, sh, p, t, op, val, x); !Overtakes(sh', t')
  {
    match RoutineOf(t.pc)
    case Retire => RetireIsSteady(c, sh, p, t);
    case Start =>
    case End =>
    case _ => MoveIsPlain(c, sh, p, t, op, val, x);
  }

  lemma CreditOf(c: Config, s: State, p: nat)
    requires SoloOk(c, s, p)
    ensures 0 <= Credit(s.sh, s.th[p])
  {
    assert SoloInv(c, s.sh, p, s.th[p]);
    OpOfThread(s.sh, p, s.th[p]);
  }

  lemma OpOfAlloc(c: Config, s: State, p: nat)
    requires SoloOk(c, s, p) && s.th[p].pc == AAlloc
    ensures HasRoom(c, s.sh)
  {
    assert SoloInv(c, s.sh, p, s.th[p]);
    ThreadBook(s.sh, p, s.th[p]);
  }

  /** A run of thread p alone from s to the return of its call. */
  ghost predicate ReturnsBy(c: Config, s: State, p: nat, run: seq<State>) {
    && |run| > 0 && run[0] == s && SoloRun(c, run, p)
    && Busy(run[|run| - 1], p) && run[|run| - 1].th[p].pc == Return
  }

  ghost predicate CanReturn(c: Config, s: State, p: nat) {
    exists run: seq<State> :: ReturnsBy(c, s, p, run)
  }

  lemma SoloRunGrows(c: Config, s: State, p: nat, rest: seq<State>)
    requires |rest| > 0 && SoloStep(c, s, p, rest[0]) && SoloRun(c, rest, p)
    ensures SoloRun(c, [s] + rest, p)
  {
    var run := [s] + rest;
    forall n | 0 < n < |run| ensures SoloStepAt(c, run, p, n) {
      if n > 1 {
        assert SoloStepAt(c, rest, p, n - 1);
      }
    }
  }

  lemma ReturnAfterStep(c: Config, s: State, p: nat, s': State)
    requires SoloStep(c, s, p, s') && CanReturn(c, s', p)
    ensures CanReturn(c, s, p)
  {
    var rest: seq<State> :| ReturnsBy(c, s', p, rest);
    SoloRunGrows(c, s, p, rest);
    assert ReturnsBy(c, s, p, [s] + rest);
  }

  /** The thread can make a step, after which it has less to do. */
  lemma StepAlone(c: Config, s: State, p: nat) returns (s': State)
    requires SoloOk(c, s, p) && s.th[p].pc != Return
    ensures SoloOk(c, s', p) && CreditGoesDown(c, s.sh, s.th[p], s'.sh, s'.th[p])
    ensures CanReturn(c, s', p) ==> CanReturn(c, s, p)
  {
    var x: nat := 0;
    if s.th[p].pc == AAlloc {
      OpOfAlloc(c, s, p);
      x :| x < c.slots && Findable(c, x) && Bit(s.sh, x);
    }
    var (sh', t') := Move(c, s.sh, p, s.th[p], Contains, 0, x);
    s' := State(sh', s.th[p := t']);
    assert StepBy(c, s, p, Contains, 0, x, s');
    SoloStepDescends(c, s, p, Contains, 0, x, s');
    if CanReturn(c, s', p) {
      ReturnAfterStep(c, s, p, s');
    }
  }

  lemma {:induction false} RunAlone(c: Config, s: State, p: nat, credit: nat, rank: Rank)
    requires SoloOk(c, s, p) && credit == Credit(s.sh, s.th[p]) && rank == RankOf(c, s.sh, s.th[p])
    ensures CanReturn(c, s, p)
    decreases credit, rank.stage, rank.part, rank.distance, rank.place, rank.work
  {
    if s.th[p].pc == Return {
      assert ReturnsBy(c, s, p, [s]);
    } else {
      var s' := StepAlone(c, s, p);
      RunAlone(c, s', p, Credit(s'.sh, s'.th[p]), RankOf(c, s'.sh, s'.th[p]));
    }
  }

  // The end of a remove that scans. It returns however the scan goes.

  predicate Winding(t: Thread) {
    || (t.inRemove && (t.pc == EScan || t.pc == ELoad || t.pc == EFree))
    || t.pc == RPersistLeft || t.pc == EndOp || t.pc == DelNew || t.pc == Return
  }

  lemma ScanWinds(c: Config, sh: Shared, p: nat, t: Thread)
    requires t.inRemove && (t.pc == EScan || t.pc == ELoad || t.pc == EFree)
    ensures Winding(RetireStep(c, sh, p, t).1) && RetireStep(c, sh, p, t).1.tries == t.tries
  {}

  /** The step of the thread takes it nearer to its return. */
  predicate WindsOn(c: Config, sh: Shared, t: Thread, r: (Shared, Thread)) {
    Winding(r.1) && Below(RankOf(c, r.0, r.1), RankOf(c, sh, t))
  }

  /** The same of a single outcome, folded: only ever applied to a set of one. */
  ghost predicate WindsOnTo(c: Config, sh: Shared, t: Thread, rs: set<(Shared, Thread)>) {
    forall r {:trigger WindsOn(c, sh, t, r)} :: r in rs ==> WindsOn(c, sh, t, r)
  }

  lemma ScanGoesDown(c: Config, sh: Shared, p: nat, t: Thread)
    requires t.inRemove && (t.pc == EScan || t.pc == ELoad || t.pc == EFree) && c.threads > 0
    ensures WindsOnTo(c, sh, t, {RetireStep(c, sh, p, t)})
  {
    ScanWinds(c, sh, p, t);
    ScanDescends(c, sh, p, t);
    assert !Retries(t, RetireStep(c, sh, p, t).1);
  }

  lemma StageGoesDownTo(c: Config, sh: Shared, t: Thread, r: (Shared, Thread))
    requires Winding(r.1) && Stage(r.1) < Stage(t)
    ensures WindsOnTo(c, sh, t, {r})
  {}

  lemma EndGoesDown(c: Config, sh: Shared, p: nat, t: Thread)
    requires t.pc == EndOp || t.pc == DelNew
    ensures WindsOnTo(c, sh, t, {EndStep(sh, p, t)})
  {
    StageGoesDownTo(c, sh, t, EndStep(sh, p, t));
  }

  lemma PersistGoesDown(c: Config, sh: Shared, p: nat, t: Thread)
    requires t.pc == RPersistLeft
    ensures WindsOnTo(c, sh, t, {RemoveStep(sh, p, t)})
  {
    StageGoesDownTo(c, sh, t, RemoveStep(sh, p, t));
  }

  lemma WindingGoesOn(c: Config, sh: Shared, p: nat, t: Thread)
    requires Winding(t) && t.pc != Return && c.threads > 0
    ensures WindsOnTo(c, sh, t, {Move(c, sh, p, t, Contains, 0, 0)})
  {
    if t.pc.EScan? || t.pc.ELoad? || t.pc.EFree? {
      ScanGoesDown(c, sh, p, t);
    } else if t.pc.EndOp? || t.pc.DelNew? {
      EndGoesDown(c, sh, p, t);
    } else {
      PersistGoesDown(c, sh, p, t);
    }
  }

  lemma {:induction false} WindsUp(c: Config, s: State, p: nat, rank: Rank)
    requires p < |s.th| && c.threads > 0 && Winding(s.th[p]) && rank == RankOf(c, s.sh, s.th[p])
    ensures CanReturn(c, s, p)
    decreases rank.stage, rank.part, rank.distance, rank.place, rank.work
  {
    if s.th[p].pc == Return {
      assert ReturnsBy(c, s, p, [s]);
    } else {
      var (sh', t') := Move(c, s.sh, p, s.th[p], Contains, 0, 0);
      var s' := State(sh', s.th[p := t']);
      assert StepBy(c, s, p, Contains, 0, 0, s');
      WindingGoesOn(c, s.sh, p, s.th[p]);
      assert WindsOn(c, s.sh, s.th[p], (sh', t'));
      WindsUp(c, s', p, RankOf(c, s'.sh, s'.th[p]));
      ReturnAfterStep(c, s, p, s');
    }
  }

  lemma SoloOfState(c: Config, s: State, p: nat)
    requires StatesInv(c, {s}) && p < c.threads && Busy(s, p) && Provided(c, s, p)
    requires !Scanning(s.th[p]) && s.th[p].pc != EFree
    ensures SoloOk(c, s, p)
  {
    assert Inv(c, s);
    assert SoloInv(c, s.sh, p, s.th[p]);
  }
}
