/** A call run alone returns, whatever its next load reads: a thread that retires what a search has unlinked
    gets to the end of its list even if its scan lets it free slots in its own view. Those are slots that it
    has unlinked itself, all of them before it last found its left and right nodes linked. So it goes on as if
    it had stored its reservation only then. */
module ListUnwind {
  import opened ListCommon
  import opened ListMachine
  import opened ListInv
  import opened ListHeap
  import opened ListStable
  import opened ListSteps
  import opened ListEffects
  import opened ListSafety
  import opened ListLinear
  import opened ListSolo

  // No step reads `since`.

  function Since(t: Thread, since: nat): Thread { t.(since := since) }

  function SinceOf(r: (Shared, Thread), a: nat): (Shared, Thread) { (r.0, Since(r.1, a)) }

  lemma StartReads(sh: Shared, p: nat, t: Thread, a: nat, op: Op, val: int)
    requires RoutineOf(t.pc).Start?
    ensures StartStep(sh, p, Since(t, a), op, val)
            == SinceOf(StartStep(sh, p, t, op, val), if t.pc.StartStore? then sh.snips else a)
  {}

  lemma HelpersRead(t: Thread, a: nat, x: nat, b: bool)
    ensures Finish(Since(t, a), b) == Since(Finish(t, b), a)
    ensures Again(Since(t, a)) == Since(Again(t), a)
    ensures RetireLoop(Since(t, a), x) == Since(RetireLoop(t, x), a)
    ensures Decide(Since(t, a), x) == Since(Decide(t, x), a)
  {}

  lemma ContainsReads(sh: Shared, t: Thread, a: nat)
    ensures ContainsStep(sh, Since(t, a)) == Since(ContainsStep(sh, t), a)
  {
    if t.pc.CTest? {
      HelpersRead(t, a, 0, false);
    } else if t.pc.CKey? {
      HelpersRead(t, a, 0, Dat(sh, t.t) == t.val);
    }
  }

  lemma EndReads(sh: Shared, p: nat, t: Thread, a: nat)
    ensures EndStep(sh, p, Since(t, a)) == SinceOf(EndStep(sh, p, t), a)
  {}

  lemma AdvanceReads(t: Thread, a: nat)
    ensures Advance(Since(t, a)) == Since(Advance(t), a)
  {}

  lemma ReturnedReads(t: Thread, a: nat, present: bool)
    ensures Returned(Since(t, a), present) == Since(Returned(t, present), a)
  {}

  lemma WalkReads(sh: Shared, p: nat, t: Thread, a: nat)
    requires t.pc.SHead? || t.pc.STest? || t.pc.SNext? || t.pc.SCas?
    ensures SearchStep(sh, p, Since(t, a)) == SinceOf(SearchStep(sh, p, t), a)
  {
    AdvanceReads(t, a);
    HelpersRead(t, a, t.t, false);
  }

  lemma CheckReads(sh: Shared, p: nat, t: Thread, a: nat)
    requires t.pc.SCheck? || t.pc.SRecheck?
    ensures SearchStep(sh, p, Since(t, a)) == SinceOf(SearchStep(sh, p, t), a)
  {
    HelpersRead(t, a, 0, false);
  }

  lemma SearchReads(sh: Shared, p: nat, t: Thread, a: nat)
    requires RoutineOf(t.pc).Search?
    ensures SearchStep(sh, p, Since(t, a)) == SinceOf(SearchStep(sh, p, t), a)
  {
    if t.pc.SPersist? {
      HelpersRead(t, a, t.ln, false);
    } else if t.pc.SRetNext? {
      HelpersRead(t, a, Nxt(sh, t.cur).idx, false);
    } else if t.pc.SCheck? || t.pc.SRecheck? {
      CheckReads(sh, p, t, a);
    } else if t.pc.Found? {
      ReturnedReads(t, a, t.right != TAIL && Dat(sh, t.right) == t.val);
    } else {
      WalkReads(sh, p, t, a);
    }
  }

  lemma AddReads(sh: Shared, p: nat, t: Thread, a: nat, x: nat)
    ensures AddStep(sh, p, Since(t, a), x) == SinceOf(AddStep(sh, p, t, x), a)
  {}

  lemma RemoveReads(sh: Shared, p: nat, t: Thread, a: nat)
    ensures RemoveStep(sh, p, Since(t, a)) == SinceOf(RemoveStep(sh, p, t), a)
  {}

  lemma EpochReads(c: Config, sh: Shared, p: nat, t: Thread, a: nat)
    requires t.pc.EEpoch? || t.pc.EBump?
    ensures RetireStep(c, sh, p, Since(t, a)) == SinceOf(RetireStep(c, sh, p, t), a)
  {}

  lemma RetireReads(c: Config, sh: Shared, p: nat, t: Thread, a: nat)
    ensures RetireStep(c, sh, p, Since(t, a)) == SinceOf(RetireStep(c, sh, p, t), a)
  {
    if t.pc.EEpoch? || t.pc.EBump? {
      EpochReads(c, sh, p, t, a);
    } else {
      assert RetireDone(Since(t, a)) == Since(RetireDone(t), a);
    }
  }

  /** The step of thread p, and the same step if it had another `since`. */
  predicate MovesAlike(c: Config, sh: Shared, p: nat, t: Thread, a: nat, b: nat, op: Op, val: int, x: nat) {
    Move(c, sh, p, Since(t, a), op, val, x) == SinceOf(Move(c, sh, p, t, op, val, x), b)
  }

  lemma SinceIsNotRead(c: Config, sh: Shared, p: nat, t: Thread, a: nat, op: Op, val: int, x: nat)
    ensures MovesAlike(c, sh, p, t, a, if t.pc.StartStore? then sh.snips else a, op, val, x)
  {
    match RoutineOf(t.pc)
    case Start => StartReads(sh, p, t, a, op, val);
    case Contain => ContainsReads(sh, t, a);
    case Search => SearchReads(sh, p, t, a);
    case Insert => AddReads(sh, p, t, a, x);
    case Delete => RemoveReads(sh, p, t, a);
    case Retire => RetireReads(c, sh, p, t, a);
    case End => EndReads(sh, p, t, a);
  }

  /** The state with another `since` in thread p. */
  function As(s: State, p: nat, a: nat): State
    requires p < |s.th|
  {
    State(s.sh, s.th[p := Since(s.th[p], a)])
  }

  lemma StepsAs(c: Config, s: State, p: nat, a: nat, s': State) returns (s1: State, b: nat)
    requires p < |s.th| && SoloStep(c, As(s, p, a), p, s')
    ensures SoloStep(c, s, p, s1) && p < |s1.th| && s' == As(s1, p, b)
  {
    var op: Op, val: int, x: nat :| StepBy(c, As(s, p, a), p, op, val, x, s');
    b := if s.th[p].pc.StartStore? then s.sh.snips else a;
    SinceIsNotRead(c, s.sh, p, s.th[p], a, op, val, x);
    var (sh', t') := Move(c, s.sh, p, s.th[p], op, val, x);
    s1 := State(sh', s.th[p := t']);
    assert StepBy(c, s, p, op, val, x, s1);
  }

  ghost predicate SoloSteps(c: Config, s: State, p: nat, ss: set<State>) {
    forall s' {:trigger SoloStep(c, s, p, s')} :: s' in ss ==> SoloStep(c, s, p, s')
  }

  lemma RestReturns(c: Config, s: State, p: nat, run: seq<State>)
    requires ReturnsBy(c, s, p, run) && |run| > 1
    ensures SoloSteps(c, s, p, {run[1]}) && ReturnsBy(c, run[1], p, run[1..])
  {
    assert SoloStepAt(c, run, p, 1);
    forall n | 0 < n < |run| - 1 ensures SoloStepAt(c, run[1..], p, n) {
      assert SoloStepAt(c, run, p, n + 1);
    }
  }

  lemma AtReturn(c: Config, s: State, p: nat, a: nat, run: seq<State>)
    requires p < |s.th| && ReturnsBy(c, As(s, p, a), p, run) && |run| == 1
    ensures CanReturn(c, s, p)
  {
    assert ReturnsBy(c, s, p, [s]);
  }

  lemma {:induction false} ReturnsAs(c: Config, s: State, p: nat, a: nat, run: seq<State>)
    requires p < |s.th| && ReturnsBy(c, As(s, p, a), p, run)
    ensures CanReturn(c, s, p)
    decreases |run|
  {
    if |run| == 1 {
      AtReturn(c, s, p, a, run);
    } else {
      RestReturns(c, As(s, p, a), p, run);
      assert SoloStep(c, As(s, p, a), p, run[1]);
      var s1, b := StepsAs(c, s, p, a, run[1]);
      ReturnsAs(c, s1, p, b, run[1..]);
      ReturnAfterStep(c, s, p, s1);
    }
  }

  // The loop that retires what a search has unlinked.

  predicate Unwinding(t: Thread) {
    t.pc == SPersist || (!t.inRemove &&
      (t.pc == SRetNext || t.pc == EEpoch || t.pc == EBump || t.pc == EScan || t.pc == ELoad || t.pc == EFree))
  }

  /** What thread p has unlinked, it has unlinked before. */
  predicate CutBefore(sh: Shared, p: nat, since: nat, x: nat) {
    IsGone(sh, x) && St(sh, x).owner == p ==> St(sh, x).at < since
  }

  ghost predicate CutsBefore(sh: Shared, p: nat, since: nat) {
    forall x: nat {:trigger CutBefore(sh, p, since, x)} :: CutBefore(sh, p, since, x)
  }

  predicate LinkAt(sh: Shared, pend: seq<nat>, right: nat, i: nat)
    requires i < |pend|
  {
    Nxt(sh, pend[i]).idx == if i + 1 < |pend| then pend[i + 1] else right
  }

  /** The links lead from a through `pend` to the right node. */
  ghost predicate Leads(sh: Shared, a: nat, pend: seq<nat>, right: nat) {
    && a == (if |pend| > 0 then pend[0] else right)
    && (forall i :: 0 <= i < |pend| ==> LinkAt(sh, pend, right, i))
  }

  function Following(sh: Shared, t: Thread): nat {
    if t.pc.SPersist? then t.ln else if t.pc.EEpoch? then t.cur else Nxt(sh, t.cur).idx
  }

  ghost predicate PendOk(sh: Shared, t: Thread) {
    Unwinding(t) ==> Leads(sh, Following(sh, t), t.pend, t.right) && (t.pc == EEpoch ==> |t.pend| > 0)
  }

  /** What thread p knows in the loop, or at its end. */
  ghost predicate RoundOk(sh: Shared, p: nat, t: Thread) {
    && SnippedOk(sh, t) && CutsBefore(sh, p, t.since)
    && (Unwinding(t) || t.pc == SRecheck) && PendOk(sh, t)
  }

  /** The same of a single thread state, and of a single memory state, folded: only ever applied to sets of one. */
  ghost predicate RoundsOk(sh: Shared, p: nat, ts: set<Thread>) {
    forall t {:trigger RoundOk(sh, p, t)} :: t in ts ==> RoundOk(sh, p, t)
  }

  ghost predicate HeapsOk(c: Config, shs: set<Shared>) {
    forall sh {:trigger HeapOk(c, sh)} :: sh in shs ==> HeapOk(c, sh)
  }

  ghost predicate Loose(c: Config, sh: Shared, p: nat, t: Thread) {
    HeapsOk(c, {sh}) && FramesOk(sh, p, {t}) && BooksOk(sh, {t}) && RoundsOk(sh, p, {t})
  }

  lemma LooseFacts(c: Config, sh: Shared, p: nat, t: Thread)
    requires Loose(c, sh, p, t)
    ensures HeapOk(c, sh) && FrameOk(sh, p, t) && BookOk(sh, t) && RoundOk(sh, p, t)
  {}

  // Steps of the loop that leave the ledger, links and keys alone.

  /** The thread moves on in the loop. */
  predicate GoesRound(t: Thread, t': Thread) {
    && t' == t.(pc := t'.pc, i := t'.i, min := t'.min, pos := t'.pos, cur := t'.cur, inRemove := t'.inRemove)
    && (Unwinding(t') || t'.pc == SRecheck) && (t'.pc == SRecheck ==> t.pend == []) && t'.pc != SPersist
  }

  ghost predicate Writes(c: Config, sh: Shared, p: nat, sh': Shared) {
    && EffectsOk(c, sh, p, {sh'}) && Bookkept(sh, sh')
    && sh'.slot == sh.slot && sh'.next == sh.next && sh'.data == sh.data && ResOf(sh', p) == ResOf(sh, p)
  }

  lemma RoundShape(t: Thread, t': Thread)
    requires ShapeOk(t) && Unwinding(t) && GoesRound(t, t')
    ensures ShapeOk(t') && SameFrame(t, t') && SameCall(t, t') && Attempting(t) && Attempting(t')
    ensures t'.tries == t.tries && t'.seen == t.seen && t.pc != AData && t'.pc != APersistNew && t'.pc != ALink
  {}

  lemma RoundBooks(c: Config, sh: Shared, p: nat, t: Thread, sh': Shared, t': Thread)
    requires Loose(c, sh, p, t) && Unwinding(t) && GoesRound(t, t') && Writes(c, sh, p, sh')
    ensures BooksOk(sh', {t'})
  {
    assert BookOk(sh, t);
    RoundShape(t, t');
    BookMoves(sh, t, t');
    NewNodeUntouched(sh, sh', t');
    BookStays(sh, sh', t');
  }

  lemma RoundFrames(c: Config, sh: Shared, p: nat, t: Thread, sh': Shared, t': Thread)
    requires Loose(c, sh, p, t) && Unwinding(t) && GoesRound(t, t') && Writes(c, sh, p, sh')
    ensures FramesOk(sh', p, {t'}) && KeepsShelter(sh, sh', t.since) && t.since <= sh.snips
  {
    assert FrameOk(sh, p, t) && EffectOk(c, sh, p, sh');
    assert HeapOk(c, sh);
    ShapeOfLoose(c, sh, p, t);
    RoundShape(t, t');
    FrameStays(c, sh, sh', p, t, t');
  }

  lemma ShapeOfLoose(c: Config, sh: Shared, p: nat, t: Thread)
    requires Loose(c, sh, p, t)
    ensures ShapeOk(t)
  {
    assert BookOk(sh, t);
  }

  lemma SnippedSurvives(c: Config, sh: Shared, sh': Shared, p: nat, t: Thread)
    requires HeapsOk(c, {sh}) && EffectsOk(c, sh, p, {sh'}) && KeepsShelter(sh, sh', t.since)
    requires t.since <= sh.snips && BooksOk(sh, {t}) && Attempting(t) && SnippedOk(sh, t)
    ensures SnippedOk(sh', t)
  {
    assert HeapOk(c, sh) && EffectOk(c, sh, p, sh') && BookOk(sh, t);
    FactsSurvive(c, sh, sh', p, t);
    RightSurvives(sh, sh', t);
  }

  lemma RoundPoints(c: Config, sh: Shared, p: nat, t: Thread, sh': Shared, t': Thread)
    requires Loose(c, sh, p, t) && Unwinding(t) && GoesRound(t, t') && Writes(c, sh, p, sh') && PendOk(sh', t')
    requires KeepsShelter(sh, sh', t.since) && t.since <= sh.snips
    ensures RoundsOk(sh', p, {t'})
  {
    assert RoundOk(sh, p, t);
    SnippedSurvives(c, sh, sh', p, t);
    forall x: nat ensures CutBefore(sh', p, t'.since, x) {
      assert CutBefore(sh, p, t.since, x);
    }
    assert SnippedOk(sh', t');
  }

  lemma WriteStaysLoose(c: Config, sh: Shared, p: nat, t: Thread, sh': Shared, t': Thread)
    requires Loose(c, sh, p, t) && Unwinding(t) && GoesRound(t, t') && Writes(c, sh, p, sh') && PendOk(sh', t')
    ensures Loose(c, sh', p, t')
  {
    RoundBooks(c, sh, p, t, sh', t');
    RoundFrames(c, sh, p, t, sh', t');
    RoundPoints(c, sh, p, t, sh', t');
    assert EffectOk(c, sh, p, sh');
  }

  lemma NothingWrites(c: Config, sh: Shared, p: nat)
    requires HeapsOk(c, {sh})
    ensures Writes(c, sh, p, sh)
  {
    assert HeapOk(c, sh);
    EvolvesRefl(c, sh, p);
    assert EffectOk(c, sh, p, sh);
  }

  lemma PersistWrites(c: Config, sh: Shared, p: nat, x: nat)
    requires HeapsOk(c, {sh})
    ensures Writes(c, sh, p, Persist(sh, x))
  {
    assert HeapOk(c, sh);
    PersistKeeps(c, sh, p, x);
  }

  lemma BumpWrites(c: Config, sh: Shared, p: nat)
    requires HeapsOk(c, {sh})
    ensures Writes(c, sh, p, sh.(epoch := sh.epoch + 1))
  {
    assert HeapOk(c, sh);
    BumpKeeps(c, sh, p);
  }

  /** The scan, and a turn of the loop over the retired list that frees nothing. */
  lemma ScanGoesRound(c: Config, sh: Shared, p: nat, t: Thread)
    requires !t.inRemove && (t.pc == EScan || t.pc == ELoad) && PendOk(sh, t)
    ensures var (sh', t') := RetireStep(c, sh, p, t); sh' == sh && GoesRound(t, t') && PendOk(sh, t')
  {}

  lemma FreeGoesRound(c: Config, sh: Shared, p: nat, t: Thread)
    requires !t.inRemove && t.pc == EFree && !FreesNext(t) && PendOk(sh, t)
    ensures var (sh', t') := RetireStep(c, sh, p, t); sh' == sh && GoesRound(t, t') && PendOk(sh, t')
  {}

  lemma ScanStaysLoose(c: Config, sh: Shared, p: nat, t: Thread)
    requires Loose(c, sh, p, t) && !t.inRemove && (t.pc == EScan || t.pc == ELoad || (t.pc == EFree && !FreesNext(t)))
    ensures var (sh', t') := RetireStep(c, sh, p, t); Loose(c, sh', p, t')
  {
    assert RoundOk(sh, p, t);
    if t.pc == EFree {
      FreeGoesRound(c, sh, p, t);
    } else {
      ScanGoesRound(c, sh, p, t);
    }
    NothingWrites(c, sh, p);
    WriteStaysLoose(c, sh, p, t, sh, RetireStep(c, sh, p, t).1);
  }

  lemma BumpStaysLoose(c: Config, sh: Shared, p: nat, t: Thread)
    requires Loose(c, sh, p, t) && !t.inRemove && t.pc == EBump
    ensures var (sh', t') := RetireStep(c, sh, p, t); Loose(c, sh', p, t')
  {
    assert RoundOk(sh, p, t);
    BumpWrites(c, sh, p);
    var (sh', t') := RetireStep(c, sh, p, t);
    assert Leads(sh', Following(sh', t'), t'.pend, t'.right) by {
      forall i | 0 <= i < |t.pend| ensures LinkAt(sh', t.pend, t.right, i) {
        assert LinkAt(sh, t.pend, t.right, i);
      }
    }
    WriteStaysLoose(c, sh, p, t, sh', t');
  }

  /** The right node is linked, or was unlinked after what the thread has still to retire. */
  lemma RightIsBehind(sh: Shared, p: nat, t: Thread)
    requires FrameOk(sh, p, t) && RoundOk(sh, p, t)
    ensures t.right !in t.pend
  {
    assert OwnsSlot(sh, p, t, t.right) && CutBefore(sh, p, t.since, t.right);
  }

  lemma LoopStaysLoose(c: Config, sh: Shared, p: nat, t: Thread, sh': Shared, cur: nat)
    requires Loose(c, sh, p, t) && Unwinding(t) && (t.pc == SPersist || t.pc == SRetNext) && Writes(c, sh, p, sh')
    requires cur == Following(sh, t)
    ensures Loose(c, sh', p, RetireLoop(t, cur))
  {
    LooseFacts(c, sh, p, t);
    RightIsBehind(sh, p, t);
    forall i | 0 <= i < |t.pend| ensures LinkAt(sh', t.pend, t.right, i) {
      assert LinkAt(sh, t.pend, t.right, i);
    }
    WriteStaysLoose(c, sh, p, t, sh', RetireLoop(t, cur));
  }

  // Retiring and freeing.

  lemma RetireKeepsCuts(sh: Shared, p: nat, since: nat, x: nat)
    requires CutsBefore(sh, p, since) && St(sh, x).Unlinked? && St(sh, x).owner == p
    ensures CutsBefore(RetireNode(sh, p, x), p, since)
  {
    forall y: nat ensures CutBefore(RetireNode(sh, p, x), p, since, y) {
      assert CutBefore(sh, p, since, y);
    }
  }

  lemma FreeKeepsCuts(sh: Shared, p: nat, since: nat, x: nat)
    requires CutsBefore(sh, p, since)
    ensures CutsBefore(FreeNode(sh, x), p, since)
  {
    forall y: nat ensures CutBefore(FreeNode(sh, x), p, since, y) {
      assert CutBefore(sh, p, since, y);
    }
  }

  lemma ListingLeads(sh: Shared, sh': Shared, t: Thread, t': Thread)
    requires PendOk(sh, t) && t.pc == EEpoch && !t.inRemove && GoesOn(Listed(sh, t), t') && sh'.next == sh.next
    ensures PendOk(sh', t')
  {
    assert LinkAt(sh, t.pend, t.right, 0);
    forall i | 0 <= i < |t'.pend| ensures LinkAt(sh', t'.pend, t'.right, i) {
      assert LinkAt(sh, t.pend, t.right, i + 1);
    }
  }

  lemma EpochGoesOn(c: Config, sh: Shared, p: nat, t: Thread)
    requires t.pc == EEpoch && !t.inRemove
    ensures RetireStep(c, sh, p, t).0 == RetireNode(sh, p, t.cur)
    ensures GoesOn(Listed(sh, t), RetireStep(c, sh, p, t).1)
  {}

  lemma EpochRounds(c: Config, sh: Shared, p: nat, t: Thread, t': Thread)
    requires Loose(c, sh, p, t) && t.pc == EEpoch && !t.inRemove && GoesOn(Listed(sh, t), t')
    requires var sh' := RetireNode(sh, p, t.cur); EffectsOk(c, sh, p, {sh'}) && KeepsShelter(sh, sh', t.since)
    ensures RoundsOk(RetireNode(sh, p, t.cur), p, {t'})
  {
    var sh' := RetireNode(sh, p, t.cur);
    LooseFacts(c, sh, p, t);
    assert t.cur in t.pend && OwnsSlot(sh, p, t, t.cur);
    RetireKeepsCuts(sh, p, t.since, t.cur);
    SnippedSurvives(c, sh, sh', p, t);
    ListingLeads(sh, sh', t, t');
    assert SnippedOk(sh', t');
  }

  lemma EpochStaysLoose(c: Config, sh: Shared, p: nat, t: Thread)
    requires Loose(c, sh, p, t) && t.pc == EEpoch && !t.inRemove
    ensures var (sh', t') := RetireStep(c, sh, p, t); Loose(c, sh', p, t')
  {
    var (sh', t') := RetireStep(c, sh, p, t);
    LooseFacts(c, sh, p, t);
    EpochGoesOn(c, sh, p, t);
    RetireFrame(c, sh, p, t, t');
    RetireBook(sh, p, t, t');
    assert EffectOk(c, sh, p, sh');
    EpochRounds(c, sh, p, t, t');
  }

  /** What the thread frees is not in view since it last unlinked anything. */
  lemma FreedIsOld(c: Config, sh: Shared, p: nat, t: Thread)
    requires Loose(c, sh, p, t) && FreesNext(t)
    ensures KeepsShelter(sh, FreeNode(sh, t.list[t.pos].idx), t.since)
  {
    LooseFacts(c, sh, p, t);
    var n := t.list[t.pos];
    assert n in t.list && OwnsSlot(sh, p, t, n.idx) && CutBefore(sh, p, t.since, n.idx);
  }

  lemma FreeKeepsPend(sh: Shared, t: Thread, x: nat, list: seq<Entry>)
    requires PendOk(sh, t) && t.pc == EFree
    ensures PendOk(FreeNode(sh, x), t.(list := list))
  {
    if Unwinding(t) {
      forall i | 0 <= i < |t.pend| ensures LinkAt(FreeNode(sh, x), t.pend, t.right, i) {
        assert LinkAt(sh, t.pend, t.right, i);
      }
    }
  }

  lemma FreeKeepsSnipped(c: Config, sh: Shared, p: nat, t: Thread)
    requires Loose(c, sh, p, t) && FreesNext(t) && EffectsOk(c, sh, p, {FreeNode(sh, t.list[t.pos].idx)})
    requires KeepsShelter(sh, FreeNode(sh, t.list[t.pos].idx), t.since)
    ensures SnippedOk(FreeNode(sh, t.list[t.pos].idx), t)
  {
    assert RoundOk(sh, p, t) && FrameOk(sh, p, t);
    SnippedSurvives(c, sh, FreeNode(sh, t.list[t.pos].idx), p, t);
  }

  lemma FreeRounds(c: Config, sh: Shared, p: nat, t: Thread)
    requires Loose(c, sh, p, t) && !t.inRemove && FreesNext(t) && EffectsOk(c, sh, p, {FreeNode(sh, t.list[t.pos].idx)})
    requires KeepsShelter(sh, FreeNode(sh, t.list[t.pos].idx), t.since)
    ensures RoundsOk(FreeNode(sh, t.list[t.pos].idx), p, {t.(list := Without(t.list, t.pos))})
  {
    var sh', t' := FreeNode(sh, t.list[t.pos].idx), t.(list := Without(t.list, t.pos));
    assert RoundOk(sh, p, t);
    FreeKeepsCuts(sh, p, t.since, t.list[t.pos].idx);
    FreeKeepsSnipped(c, sh, p, t);
    FreeKeepsPend(sh, t, t.list[t.pos].idx, t'.list);
    assert SnippedOk(sh', t');
  }

  lemma FreeIsEffect(c: Config, sh: Shared, p: nat, t: Thread)
    requires Loose(c, sh, p, t) && FreesNext(t)
    ensures var sh' := FreeNode(sh, t.list[t.pos].idx);
            EffectsOk(c, sh, p, {sh'}) && OwnsOk(sh', p, t.(list := Without(t.list, t.pos)))
  {
    assert HeapOk(c, sh) && FrameOk(sh, p, t);
    FreeEffect(c, sh, p, t);
  }

  lemma FreeKeepsFrames(c: Config, sh: Shared, p: nat, t: Thread)
    requires Loose(c, sh, p, t) && FreesNext(t) && KeepsShelter(sh, FreeNode(sh, t.list[t.pos].idx), t.since)
    ensures EffectsOk(c, sh, p, {FreeNode(sh, t.list[t.pos].idx)})
    ensures FramesOk(FreeNode(sh, t.list[t.pos].idx), p, {t.(list := Without(t.list, t.pos))})
  {
    var sh' := FreeNode(sh, t.list[t.pos].idx);
    FreeIsEffect(c, sh, p, t);
    ShelterIsKept(c, sh, p, t, sh');
    assert FrameOk(sh, p, t);
  }

  lemma ShelterIsKept(c: Config, sh: Shared, p: nat, t: Thread, sh': Shared)
    requires Loose(c, sh, p, t) && Running(t) && EffectsOk(c, sh, p, {sh'}) && KeepsShelter(sh, sh', t.since)
    requires ResOf(sh', p) == ResOf(sh, p)
    ensures ShelterOk(sh', p, t.since, t.start, t.val)
  {
    assert HeapOk(c, sh) && FrameOk(sh, p, t) && EffectOk(c, sh, p, sh');
    ShelterStays(c, sh, sh', p, p, t.since, t.start, t.val);
  }

  lemma FreeStaysLoose(c: Config, sh: Shared, p: nat, t: Thread)
    requires Loose(c, sh, p, t) && !t.inRemove && FreesNext(t)
    ensures var (sh', t') := RetireStep(c, sh, p, t); Loose(c, sh', p, t')
  {
    assert BookOk(sh, t);
    FreedIsOld(c, sh, p, t);
    FreeKeepsFrames(c, sh, p, t);
    FreeBook(c, sh, p, t);
    FreeRounds(c, sh, p, t);
    assert EffectOk(c, sh, p, FreeNode(sh, t.list[t.pos].idx));
  }

  /** A step in the loop. */
  lemma StaysLoose(c: Config, sh: Shared, p: nat, t: Thread, op: Op, val: int, x: nat)
    requires Loose(c, sh, p, t) && Unwinding(t)
    ensures var (sh', t') := Move(c, sh, p, t, op, val, x); Loose(c, sh', p, t')
  {
    if t.pc.SPersist? {
      PersistWrites(c, sh, p, t.left);
      LoopStaysLoose(c, sh, p, t, Persist(sh, t.left), t.ln);
    } else if t.pc.SRetNext? {
      NothingWrites(c, sh, p);
      LoopStaysLoose(c, sh, p, t, sh, Nxt(sh, t.cur).idx);
    } else if t.pc.EEpoch? {
      EpochStaysLoose(c, sh, p, t);
    } else if t.pc.EBump? {
      BumpStaysLoose(c, sh, p, t);
    } else if t.pc.EScan? || t.pc.ELoad? {
      ScanStaysLoose(c, sh, p, t);
    } else {
      if FreesNext(t) {
        FreeStaysLoose(c, sh, p, t);
      } else {
        ScanStaysLoose(c, sh, p, t);
      }
    }
  }

  // Running the loop alone.

  /** Closer to the end of the loop. */
  predicate Nears(c: Config, sh: Shared, t: Thread, sh': Shared, t': Thread) {
    Below(RankOf(c, sh', t'), RankOf(c, sh, t)) && t'.op == t.op && Stage(t') == Stage(t)
  }

  /** The same of a single outcome, folded: only ever applied to a set of one. */
  ghost predicate NearsTo(c: Config, sh: Shared, t: Thread, rs: set<(Shared, Thread)>) {
    forall r {:trigger Nears(c, sh, t, r.0, r.1)} :: r in rs ==> Nears(c, sh, t, r.0, r.1)
  }

  predicate SameStage(t: Thread, t': Thread) { t'.tries == t.tries && t'.op == t.op && Stage(t') == Stage(t) }

  lemma LoopStage(sh: Shared, p: nat, t: Thread)
    requires t.pc == SPersist || t.pc == SRetNext
    ensures SameStage(t, SearchStep(sh, p, t).1)
  {}

  lemma EpochStage(c: Config, sh: Shared, p: nat, t: Thread)
    requires !t.inRemove && (t.pc == EEpoch || t.pc == EBump)
    ensures SameStage(t, RetireStep(c, sh, p, t).1)
  {}

  lemma ScanStage(c: Config, sh: Shared, p: nat, t: Thread)
    requires !t.inRemove && (t.pc == EScan || t.pc == ELoad || t.pc == EFree)
    ensures SameStage(t, RetireStep(c, sh, p, t).1)
  {}

  lemma DescendingNears(c: Config, sh: Shared, t: Thread, sh': Shared, t': Thread)
    requires Descends(c, sh, t, sh', t') && SameStage(t, t')
    ensures Nears(c, sh, t, sh', t')
  {}

  lemma LoopNears(c: Config, sh: Shared, p: nat, t: Thread)
    requires t.pc == SPersist || t.pc == SRetNext
    ensures NearsTo(c, sh, t, {SearchStep(sh, p, t)})
  {
    var (sh', t') := SearchStep(sh, p, t);
    LoopStage(sh, p, t);
    if t.pc == SPersist {
      SearchDrops(sh, p, t);
      DropsDescend(c, sh, t, sh', t');
    } else {
      WalkDescends(c, sh, p, t);
    }
    DescendingNears(c, sh, t, sh', t');
  }

  lemma RetireNears(c: Config, sh: Shared, p: nat, t: Thread)
    requires !t.inRemove && (t.pc == EEpoch || t.pc == EBump || t.pc == EScan || t.pc == ELoad || t.pc == EFree)
    requires c.threads > 0 && (t.pc == EEpoch ==> |t.pend| > 0)
    ensures NearsTo(c, sh, t, {RetireStep(c, sh, p, t)})
  {
    var (sh', t') := RetireStep(c, sh, p, t);
    if t.pc == EEpoch || t.pc == EBump {
      EpochStage(c, sh, p, t);
    } else {
      ScanStage(c, sh, p, t);
    }
    RetireDescends(c, sh, p, t);
    DescendingNears(c, sh, t, sh', t');
  }

  lemma PendingIsLeft(c: Config, sh: Shared, p: nat, t: Thread)
    requires Loose(c, sh, p, t) && Unwinding(t)
    ensures t.pc == EEpoch ==> |t.pend| > 0
  {
    assert RoundOk(sh, p, t);
  }

  lemma LooseDescends(c: Config, sh: Shared, p: nat, t: Thread, op: Op, val: int, x: nat)
    requires Unwinding(t) && (t.pc == EEpoch ==> |t.pend| > 0) && c.threads > 0
    ensures NearsTo(c, sh, t, {Move(c, sh, p, t, op, val, x)})
  {
    if RoutineOf(t.pc).Search? {
      LoopNears(c, sh, p, t);
    } else {
      assert RoutineOf(t.pc).Retire?;
      RetireNears(c, sh, p, t);
    }
  }

  lemma LooseThread(c: Config, sh: Shared, p: nat, t: Thread)
    requires Loose(c, sh, p, t) && t.pc == SRecheck
    ensures ThreadsOk(sh, map[p := t])
  {
    LooseFacts(c, sh, p, t);
    assert ThreadOk(sh, p, t);
  }

  lemma LooseEnds(c: Config, s: State, p: nat)
    requires p < |s.th| && p < c.threads && Loose(c, s.sh, p, s.th[p]) && s.th[p].pc == SRecheck && Provided(c, s, p)
    ensures SoloOk(c, s, p)
  {
    LooseThread(c, s.sh, p, s.th[p]);
    assert HeapOk(c, s.sh);
    assert SoloInv(c, s.sh, p, s.th[p]);
  }

  lemma LooseSteps(c: Config, s: State, p: nat) returns (s': State)
    requires p < |s.th| && p < c.threads && Loose(c, s.sh, p, s.th[p]) && Unwinding(s.th[p]) && Provided(c, s, p)
    ensures p < |s'.th| && Loose(c, s'.sh, p, s'.th[p]) && Provided(c, s', p)
    ensures Below(RankOf(c, s'.sh, s'.th[p]), RankOf(c, s.sh, s.th[p]))
    ensures CanReturn(c, s', p) ==> CanReturn(c, s, p)
  {
    var (sh', t') := Move(c, s.sh, p, s.th[p], Contains, 0, 0);
    s' := State(sh', s.th[p := t']);
    StaysLoose(c, s.sh, p, s.th[p], Contains, 0, 0);
    PendingIsLeft(c, s.sh, p, s.th[p]);
    LooseDescends(c, s.sh, p, s.th[p], Contains, 0, 0);
    assert Nears(c, s.sh, s.th[p], sh', t');
    if HasRoom(c, s.sh) {
      RoomStays(c, s.sh, p, s.th[p], Contains, 0, 0);
    }
    assert StepBy(c, s, p, Contains, 0, 0, s');
    if CanReturn(c, s', p) {
      ReturnAfterStep(c, s, p, s');
    }
  }

  lemma LooseIs(c: Config, sh: Shared, p: nat, t: Thread)
    requires Loose(c, sh, p, t)
    ensures Unwinding(t) || t.pc == SRecheck
  {
    LooseFacts(c, sh, p, t);
  }

  lemma {:induction false} RunLoose(c: Config, s: State, p: nat, rank: Rank)
    requires p < |s.th| && p < c.threads && Loose(c, s.sh, p, s.th[p]) && Provided(c, s, p)
    requires rank == RankOf(c, s.sh, s.th[p])
    ensures CanReturn(c, s, p)
    decreases rank.stage, rank.part, rank.distance, rank.place, rank.work
  {
    LooseIs(c, s.sh, p, s.th[p]);
    if s.th[p].pc == SRecheck {
      LooseEnds(c, s, p);
      CreditOf(c, s, p);
      RunAlone(c, s, p, Credit(s.sh, s.th[p]), rank);
    } else {
      var s' := LooseSteps(c, s, p);
      RunLoose(c, s', p, RankOf(c, s'.sh, s'.th[p]));
    }
  }

  // In steady runs a thread in the loop knows when it last unlinked anything.

  /** What the thread knows holds as if it had stored its reservation after the first `since` snips. */
  ghost predicate Recent(sh: Shared, p: nat, t: Thread, since: nat) {
    && t.since <= since && FrameOk(sh, p, Since(t, since))
    && SnippedOk(sh, Since(t, since)) && CutsBefore(sh, p, since)
  }

  ghost predicate HasRecent(sh: Shared, p: nat, ts: set<Thread>) {
    forall t {:trigger Unwinding(t)} :: t in ts && Unwinding(t) ==> exists since: nat :: Recent(sh, p, t, since)
  }

  lemma PathLeads(sh: Shared, since: nat, a: nat, path: seq<nat>, b: nat)
    requires MarkedPath(sh, since, a, path, b)
    ensures Leads(sh, a, path, b)
  {
    forall i | 0 <= i < |path| ensures LinkAt(sh, path, b, i) {
      assert MarkedAt(sh, since, path, b, i);
    }
  }

  lemma PendingLeads(sh: Shared, t: Thread)
    requires PcOk(sh, t) && Unwinding(t)
    ensures PendOk(sh, t)
  {
    PathLeads(sh, t.since, Following(sh, t), t.pend, t.right);
  }

  /** A thread in the loop, in a state where the invariant holds. */
  lemma RecentIsLoose(c: Config, s: State, p: nat, since: nat)
    requires StatesInv(c, {s}) && p < c.threads && p < |s.th| && Unwinding(s.th[p]) && Recent(s.sh, p, s.th[p], since)
    ensures Loose(c, s.sh, p, Since(s.th[p], since))
  {
    assert Inv(c, s);
    FactsOf(c, s, p);
    PendingLeads(s.sh, s.th[p]);
    SinceIsNotBooked(s.sh, s.th[p], since);
    assert RoundOk(s.sh, p, Since(s.th[p], since));
  }

  lemma SinceIsNotBooked(sh: Shared, t: Thread, since: nat)
    requires BookOk(sh, t)
    ensures BookOk(sh, Since(t, since))
  {
    var u := Since(t, since);
    assert TriesOk(sh, u) && NewNodeMatches(u) && NewNodeOk(sh, u);
    assert t.pc != Idle ==> PcOfOp(u) && EffectMatches(u);
    if t.pc != Idle && t.lin.Some? {
      assert TookEffect(sh, t, t.lin.value) && TookEffect(sh, u, t.lin.value);
    }
  }

  lemma OthersKeepCuts(c: Config, sh: Shared, sh': Shared, q: nat, p: nat, since: nat)
    requires EffectsOk(c, sh, q, {sh'}) && q != p && CutsBefore(sh, p, since)
    ensures CutsBefore(sh', p, since)
  {
    assert EffectOk(c, sh, q, sh');
    forall x: nat ensures CutBefore(sh', p, since, x) {
      assert CutBefore(sh, p, since, x) && SlotEvolves(sh, sh', q, x);
    }
  }

  lemma OthersKeepFrame(c: Config, sh: Shared, sh': Shared, q: nat, p: nat, u: Thread)
    requires HeapsOk(c, {sh}) && EffectsOk(c, sh, q, {sh'}) && q != p && KeepsShelter(sh, sh', u.since)
    requires FrameOk(sh, p, u) && Running(u)
    ensures FrameOk(sh', p, u)
  {
    assert HeapOk(c, sh) && EffectOk(c, sh, q, sh');
    OwnsSurvives(c, sh, sh', q, p, u);
    ShelterStays(c, sh, sh', q, p, u.since, u.start, u.val);
  }

  lemma KeepsLaterShelter(sh: Shared, sh': Shared, since: nat, later: nat)
    requires KeepsShelter(sh, sh', since) && since <= later
    ensures KeepsShelter(sh, sh', later)
  {
    assert forall x: nat :: Protected(sh, later, x) ==> Protected(sh, since, x);
  }

  lemma SinceIsOld(sh: Shared, p: nat, u: Thread)
    requires FrameOk(sh, p, u) && Running(u)
    ensures u.since <= sh.snips
  {}

  lemma OthersKeepRecent(c: Config, sh: Shared, sh': Shared, q: nat, p: nat, t: Thread, since: nat)
    requires HeapsOk(c, {sh}) && EffectsOk(c, sh, q, {sh'}) && q != p && KeepsShelter(sh, sh', t.since)
    requires Recent(sh, p, t, since) && Unwinding(t) && BooksOk(sh, {t})
    ensures Recent(sh', p, t, since)
  {
    var u := Since(t, since);
    assert BookOk(sh, t);
    SinceIsNotBooked(sh, t, since);
    KeepsLaterShelter(sh, sh', t.since, since);
    SinceIsOld(sh, p, u);
    OthersKeepFrame(c, sh, sh', q, p, u);
    SnippedSurvives(c, sh, sh', q, u);
    OthersKeepCuts(c, sh, sh', q, p, since);
  }

  lemma SinceStays(c: Config, sh: Shared, p: nat, t: Thread, op: Op, val: int, x: nat)
    requires Unwinding(t)
    ensures Move(c, sh, p, t, op, val, x).1.since == t.since
  {
    SinceIsNotRead(c, sh, p, t, t.since, op, val, x);
    assert Since(t, t.since) == t;
  }

  lemma OwnStepKeepsRecent(c: Config, s: State, p: nat, op: Op, val: int, x: nat, since: nat)
    requires StatesInv(c, {s}) && p < c.threads && p < |s.th| && Unwinding(s.th[p]) && Recent(s.sh, p, s.th[p], since)
    ensures var (sh', t') := Move(c, s.sh, p, s.th[p], op, val, x); Recent(sh', p, t', since)
  {
    var (sh', t') := Move(c, s.sh, p, s.th[p], op, val, x);
    RecentIsLoose(c, s, p, since);
    StaysLoose(c, s.sh, p, Since(s.th[p], since), op, val, x);
    SinceIsNotRead(c, s.sh, p, s.th[p], since, op, val, x);
    SinceStays(c, s.sh, p, s.th[p], op, val, x);
    LooseFacts(c, sh', p, Since(t', since));
  }

  // The loop begins with a snip: the left node points to the right one, and both are linked.

  lemma ShelteredNow(c: Config, sh: Shared, p: nat, t: Thread)
    requires HeapOk(c, sh) && FrameOk(sh, p, t) && Running(t)
    ensures ShelterOk(sh, p, sh.snips, t.start, t.val) && CutsBefore(sh, p, sh.snips)
  {
    forall x: nat | Protected(sh, sh.snips, x) ensures ProtectedOk(sh, sh.snips, t.start, t.val, ResOf(sh, p).n, x) {
      assert GoneOk(sh, x);
      LinkedIsSheltered(c, sh, sh.snips, t.start, t.val, ResOf(sh, p).n, x);
    }
    forall x: nat ensures CutBefore(sh, p, sh.snips, x) {
      assert GoneOk(sh, x);
    }
  }

  lemma SnipIsRecent(c: Config, sh: Shared, p: nat, t: Thread)
    requires HeapOk(c, sh) && FrameOk(sh, p, t) && SnippedOk(sh, t) && t.pc == SPersist
    requires Nxt(sh, t.left) == Link(t.right, false)
    ensures Recent(sh, p, t, sh.snips)
  {
    var u := Since(t, sh.snips);
    ShelteredNow(c, sh, p, t);
    UnmarkedIsLinked(c, sh, t.since, t.left);
    assert SuccessorOk(sh, t.left);
    OwnsMoves(sh, sh, p, t, u);
    assert LeftOk(sh, u) && RightOk(sh, u) && LeftPoints(sh, u, u.right);
  }

  /** How a thread comes to be in the loop. */
  lemma SearchEnters(sh: Shared, p: nat, t: Thread)
    requires t.pc == SHead || PhaseOf(t) == Walking || PhaseOf(t) == Deciding
    requires Unwinding(SearchStep(sh, p, t).1)
    ensures t.pc == SCas && Nxt(sh, t.left) == Link(t.ln, false)
  {}

  lemma RetireEnters(c: Config, sh: Shared, p: nat, t: Thread)
    requires t.inRemove && (t.pc == EEpoch || t.pc == EBump || t.pc == EScan || t.pc == ELoad || t.pc == EFree)
    ensures !Unwinding(RetireStep(c, sh, p, t).1)
  {}

  lemma StartDoesNotEnter(c: Config, sh: Shared, p: nat, t: Thread, op: Op, val: int, x: nat)
    requires var ph := PhaseOf(t); ph == Outside || ph == Starting || ph == Reading || ph == Ending || ph == Ended
    ensures !Unwinding(Move(c, sh, p, t, op, val, x).1)
  {}

  lemma UpdateDoesNotEnter(c: Config, sh: Shared, p: nat, t: Thread, op: Op, val: int, x: nat)
    requires PhaseOf(t) == Adding || PhaseOf(t) == Removing || PhaseOf(t) == Persisting
    ensures !Unwinding(Move(c, sh, p, t, op, val, x).1)
  {}

  lemma OnlySnipsEnter(c: Config, sh: Shared, p: nat, t: Thread, op: Op, val: int, x: nat)
    requires !Unwinding(t) && Unwinding(Move(c, sh, p, t, op, val, x).1) && (t.pc == SRetNext ==> !t.inRemove)
    ensures t.pc == SCas && Nxt(sh, t.left) == Link(t.ln, false)
  {
    match PhaseOf(t)
    case Heading | Walking | Deciding => SearchEnters(sh, p, t);
    case Retiring => RetireEnters(c, sh, p, t);
    case Adding | Removing | Persisting => UpdateDoesNotEnter(c, sh, p, t, op, val, x);
    case _ => StartDoesNotEnter(c, sh, p, t, op, val, x);
  }

  lemma SnipPoints(sh: Shared, p: nat, t: Thread)
    requires t.pc == SCas && Nxt(sh, t.left) == Link(t.ln, false) && t.left < |sh.next|
    ensures var (sh', t') := SearchStep(sh, p, t); t'.pc == SPersist && Nxt(sh', t'.left) == Link(t'.right, false)
  {}

  lemma EnteringFacts(c: Config, s: State, p: nat)
    requires StatesInv(c, {s}) && p < c.threads && p < |s.th|
    ensures s.th[p].pc == SCas ==> s.th[p].left < |s.sh.next|
    ensures s.th[p].pc == SRetNext ==> !s.th[p].inRemove
  {
    assert Inv(c, s);
    FactsOf(c, s, p);
  }

  lemma EnteredIsRecent(c: Config, s: State, p: nat)
    requires StatesInv(c, {s}) && p < c.threads && p < |s.th| && s.th[p].pc == SPersist
    requires Nxt(s.sh, s.th[p].left) == Link(s.th[p].right, false)
    ensures Recent(s.sh, p, s.th[p], s.sh.snips)
  {
    assert Inv(c, s);
    FactsOf(c, s, p);
    SnipIsRecent(c, s.sh, p, s.th[p]);
  }

  /** The thread itself moves. */
  lemma OwnMoveKeepsRecent(c: Config, s: State, p: nat, op: Op, val: int, x: nat, s': State)
    requires StatesInv(c, {s}) && StatesInv(c, {s'}) && p < c.threads && p < |s.th| && HasRecent(s.sh, p, {s.th[p]})
    requires p < |s'.th| && (s'.sh, s'.th[p]) == Move(c, s.sh, p, s.th[p], op, val, x)
    ensures HasRecent(s'.sh, p, {s'.th[p]})
  {
    var t, t' := s.th[p], s'.th[p];
    if Unwinding(t') {
      if Unwinding(t) {
        var since: nat :| Recent(s.sh, p, t, since);
        OwnStepKeepsRecent(c, s, p, op, val, x, since);
      } else {
        EnteringFacts(c, s, p);
        OnlySnipsEnter(c, s.sh, p, t, op, val, x);
        SnipPoints(s.sh, p, t);
        EnteredIsRecent(c, s', p);
      }
    }
  }

  lemma HeapAndBooks(c: Config, s: State, p: nat)
    requires StatesInv(c, {s}) && p < c.threads && p < |s.th|
    ensures HeapsOk(c, {s.sh}) && BooksOk(s.sh, {s.th[p]})
  {
    assert Inv(c, s);
    FactsOf(c, s, p);
  }

  /** Another thread moves, or a line is written back. */
  lemma OtherMoveKeepsRecent(c: Config, s: State, q: nat, s': State, p: nat)
    requires StatesInv(c, {s}) && p < c.threads && p < |s.th| && q != p && EffectsOk(c, s.sh, q, {s'.sh})
    requires p < |s'.th| && s'.th[p] == s.th[p] && HasRecent(s.sh, p, {s.th[p]})
    requires Unwinding(s.th[p]) ==> KeepsShelter(s.sh, s'.sh, s.th[p].since)
    ensures HasRecent(s'.sh, p, {s'.th[p]})
  {
    var t := s.th[p];
    if Unwinding(t) {
      var since: nat :| Recent(s.sh, p, t, since);
      HeapAndBooks(c, s, p);
      OthersKeepRecent(c, s.sh, s'.sh, q, p, t, since);
    }
  }

  lemma StepIsEffect(c: Config, s: State, q: nat, op: Op, val: int, x: nat, s': State)
    requires Inv(c, s) && SteadyStepBy(c, s, q, op, val, x, s')
    ensures StatesInv(c, {s'}) && EffectsOk(c, s.sh, q, {s'.sh}) && q < c.threads
  {
    StepKeepsInv(c, s, q, op, val, x, s');
  }

  /** A step frees nothing in view of a thread in the loop. */
  lemma LoopIsSheltered(c: Config, s: State, q: nat, op: Op, val: int, x: nat, p: nat)
    requires Inv(c, s) && q < c.threads && p < c.threads && Unwinding(s.th[p])
    ensures KeepsShelter(s.sh, Move(c, s.sh, q, s.th[q], op, val, x).0, s.th[p].since)
  {
    StepKeepsShelter(c, s, q, op, val, x, p);
  }

  lemma MoveKeepsRecent(c: Config, s: State, q: nat, op: Op, val: int, x: nat, s': State, p: nat)
    requires StatesInv(c, {s}) && SteadyStepBy(c, s, q, op, val, x, s') && p < c.threads && p < |s.th|
    requires HasRecent(s.sh, p, {s.th[p]})
    ensures p < |s'.th| && HasRecent(s'.sh, p, {s'.th[p]})
  {
    assert Inv(c, s);
    StepIsEffect(c, s, q, op, val, x, s');
    if Unwinding(s.th[p]) {
      LoopIsSheltered(c, s, q, op, val, x, p);
    }
    if q == p {
      OwnMoveKeepsRecent(c, s, p, op, val, x, s');
    } else {
      OtherMoveKeepsRecent(c, s, q, s', p);
    }
  }

  lemma WriteBackKeepsRecent(c: Config, s: State, x: nat, s': State, p: nat)
    requires StatesInv(c, {s}) && WriteBack(s, x, s') && p < c.threads && p < |s.th| && HasRecent(s.sh, p, {s.th[p]})
    ensures p < |s'.th| && HasRecent(s'.sh, p, {s'.th[p]})
  {
    assert Inv(c, s);
    WriteBackKeepsInv(c, s, x, s');
    OtherMoveKeepsRecent(c, s, c.threads, s', p);
  }

  lemma StepKeepsRecent(c: Config, s: State, s': State, p: nat)
    requires SoundStep(c, {s}, s') && p < c.threads && p < |s.th| && HasRecent(s.sh, p, {s.th[p]})
    ensures p < |s'.th| && HasRecent(s'.sh, p, {s'.th[p]})
  {
    assert SoundAt(c, s, s');
    if x :| WriteBack(s, x, s') {
      WriteBackKeepsRecent(c, s, x, s', p);
    } else {
      var q: nat, op: Op, val: int, x: nat :| SteadyStepBy(c, s, q, op, val, x, s');
      MoveKeepsRecent(c, s, q, op, val, x, s', p);
    }
  }

  lemma {:induction false} RunsKeepRecent(c: Config, run: seq<State>, n: nat, p: nat)
    requires SteadyRun(c, run) && n < |run| && p < c.threads
    ensures p < |run[n].th| && HasRecent(run[n].sh, p, {run[n].th[p]})
  {
    if n == 0 {
      assert run[0].th[p] == IdleThread();
    } else {
      RunsKeepRecent(c, run, n - 1, p);
      StepOfRun(c, run, n);
      StepKeepsRecent(c, run[n - 1], run[n], p);
    }
  }

  lemma LoopReturns(c: Config, run: seq<State>, n: nat, p: nat)
    requires SteadyRun(c, run) && n < |run| && p < c.threads && Busy(run[n], p) && Provided(c, run[n], p)
    requires Unwinding(run[n].th[p])
    ensures CanReturn(c, run[n], p)
  {
    var s := run[n];
    RunsKeepRecent(c, run, n, p);
    StateOfRun(c, run, n);
    var since: nat :| Recent(s.sh, p, s.th[p], since);
    RecentIsLoose(c, s, p, since);
    AsReturns(c, s, p, since);
  }

  lemma AsReturns(c: Config, s: State, p: nat, since: nat)
    requires p < c.threads && p < |s.th| && Loose(c, s.sh, p, Since(s.th[p], since)) && Provided(c, s, p)
    ensures CanReturn(c, s, p)
  {
    var s0 := As(s, p, since);
    RunLoose(c, s0, p, RankOf(c, s0.sh, s0.th[p]));
    var run: seq<State> :| ReturnsBy(c, s0, p, run);
    ReturnsAs(c, s, p, since, run);
  }

  /** In every state of every steady run, a call under way returns if its thread runs alone from there,
      provided an add that has not allocated yet finds a free slot. */
  lemma AloneItReturns(c: Config, run: seq<State>, n: nat, p: nat)
    requires SteadyRun(c, run) && n < |run| && p < c.threads && Busy(run[n], p) && Provided(c, run[n], p)
    ensures exists solo: seq<State> :: ReturnsBy(c, run[n], p, solo)
  {
    if Unwinding(run[n].th[p]) {
      LoopReturns(c, run, n, p);
    } else if Winding(run[n].th[p]) {
      ThreadsExist(c, run);
      WindsUp(c, run[n], p, RankOf(c, run[n].sh, run[n].th[p]));
    } else {
      StateOfRun(c, run, n);
      SoloOfState(c, run[n], p);
      CreditOf(c, run[n], p);
      RunAlone(c, run[n], p, Credit(run[n].sh, run[n].th[p]), RankOf(c, run[n].sh, run[n].th[p]));
    }
  }
}
