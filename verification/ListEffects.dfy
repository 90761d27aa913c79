/** The steps of a thread that write shared memory. */
module ListEffects {
  import opened ListCommon
  import opened ListMachine
  import opened ListInv
  import opened ListHeap
  import opened ListStable
  import opened ListSteps

  ghost predicate Bookkept(sh: Shared, sh': Shared) {
    sh'.wins == sh.wins && sh'.hist == sh.hist
  }

  /** Writes that leave the history and the thread's new node alone. */
  lemma BookStays(sh: Shared, sh': Shared, t: Thread)
    requires BookOk(sh, t) && Bookkept(sh, sh')
    requires t.neu.Some? ==> NewNodeOk(sh', t)
    ensures BookOk(sh', t)
  {
    if t.pc != Idle && t.lin.Some? {
      assert TookEffect(sh, t, t.lin.value) && TookEffect(sh', t, t.lin.value);
    }
  }

  /** The frame facts of the acting thread after a write that leaves its ownership alone. */
  lemma FrameStays(c: Config, sh: Shared, sh': Shared, p: nat, t: Thread, t': Thread)
    requires HeapOk(c, sh) && HeapOk(c, sh') && Evolves(c, sh, sh', p)
    requires FrameOk(sh, p, t) && SameFrame(t, t') && Running(t)
    requires sh'.slot == sh.slot && ResOf(sh', p) == ResOf(sh, p)
    ensures FrameOk(sh', p, t')
    ensures KeepsShelter(sh, sh', t.since)
  {
    assert forall x: nat :: St(sh', x) == St(sh, x);
    OwnsMoves(sh, sh', p, t, t');
    ShelterStays(c, sh, sh', p, p, t.since, t.start, t.val);
  }

  // The CAS in p_list_search that unlinks marked nodes.

  lemma CasCanSnip(c: Config, sh: Shared, t: Thread)
    requires HeapOk(c, sh) && TraversedOk(sh, t, t.right) && t.ln != t.right
    requires Nxt(sh, t.left) == Link(t.ln, false)
    ensures CanSnip(sh, t.left, t.path, t.right)
  {
    UnmarkedIsLinked(c, sh, t.since, t.left);
    forall i | 0 <= i < |t.path| ensures SnipNode(sh, t.path, t.right, i) {
      assert MarkedAt(sh, t.since, t.path, t.right, i);
    }
  }

  /** After a snip the path is the thread's to retire. */
  lemma SnipOwns(c: Config, sh: Shared, p: nat, t: Thread, t': Thread, path: seq<nat>, right: nat)
    requires HeapOk(c, sh) && CanSnip(sh, t.left, path, right) && OwnsOk(sh, p, t) && t.pend == []
    requires t'.neu == t.neu && t'.list == t.list && t'.pend == path && PhaseOf(t') == Retiring
    ensures OwnsOk(SnipNodes(sh, p, t.left, right, path), p, t')
  {
    var sh' := SnipNodes(sh, p, t.left, right, path);
    SnipPathSorted(sh, t.left, path, right);
    forall x: nat ensures St(sh', x) == (if x in path then Unlinked(p, sh.snips) else St(sh, x)) {
      SnipEffect(sh, p, t.left, right, path, x);
      if x in path {
        var i :| 0 <= i < |path| && path[i] == x;
        SnipPathLinked(sh, t.left, path, right, i);
      }
    }
    forall x: nat ensures OwnsSlot(sh', p, t', x) {
      assert OwnsSlot(sh, p, t, x);
      if x in path {
        var i :| 0 <= i < |path| && path[i] == x;
        SnipPathLinked(sh, t.left, path, right, i);
      }
    }
  }

  lemma SnipFrame(c: Config, sh: Shared, p: nat, t: Thread, t': Thread, path: seq<nat>, right: nat)
    requires HeapOk(c, sh) && CanSnip(sh, t.left, path, right) && FrameOk(sh, p, t) && t.pend == [] && Running(t)
    requires t'.neu == t.neu && t'.list == t.list && t'.pend == path && PhaseOf(t') == Retiring
    requires t'.since == t.since && t'.start == t.start && t'.val == t.val
    ensures var sh' := SnipNodes(sh, p, t.left, right, path);
            HeapOk(c, sh') && Evolves(c, sh, sh', p) && FrameOk(sh', p, t') && KeepsShelter(sh, sh', t.since)
  {
    var sh' := SnipNodes(sh, p, t.left, right, path);
    SnipKeeps(c, sh, p, t.left, path, right);
    SnipOwns(c, sh, p, t, t', path, right);
    forall x: nat | Protected(sh, t.since, x) ensures St(sh', x) != Free {
      SnipEffect(sh, p, t.left, right, path, x);
    }
    ShelterStays(c, sh, sh', p, p, t.since, t.start, t.val);
  }

  /** A thread's own successful CAS changes neither the count of others' nor its own bookkeeping. */
  lemma BookAfterSnip(sh: Shared, sh': Shared, t: Thread, t': Thread)
    requires BookOk(sh, t) && Attempting(t) && t.pc != Idle && !(PhaseOf(t) == Adding)
    requires sh'.wins == sh.wins + 1 && sh'.hist == sh.hist
    requires SameCall(t, t'.(mine := t.mine)) && t'.mine == t.mine + 1
    requires t'.tries == t.tries && t'.seen == t.seen && ShapeOk(t')
    requires t'.neu.Some? ==> Dat(sh', t'.neu.value) == t'.val && PhaseOf(t') != Adding
    ensures BookOk(sh', t')
  {
    assert t.lin.Some? ==> TookEffect(sh, t, t.lin.value);
    assert t'.lin.Some? ==> TookEffect(sh', t', t'.lin.value);
  }

  lemma CasPoint(c: Config, sh: Shared, p: nat, t: Thread)
    requires HeapOk(c, sh) && TraversedOk(sh, t, t.right) && RightOk(sh, t) && t.ln != t.right && t.since <= sh.snips
    requires Nxt(sh, t.left) == Link(t.ln, false) && t.mine <= sh.wins && t.pc == SCas
    ensures PcOk(SearchStep(sh, p, t).0, SearchStep(sh, p, t).1)
  {
    var (sh', t') := SearchStep(sh, p, t);
    CasCanSnip(c, sh, t);
    SnipKeepsChain(c, sh, p, t.left, t.path, t.right);
    forall x: nat ensures (Held(sh, t, x) ==> Held(sh', t', x)) && Dat(sh', x) == Dat(sh, x)
                       && Nxt(sh', x) == (if x == t.left then Link(t.right, false) else Nxt(sh, x)) {
      SnipEffect(sh, p, t.left, t.right, t.path, x);
    }
    assert Out(sh', t') == Out(sh, t);
    assert Quiet(sh', t') == Quiet(sh, t);
    forall i | 0 <= i < |t.path| ensures MarkedAt(sh', t.since, t.path, t.right, i) {
      assert MarkedAt(sh, t.since, t.path, t.right, i);
    }
    SnipRightLinked(sh, t.left, t.path, t.right);
    assert RightOk(sh', t') && LeftOk(sh', t');
  }

  ghost predicate StepResult(c: Config, sh: Shared, p: nat, sh': Shared, t': Thread) {
    HeapOk(c, sh') && Evolves(c, sh, sh', p) && ThreadsOk(sh', map[p := t'])
  }

  lemma Conclude(c: Config, sh: Shared, p: nat, sh': Shared, t': Thread)
    requires HeapOk(c, sh') && Evolves(c, sh, sh', p) && FrameOk(sh', p, t') && BookOk(sh', t') && PcOk(sh', t')
    ensures StepResult(c, sh, p, sh', t')
  {}

  /** `EffectOk` of a single memory state, folded: only ever applied to a set of one. */
  ghost predicate EffectsOk(c: Config, sh: Shared, p: nat, after: set<Shared>) {
    forall sh' {:trigger EffectOk(c, sh, p, sh')} :: sh' in after ==> EffectOk(c, sh, p, sh')
  }

  ghost predicate EffectOk(c: Config, sh: Shared, p: nat, sh': Shared) {
    HeapOk(c, sh') && Evolves(c, sh, sh', p)
  }

  /** A step is sound if its effect is, and what the thread owns, counts and knows afterwards. */
  lemma Gather(c: Config, sh: Shared, p: nat, sh': Shared, t': Thread)
    requires EffectsOk(c, sh, p, {sh'}) && FramesOk(sh', p, {t'}) && BooksOk(sh', {t'}) && PointsOk(sh', {t'})
    ensures StepResult(c, sh, p, sh', t')
  {
    assert EffectOk(c, sh, p, sh') && FrameOk(sh', p, t') && BookOk(sh', t') && t' in {t'};
    assert PcOk(sh', t');
    Conclude(c, sh, p, sh', t');
  }

  lemma ThreadFacts(sh: Shared, p: nat, t: Thread)
    requires ThreadsOk(sh, map[p := t])
    ensures FrameOk(sh, p, t) && BookOk(sh, t) && PcOk(sh, t)
  {
    assert p in map[p := t];
  }

  lemma ThreadFrame(sh: Shared, p: nat, t: Thread)
    requires ThreadsOk(sh, map[p := t])
    ensures FrameOk(sh, p, t)
  {
    ThreadFacts(sh, p, t);
  }

  lemma ThreadBook(sh: Shared, p: nat, t: Thread)
    requires ThreadsOk(sh, map[p := t])
    ensures BookOk(sh, t)
  {
    ThreadFacts(sh, p, t);
  }

  lemma ThreadPoint(sh: Shared, p: nat, t: Thread)
    requires ThreadsOk(sh, map[p := t])
    ensures PcOk(sh, t)
  {
    ThreadFacts(sh, p, t);
  }

  lemma OwnNodeUntouchedBySnip(c: Config, sh: Shared, p: nat, t: Thread, path: seq<nat>, right: nat)
    requires BookOk(sh, t) && t.neu.Some? && t.pc != AData && |sh.slot| == |sh.next| && t.left < |sh.next|
    ensures Dat(SnipNodes(sh, p, t.left, right, path), t.neu.value) == t.val
  {
    SnipEffect(sh, p, t.left, right, path, t.neu.value);
  }

  lemma CasShape(t: Thread, t': Thread)
    requires ShapeOk(t) && t.pc == SCas && t'.caller == t.caller && t'.op == t.op && t'.neu == t.neu && t'.lin == t.lin
    requires t'.pc == SPersist || t'.pc == SHead
    ensures ShapeOk(t')
  {}

  lemma CasSucceeds(c: Config, sh: Shared, p: nat, t: Thread)
    requires HeapOk(c, sh) && ThreadsOk(sh, map[p := t]) && t.pc == SCas
    requires Nxt(sh, t.left) == Link(t.ln, false)
    ensures StepResult(c, sh, p, SearchStep(sh, p, t).0, SearchStep(sh, p, t).1)
  {
    var (sh', t') := SearchStep(sh, p, t);
    CasFrames(c, sh, p, t);
    CasBooks(c, sh, p, t);
    CasPoints(c, sh, p, t);
    Gather(c, sh, p, sh', t');
  }

  lemma CasFrames(c: Config, sh: Shared, p: nat, t: Thread)
    requires HeapOk(c, sh) && ThreadsOk(sh, map[p := t]) && t.pc == SCas
    requires Nxt(sh, t.left) == Link(t.ln, false)
    ensures var (sh', t') := SearchStep(sh, p, t); EffectsOk(c, sh, p, {sh'}) && FramesOk(sh', p, {t'})
  {
    ThreadFacts(sh, p, t);
    CasShape(t, SearchStep(sh, p, t).1);
    CasCanSnip(c, sh, t);
    SnipFrame(c, sh, p, t, SearchStep(sh, p, t).1, t.path, t.right);
  }

  lemma CasBooks(c: Config, sh: Shared, p: nat, t: Thread)
    requires HeapOk(c, sh) && ThreadsOk(sh, map[p := t]) && t.pc == SCas
    requires Nxt(sh, t.left) == Link(t.ln, false)
    ensures var (sh', t') := SearchStep(sh, p, t); BooksOk(sh', {t'})
  {
    ThreadFacts(sh, p, t);
    CasShape(t, SearchStep(sh, p, t).1);
    CasCanSnip(c, sh, t);
    if t.neu.Some? {
      OwnNodeUntouchedBySnip(c, sh, p, t, t.path, t.right);
    }
    BookAfterSnip(sh, SearchStep(sh, p, t).0, t, SearchStep(sh, p, t).1);
  }

  lemma CasPoints(c: Config, sh: Shared, p: nat, t: Thread)
    requires HeapOk(c, sh) && ThreadsOk(sh, map[p := t]) && t.pc == SCas
    requires Nxt(sh, t.left) == Link(t.ln, false)
    ensures var (sh', t') := SearchStep(sh, p, t); PointsOk(sh', {t'})
  {
    ThreadFacts(sh, p, t);
    CasPoint(c, sh, p, t);
  }

  lemma CasFails(c: Config, sh: Shared, p: nat, t: Thread)
    requires HeapOk(c, sh) && ThreadsOk(sh, map[p := t]) && t.pc == SCas
    requires Nxt(sh, t.left) != Link(t.ln, false)
    ensures StepResult(c, sh, p, SearchStep(sh, p, t).0, SearchStep(sh, p, t).1)
  {
    ThreadFacts(sh, p, t);
    CasShape(t, Again(t));
    LocalStep(c, sh, p, t, Again(t));
  }

  /** The thread moves on within its operation without changing what it owns. */
  ghost predicate LocalMove(sh: Shared, t: Thread, t': Thread) {
    && t.pc != Idle && SameFrame(t, t') && SameCall(t, t') && ShapeOk(t') && PointsOk(sh, {t'})
    && (t'.tries == t.tries || (t'.tries == t.tries + 1 && Attempting(t) && !Quiet(sh, t)))
    && (Attempting(t') ==> (Attempting(t) && t'.tries == t.tries && t'.seen == t.seen) || t'.seen == Others(sh, t))
    && (t'.neu.Some? ==> t.pc != AData && t'.pc != APersistNew && t'.pc != ALink)
  }

  /** `LocalMove` to a single thread state, folded: only ever applied to a set of one. */
  ghost predicate LocalMoves(sh: Shared, t: Thread, after: set<Thread>) {
    forall t' {:trigger LocalMove(sh, t, t')} :: t' in after ==> LocalMove(sh, t, t')
  }

  /** Steps that only change the thread. */
  lemma LocalStep(c: Config, sh: Shared, p: nat, t: Thread, t': Thread)
    requires HeapOk(c, sh) && ThreadsOk(sh, map[p := t]) && LocalMoves(sh, t, {t'})
    ensures StepResult(c, sh, p, sh, t')
  {
    assert LocalMove(sh, t, t');
    LocalFrame(sh, p, t, t');
    LocalBook(sh, p, t, t');
    EvolvesRefl(c, sh, p);
    assert EffectOk(c, sh, p, sh);
    Gather(c, sh, p, sh, t');
  }

  lemma LocalFrame(sh: Shared, p: nat, t: Thread, t': Thread)
    requires ThreadsOk(sh, map[p := t]) && SameFrame(t, t')
    ensures FramesOk(sh, p, {t'})
  {
    ThreadFrame(sh, p, t);
    FrameMoves(sh, p, t, t');
  }

  lemma LocalBook(sh: Shared, p: nat, t: Thread, t': Thread)
    requires ThreadsOk(sh, map[p := t]) && LocalMoves(sh, t, {t'})
    ensures BooksOk(sh, {t'})
  {
    assert LocalMove(sh, t, t');
    ThreadBook(sh, p, t);
    BookMoves(sh, t, t');
  }

  lemma NewNodeUntouched(sh: Shared, sh': Shared, t: Thread)
    requires NewNodeOk(sh, t) && sh'.next == sh.next && sh'.data == sh.data && t.pc != ALink
    ensures NewNodeOk(sh', t)
  {}

  /** Steps that also write something other than links, data and the ledger. */
  lemma WriteStep(c: Config, sh: Shared, p: nat, t: Thread, sh': Shared, t': Thread)
    requires HeapOk(c, sh) && ThreadsOk(sh, map[p := t]) && LocalMoves(sh, t, {t'})
    requires HeapOk(c, sh') && Evolves(c, sh, sh', p) && Bookkept(sh, sh')
    requires sh'.slot == sh.slot && sh'.next == sh.next && sh'.data == sh.data && ResOf(sh', p) == ResOf(sh, p)
    requires Running(t) && t'.pc != ALink
    ensures StepResult(c, sh, p, sh', t')
  {
    assert LocalMove(sh, t, t');
    ThreadFacts(sh, p, t);
    BookMoves(sh, t, t');
    NewNodeUntouched(sh, sh', t');
    BookStays(sh, sh', t');
    FrameStays(c, sh, sh', p, t, t');
    FactsSurvive(c, sh, sh', p, t');
    assert t' in {t'};
    PcFactsSurvive(sh, sh', t');
  }

  lemma PersistStep(c: Config, sh: Shared, p: nat, t: Thread, x: nat, t': Thread)
    requires HeapOk(c, sh) && ThreadsOk(sh, map[p := t]) && LocalMoves(sh, t, {t'})
    requires Running(t) && t'.pc != ALink
    ensures StepResult(c, sh, p, Persist(sh, x), t')
  {
    ThreadFacts(sh, p, t);
    PersistKeeps(c, sh, p, x);
    WriteStep(c, sh, p, t, Persist(sh, x), t');
  }

  // Retiring what was unlinked.

  lemma PathTail(sh: Shared, since: nat, a: nat, path: seq<nat>, b: nat)
    requires MarkedPath(sh, since, a, path, b) && |path| > 0
    ensures Protected(sh, since, a) && Nxt(sh, a).mark && MarkedPath(sh, since, Nxt(sh, a).idx, path[1..], b)
  {
    assert MarkedAt(sh, since, path, b, 0);
    var rest := path[1..];
    forall i | 0 <= i < |rest| ensures MarkedAt(sh, since, rest, b, i) {
      assert MarkedAt(sh, since, path, b, i + 1);
    }
  }

  /** Links lead upwards, so a non-empty path does not end where it starts. */
  lemma {:induction false} PathIsNotCircular(sh: Shared, p: nat, t: Thread, a: nat, path: seq<nat>, b: nat)
    requires ShelterOk(sh, p, t.since, t.start, t.val) && !Nxt(sh, TAIL).mark
    requires MarkedPath(sh, t.since, a, path, b) && |path| > 0
    ensures Lt(sh, a, b)
    decreases |path|
  {
    PathTail(sh, t.since, a, path, b);
    ShelteredNext(sh, p, t, a);
    if |path| > 1 {
      PathIsNotCircular(sh, p, t, Nxt(sh, a).idx, path[1..], b);
    }
  }

  lemma RetireLoopPoint(sh: Shared, p: nat, t: Thread, cur: nat)
    requires ShelterOk(sh, p, t.since, t.start, t.val) && ChainOk(sh)
    requires SnippedOk(sh, t) && MarkedPath(sh, t.since, cur, t.pend, t.right)
    ensures PcOk(sh, RetireLoop(t, cur))
    ensures cur == t.right <==> t.pend == []
  {
    var t' := RetireLoop(t, cur);
    assert SnippedOk(sh, t');
    if |t.pend| > 0 {
      PathIsNotCircular(sh, p, t, cur, t.pend, t.right);
    }
  }

  lemma RetireLoopMoves(sh: Shared, p: nat, t: Thread, cur: nat)
    requires ShelterOk(sh, p, t.since, t.start, t.val) && ChainOk(sh) && ShapeOk(t)
    requires SnippedOk(sh, t) && MarkedPath(sh, t.since, cur, t.pend, t.right)
    requires t.pc == SPersist || (t.pc == SRetNext && !t.inRemove)
    ensures LocalMoves(sh, t, {RetireLoop(t, cur)})
  {
    RetireLoopPoint(sh, p, t, cur);
  }

  lemma PersistSnipStep(c: Config, sh: Shared, p: nat, t: Thread)
    requires HeapOk(c, sh) && ThreadsOk(sh, map[p := t]) && t.pc == SPersist
    ensures StepResult(c, sh, p, SearchStep(sh, p, t).0, SearchStep(sh, p, t).1)
  {
    ThreadFacts(sh, p, t);
    RetireLoopMoves(sh, p, t, t.ln);
    PersistStep(c, sh, p, t, t.left, RetireLoop(t, t.ln));
  }

  lemma NextToRetireStep(c: Config, sh: Shared, p: nat, t: Thread)
    requires HeapOk(c, sh) && ThreadsOk(sh, map[p := t]) && t.pc == SRetNext
    ensures StepResult(c, sh, p, SearchStep(sh, p, t).0, SearchStep(sh, p, t).1)
  {
    ThreadFacts(sh, p, t);
    RetireLoopMoves(sh, p, t, Nxt(sh, t.cur).idx);
    LocalStep(c, sh, p, t, RetireLoop(t, Nxt(sh, t.cur).idx));
  }

  lemma RetireOwns(sh: Shared, p: nat, t: Thread, t': Thread)
    requires OwnsOk(sh, p, t) && |t.pend| > 0 && t.cur == t.pend[0] && t.pc == EEpoch
    requires t'.neu == t.neu && t'.pend == t.pend[1..] && t'.list == t.list + [Entry(t.cur, sh.epoch)]
    requires PhaseOf(t') == Retiring || t'.pend == []
    ensures OwnsOk(RetireNode(sh, p, t.cur), p, t')
  {
    var sh' := RetireNode(sh, p, t.cur);
    assert t.cur in t.pend && t.pend == [t.cur] + t'.pend;
    assert OwnsSlot(sh, p, t, t.cur);
    forall i | 0 <= i < |t'.pend| ensures t'.pend[i] != t.cur {
      assert t'.pend[i] == t.pend[i + 1];
    }
    forall x: nat ensures OwnsSlot(sh', p, t', x) {
      assert OwnsSlot(sh, p, t, x);
      assert x in t.pend <==> x == t.cur || x in t'.pend;
    }
    forall i | 0 <= i < |t.list| ensures t.list[i].idx != t.cur {
      assert OwnsSlot(sh, p, t, t.list[i].idx) && Entry(t.list[i].idx, t.list[i].epoch) in t.list;
    }
  }

  /** A node just retired stays in its own thread's view: its epoch is not below the reservation. */
  lemma RetireFrame(c: Config, sh: Shared, p: nat, t: Thread, t': Thread)
    requires HeapOk(c, sh) && FrameOk(sh, p, t) && |t.pend| > 0 && t.cur == t.pend[0] && t.pc == EEpoch
    requires t'.neu == t.neu && t'.pend == t.pend[1..] && t'.list == t.list + [Entry(t.cur, sh.epoch)]
    requires PhaseOf(t') == Retiring || (Running(t') && t'.pend == [])
    requires t'.since == t.since && t'.start == t.start && t'.val == t.val
    ensures var sh' := RetireNode(sh, p, t.cur);
            HeapOk(c, sh') && Evolves(c, sh, sh', p) && FrameOk(sh', p, t') && KeepsShelter(sh, sh', t.since)
  {
    var sh' := RetireNode(sh, p, t.cur);
    assert t.cur in t.pend && OwnsSlot(sh, p, t, t.cur);
    RetireKeeps(c, sh, p, t.cur);
    RetireOwns(sh, p, t, t');
    ShelterStays(c, sh, sh', p, p, t.since, t.start, t.val);
  }

  lemma ListedFacts(sh: Shared, t: Thread)
    requires RetiringOk(sh, t) && t.pc == EEpoch
    ensures |t.pend| > 0 && t.cur == t.pend[0] && RetiredUpTo(sh, Listed(sh, t))
  {
    if !t.inRemove {
      PathTail(sh, t.since, t.cur, t.pend, t.right);
      assert SnippedOk(sh, Listed(sh, t));
    }
  }

  /** Where retire goes after the list: the epoch, the reservations, or back to its caller. */
  predicate GoesOn(t: Thread, t': Thread) {
    && t' == t.(pc := t'.pc, i := t'.i)
    && (t'.pc == EBump || t'.pc == EScan || (t'.pc == SRetNext && !t.inRemove) || (t'.pc == RPersistLeft && t.inRemove))
  }

  lemma GoesOnPoint(sh: Shared, t: Thread, t': Thread)
    requires RetiredUpTo(sh, t) && GoesOn(t, t')
    ensures PcOk(sh, t')
  {
    assert SnippedOk(sh, t) == SnippedOk(sh, t');
    assert RetiredUpTo(sh, t');
  }

  lemma RetireBook(sh: Shared, p: nat, t: Thread, t': Thread)
    requires BookOk(sh, t) && t.pc == EEpoch && GoesOn(Listed(sh, t), t')
    ensures BookOk(RetireNode(sh, p, t.cur), t')
  {
    var sh' := RetireNode(sh, p, t.cur);
    assert ShapeOk(t');
    BookMoves(sh, t, t');
    NewNodeUntouched(sh, sh', t');
    BookStays(sh, sh', t');
  }

  /** Retiring changes neither links nor keys nor who is in view. */
  lemma RetireSurvives(sh: Shared, p: nat, t: Thread)
    requires St(sh, t.cur).Unlinked?
    ensures Survives(sh, RetireNode(sh, p, t.cur), t)
  {
    var sh' := RetireNode(sh, p, t.cur);
    forall x: nat | Held(sh, t, x) ensures HeldSurvives(sh, sh', t, x) {}
    assert Out(sh', t) == Out(sh, t) && In(sh', t) == In(sh, t);
  }

  lemma EpochPoint(sh: Shared, p: nat, t: Thread, t': Thread)
    requires RetiringOk(sh, t) && t.pc == EEpoch && GoesOn(Listed(sh, t), t')
    requires St(sh, t.cur).Unlinked? && t.seen <= Others(sh, t)
    ensures PcOk(RetireNode(sh, p, t.cur), t')
  {
    var sh', t1 := RetireNode(sh, p, t.cur), Listed(sh, t);
    ListedFacts(sh, t);
    RetireSurvives(sh, p, t1);
    RetiredUpToSurvives(sh, sh', t1);
    GoesOnPoint(sh', t1, t');
  }

  lemma PendingFacts(sh: Shared, p: nat, t: Thread)
    requires ThreadsOk(sh, map[p := t]) && t.pc == EEpoch
    ensures |t.pend| > 0 && t.cur == t.pend[0] && (t.inRemove ==> t.pend[1..] == [])
  {
    ThreadPoint(sh, p, t);
    ListedFacts(sh, t);
  }

  lemma EpochFrames(c: Config, sh: Shared, p: nat, t: Thread, t': Thread)
    requires HeapOk(c, sh) && ThreadsOk(sh, map[p := t]) && t.pc == EEpoch && GoesOn(Listed(sh, t), t')
    ensures EffectsOk(c, sh, p, {RetireNode(sh, p, t.cur)}) && FramesOk(RetireNode(sh, p, t.cur), p, {t'})
  {
    ThreadFrame(sh, p, t);
    PendingFacts(sh, p, t);
    RetireFrame(c, sh, p, t, t');
  }

  lemma EpochBooks(sh: Shared, p: nat, t: Thread, t': Thread)
    requires ThreadsOk(sh, map[p := t]) && t.pc == EEpoch && GoesOn(Listed(sh, t), t')
    ensures BooksOk(RetireNode(sh, p, t.cur), {t'})
  {
    ThreadBook(sh, p, t);
    RetireBook(sh, p, t, t');
  }

  lemma EpochPoints(sh: Shared, p: nat, t: Thread, t': Thread)
    requires ThreadsOk(sh, map[p := t]) && t.pc == EEpoch && GoesOn(Listed(sh, t), t')
    ensures PointsOk(RetireNode(sh, p, t.cur), {t'})
  {
    ThreadFacts(sh, p, t);
    ListedFacts(sh, t);
    assert t.cur in t.pend && OwnsSlot(sh, p, t, t.cur);
    EpochPoint(sh, p, t, t');
  }

  lemma EpochStep(c: Config, sh: Shared, p: nat, t: Thread, t': Thread)
    requires HeapOk(c, sh) && ThreadsOk(sh, map[p := t]) && t.pc == EEpoch
    requires GoesOn(Listed(sh, t), t')
    ensures StepResult(c, sh, p, RetireNode(sh, p, t.cur), t')
  {
    EpochFrames(c, sh, p, t, t');
    EpochBooks(sh, p, t, t');
    EpochPoints(sh, p, t, t');
    Gather(c, sh, p, RetireNode(sh, p, t.cur), t');
  }

  lemma GoesOnShape(t: Thread, t': Thread)
    requires ShapeOk(t) && (t.pc == EBump || t.pc == EScan || t.pc == ELoad || t.pc == EFree) && GoesOn(t, t')
    requires t.inRemove ==> t.pend == []
    ensures ShapeOk(t') && Attempting(t') && SameFrame(t, t') && SameCall(t, t')
  {}

  lemma RetiringGoesOn(sh: Shared, t: Thread, t': Thread)
    requires ShapeOk(t) && RetiringOk(sh, t) && (t.pc == EBump || t.pc == EScan || t.pc == ELoad || t.pc == EFree)
    requires GoesOn(t, t')
    ensures LocalMoves(sh, t, {t'})
  {
    GoesOnShape(t, t');
    GoesOnPoints(sh, t, t');
  }

  lemma GoesOnPoints(sh: Shared, t: Thread, t': Thread)
    requires RetiredUpTo(sh, t) && GoesOn(t, t')
    ensures PointsOk(sh, {t'})
  {
    GoesOnPoint(sh, t, t');
  }

  /** Still scanning, or freeing what the scan allows. */
  predicate Scans(t: Thread, t': Thread) {
    && (Scanning(t) || t.pc == EFree) && (Scanning(t') || t'.pc == EFree)
    && t' == t.(pc := t'.pc, i := t'.i, min := t'.min, pos := t'.pos)
  }

  lemma ScansShape(t: Thread, t': Thread)
    requires ShapeOk(t) && Scans(t, t')
    ensures ShapeOk(t') && SameFrame(t, t') && SameCall(t, t') && Attempting(t)
  {}

  lemma ScansPoint(sh: Shared, t: Thread, t': Thread)
    requires RetiringOk(sh, t) && Scans(t, t')
    ensures PointsOk(sh, {t'})
  {
    assert SnippedOk(sh, t) == SnippedOk(sh, t');
    assert RetiredUpTo(sh, t');
  }

  lemma RetiringStays(sh: Shared, t: Thread, t': Thread)
    requires ShapeOk(t) && RetiringOk(sh, t) && Scans(t, t')
    ensures LocalMoves(sh, t, {t'})
  {
    ScansShape(t, t');
    ScansPoint(sh, t, t');
  }

  lemma BumpStep(c: Config, sh: Shared, p: nat, t: Thread, t': Thread)
    requires HeapOk(c, sh) && ThreadsOk(sh, map[p := t]) && t.pc == EBump
    requires GoesOn(t, t')
    ensures StepResult(c, sh, p, sh.(epoch := sh.epoch + 1), t')
  {
    ThreadFacts(sh, p, t);
    RetiringGoesOn(sh, t, t');
    BumpKeeps(c, sh, p);
    WriteStep(c, sh, p, t, sh.(epoch := sh.epoch + 1), t');
  }

  lemma ScanStep(c: Config, sh: Shared, p: nat, t: Thread, t': Thread)
    requires HeapOk(c, sh) && ThreadsOk(sh, map[p := t]) && Scans(t, t')
    ensures StepResult(c, sh, p, sh, t')
  {
    ThreadBook(sh, p, t);
    ThreadPoint(sh, p, t);
    RetiringStays(sh, t, t');
    LocalStep(c, sh, p, t, t');
  }

  lemma DoneStep(c: Config, sh: Shared, p: nat, t: Thread)
    requires HeapOk(c, sh) && ThreadsOk(sh, map[p := t]) && t.pc == EFree
    ensures StepResult(c, sh, p, sh, RetireDone(t))
  {
    ThreadFacts(sh, p, t);
    RetiringGoesOn(sh, t, RetireDone(t));
    LocalStep(c, sh, p, t, RetireDone(t));
  }

  lemma WithoutSorted(list: seq<Entry>, pos: nat)
    requires pos < |list|
    requires forall i, j :: 0 <= i < j < |list| ==> list[i].idx != list[j].idx && list[i].epoch <= list[j].epoch
    ensures var rest := Without(list, pos);
            && (forall i, j :: 0 <= i < j < |rest| ==> rest[i].idx != rest[j].idx && rest[i].epoch <= rest[j].epoch)
            && (forall n :: n in list <==> n == list[pos] || n in rest)
            && (forall n :: n in rest ==> n.idx != list[pos].idx)
  {
    var rest := Without(list, pos);
    forall i, j | 0 <= i < j < |rest| ensures rest[i].idx != rest[j].idx && rest[i].epoch <= rest[j].epoch {
      var i', j' := if i < pos then i else i + 1, if j < pos then j else j + 1;
      assert rest[i] == list[i'] && rest[j] == list[j'];
    }
    assert list == list[..pos] + [list[pos]] + list[pos + 1..];
    forall n | n in rest ensures n.idx != list[pos].idx {
      var i :| 0 <= i < |rest| && rest[i] == n;
      assert n == list[if i < pos then i else i + 1];
    }
  }

  lemma FreeOwns(sh: Shared, p: nat, t: Thread, t': Thread)
    requires OwnsOk(sh, p, t) && t.pos < |t.list| && t' == t.(list := Without(t.list, t.pos))
    ensures OwnsOk(FreeNode(sh, t.list[t.pos].idx), p, t')
  {
    var n := t.list[t.pos];
    var sh' := FreeNode(sh, n.idx);
    WithoutSorted(t.list, t.pos);
    assert n in t.list && OwnsSlot(sh, p, t, n.idx);
    forall i | 0 <= i < |t'.list| ensures t'.list[i].epoch <= sh.epoch {
      assert t'.list[i] in t.list;
    }
    forall x: nat ensures OwnsSlot(sh', p, t', x) {
      assert OwnsSlot(sh, p, t, x);
    }
  }

  lemma FreePoint(c: Config, sh: Shared, sh': Shared, p: nat, t: Thread, t': Thread)
    requires HeapOk(c, sh) && HeapOk(c, sh') && Evolves(c, sh, sh', p)
    requires t.since <= sh.snips && KeepsShelter(sh, sh', t.since) && t.seen <= Others(sh, t)
    requires RetiringOk(sh, t) && t.pc == EFree && t' == t.(list := t'.list)
    ensures PcOk(sh', t')
  {
    FactsSurvive(c, sh, sh', p, t);
    RetiredUpToSurvives(sh, sh', t);
    ListIsIrrelevant(sh', t, t');
  }

  lemma ListIsIrrelevant(sh: Shared, t: Thread, t': Thread)
    requires RetiredUpTo(sh, t) && t.pc == EFree && t' == t.(list := t'.list)
    ensures PcOk(sh, t')
  {
    assert SnippedOk(sh, t) == SnippedOk(sh, t');
  }

  predicate FreesNext(t: Thread) {
    t.pc == EFree && t.pos < |t.list| && Before(t.list[t.pos].epoch, t.min)
  }

  lemma FreeEffect(c: Config, sh: Shared, p: nat, t: Thread)
    requires HeapOk(c, sh) && FrameOk(sh, p, t) && FreesNext(t)
    ensures var sh' := FreeNode(sh, t.list[t.pos].idx);
            EffectsOk(c, sh, p, {sh'}) && OwnsOk(sh', p, t.(list := Without(t.list, t.pos)))
  {
    assert t.list[t.pos] in t.list && OwnsSlot(sh, p, t, t.list[t.pos].idx);
    FreeKeeps(c, sh, p, t.list[t.pos].idx);
    FreeOwns(sh, p, t, t.(list := Without(t.list, t.pos)));
  }

  lemma FreeFrames(c: Config, sh: Shared, p: nat, t: Thread)
    requires HeapOk(c, sh) && ThreadsOk(sh, map[p := t]) && FreesNext(t)
    requires KeepsShelter(sh, FreeNode(sh, t.list[t.pos].idx), t.since)
    ensures var (sh', t') := RetireStep(c, sh, p, t); EffectsOk(c, sh, p, {sh'}) && FramesOk(sh', p, {t'})
  {
    ThreadFrame(sh, p, t);
    FreeEffect(c, sh, p, t);
    var sh' := FreeNode(sh, t.list[t.pos].idx);
    assert EffectOk(c, sh, p, sh');
    ShelterStays(c, sh, sh', p, p, t.since, t.start, t.val);
  }

  lemma FreeBooks(c: Config, sh: Shared, p: nat, t: Thread)
    requires ThreadsOk(sh, map[p := t]) && FreesNext(t)
    ensures BooksOk(RetireStep(c, sh, p, t).0, {RetireStep(c, sh, p, t).1})
  {
    ThreadBook(sh, p, t);
    FreeBook(c, sh, p, t);
  }

  lemma FreePoints(c: Config, sh: Shared, p: nat, t: Thread)
    requires HeapOk(c, sh) && ThreadsOk(sh, map[p := t]) && FreesNext(t)
    requires KeepsShelter(sh, FreeNode(sh, t.list[t.pos].idx), t.since)
    requires EffectsOk(c, sh, p, {RetireStep(c, sh, p, t).0})
    ensures PointsOk(RetireStep(c, sh, p, t).0, {RetireStep(c, sh, p, t).1})
  {
    ThreadPoint(sh, p, t);
    ThreadTimes(sh, p, t);
    var (sh', t') := RetireStep(c, sh, p, t);
    assert EffectOk(c, sh, p, sh');
    FreePoint(c, sh, sh', p, t, t');
  }

  lemma ThreadTimes(sh: Shared, p: nat, t: Thread)
    requires ThreadsOk(sh, map[p := t]) && t.pc == EFree
    ensures t.since <= sh.snips && t.seen <= Others(sh, t)
  {
    ThreadFrame(sh, p, t);
    ThreadBook(sh, p, t);
  }

  lemma FreeStep(c: Config, sh: Shared, p: nat, t: Thread)
    requires HeapOk(c, sh) && ThreadsOk(sh, map[p := t]) && FreesNext(t)
    requires KeepsShelter(sh, FreeNode(sh, t.list[t.pos].idx), t.since)
    ensures StepResult(c, sh, p, RetireStep(c, sh, p, t).0, RetireStep(c, sh, p, t).1)
  {
    var (sh', t') := RetireStep(c, sh, p, t);
    FreeFrames(c, sh, p, t);
    FreeBooks(c, sh, p, t);
    FreePoints(c, sh, p, t);
    Gather(c, sh, p, sh', t');
  }

  lemma FreeBook(c: Config, sh: Shared, p: nat, t: Thread)
    requires BookOk(sh, t) && t.pc == EFree && t.pos < |t.list| && Before(t.list[t.pos].epoch, t.min)
    ensures BookOk(RetireStep(c, sh, p, t).0, RetireStep(c, sh, p, t).1)
  {
    var (sh', t') := RetireStep(c, sh, p, t);
    BookMoves(sh, t, t');
    NewNodeUntouched(sh, sh', t');
    BookStays(sh, sh', t');
  }
}
