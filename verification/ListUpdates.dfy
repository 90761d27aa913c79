/** The steps of add and remove, and the end of an operation. */
module ListUpdates {
  import opened ListCommon
  import opened ListMachine
  import opened ListInv
  import opened ListHeap
  import opened ListStable
  import opened ListSteps
  import opened ListEffects

  // add: allocating and filling the new node.

  /** Writes confined to slots not in view. */
  lemma OutOfViewSurvives(sh: Shared, sh': Shared, t: Thread)
    requires forall x: nat :: Held(sh, t, x) ==> St(sh', x) == St(sh, x) && Nxt(sh', x) == Nxt(sh, x) && Dat(sh', x) == Dat(sh, x)
    requires sh'.hist == sh.hist && sh'.wins == sh.wins && Nxt(sh', HEAD).mark == Nxt(sh, HEAD).mark
    ensures Survives(sh, sh', t)
  {
    forall x: nat | Held(sh, t, x) ensures HeldSurvives(sh, sh', t, x) {}
    assert Out(sh', t) == Out(sh, t) && In(sh', t) == In(sh, t);
  }

  lemma AbsentSurvives(sh: Shared, sh': Shared, t: Thread, t': Thread)
    requires AbsentOk(sh, t) && Survives(sh, sh', t) && t.seen <= Others(sh, t) && SameView(t, t')
    ensures AbsentOk(sh', t')
  {
    RightSurvives(sh, sh', t);
    assert FoundOk(sh', t);
  }

  lemma AllocOwns(c: Config, sh: Shared, p: nat, t: Thread, t': Thread, x: nat)
    requires OwnsOk(sh, p, t) && t.neu == None && St(sh, x) == Free && x < |sh.slot|
    requires t'.neu == Some(x) && t'.pend == t.pend && t'.list == t.list && PhaseOf(t') != Retiring && PhaseOf(t) != Retiring
    ensures OwnsOk(AllocNode(sh, p, x), p, t')
  {
    var sh' := AllocNode(sh, p, x);
    forall y: nat ensures OwnsSlot(sh', p, t', y) {
      assert OwnsSlot(sh, p, t, y);
    }
  }

  lemma AllocBook(sh: Shared, sh': Shared, t: Thread, x: nat)
    requires BookOk(sh, t) && t.pc == AAlloc && Bookkept(sh, sh')
    ensures BookOk(sh', t.(pc := AData, neu := Some(x)))
  {
    assert t.op.Add? && t.lin.None?;
  }

  lemma AllocFrames(c: Config, sh: Shared, p: nat, t: Thread, x: nat)
    requires HeapOk(c, sh) && ThreadsOk(sh, map[p := t]) && t.pc == AAlloc && Bit(sh, x)
    ensures EffectsOk(c, sh, p, {AllocNode(sh, p, x)})
    ensures FramesOk(AllocNode(sh, p, x), p, {t.(pc := AData, neu := Some(x))})
  {
    ThreadFrame(sh, p, t);
    ThreadBook(sh, p, t);
    AllocKeeps(c, sh, p, x);
    AllocOwns(c, sh, p, t, t.(pc := AData, neu := Some(x)), x);
    ShelterStays(c, sh, AllocNode(sh, p, x), p, p, t.since, t.start, t.val);
  }

  lemma AllocBooks(sh: Shared, p: nat, t: Thread, x: nat)
    requires ThreadsOk(sh, map[p := t]) && t.pc == AAlloc
    ensures BooksOk(AllocNode(sh, p, x), {t.(pc := AData, neu := Some(x))})
  {
    ThreadBook(sh, p, t);
    AllocBook(sh, AllocNode(sh, p, x), t, x);
  }

  lemma AllocPoints(c: Config, sh: Shared, p: nat, t: Thread, x: nat)
    requires HeapOk(c, sh) && ThreadsOk(sh, map[p := t]) && t.pc == AAlloc && Bit(sh, x)
    ensures PointsOk(AllocNode(sh, p, x), {t.(pc := AData, neu := Some(x))})
  {
    ThreadPoint(sh, p, t);
    ThreadBook(sh, p, t);
    assert BitOk(c, sh, x);
    OutOfViewSurvives(sh, AllocNode(sh, p, x), t);
    AllocatedPoint(sh, AllocNode(sh, p, x), t, t.(pc := AData, neu := Some(x)));
  }

  lemma AllocatedPoint(sh: Shared, sh': Shared, t: Thread, t': Thread)
    requires Survives(sh, sh', t) && t.seen <= Others(sh, t) && AbsentOk(sh, t) && t' == t.(pc := AData, neu := t'.neu)
    ensures PointsOk(sh', {t'})
  {
    AbsentSurvives(sh, sh', t, t');
  }

  lemma AllocStep(c: Config, sh: Shared, p: nat, t: Thread, x: nat)
    requires HeapOk(c, sh) && ThreadsOk(sh, map[p := t]) && t.pc == AAlloc
    requires Bit(sh, x)
    ensures StepResult(c, sh, p, AllocNode(sh, p, x), t.(pc := AData, neu := Some(x)))
  {
    AllocFrames(c, sh, p, t, x);
    AllocBooks(sh, p, t, x);
    AllocPoints(c, sh, p, t, x);
    Gather(c, sh, p, AllocNode(sh, p, x), t.(pc := AData, neu := Some(x)));
  }

  lemma FillBook(sh: Shared, sh': Shared, t: Thread, t': Thread)
    requires BookOk(sh, t) && Bookkept(sh, sh') && PhaseOf(t) == Adding && t.pc != AAlloc && t.pc != ALink
    requires t' == t.(pc := t'.pc) && PhaseOf(t') == Adding && t'.pc != AAlloc && NewNodeOk(sh', t')
    ensures BookOk(sh', t')
  {
    assert t.op.Add? && t.lin.None?;
  }

  /** Filling in the new node: its data, its link, its durable line. */
  lemma FillStep(c: Config, sh: Shared, p: nat, t: Thread, sh': Shared, t': Thread)
    requires HeapOk(c, sh) && ThreadsOk(sh, map[p := t])
    requires PhaseOf(t) == Adding && t.pc != AAlloc && t.pc != ALink
    requires t' == t.(pc := t'.pc) && PhaseOf(t') == Adding && t'.pc != AAlloc && NewNodeOk(sh', t')
    requires EffectsOk(c, sh, p, {sh'}) && Bookkept(sh, sh')
    requires sh'.slot == sh.slot && ResOf(sh', p) == ResOf(sh, p)
    requires forall x: nat :: St(sh, x) != Private(p) ==> Nxt(sh', x) == Nxt(sh, x) && Dat(sh', x) == Dat(sh, x)
    ensures StepResult(c, sh, p, sh', t')
  {
    assert EffectOk(c, sh, p, sh');
    ThreadFacts(sh, p, t);
    FillBook(sh, sh', t, t');
    FrameStays(c, sh, sh', p, t, t');
    assert forall x: nat :: St(sh', x) == St(sh, x);
    OutOfViewSurvives(sh, sh', t);
    AbsentSurvives(sh, sh', t, t');
  }

  /** The new node is the thread's own. */
  lemma NewIsPrivate(sh: Shared, p: nat, t: Thread)
    requires ThreadsOk(sh, map[p := t]) && PhaseOf(t) == Adding && t.pc != AAlloc
    ensures t.neu.Some? && St(sh, t.neu.value) == Private(p)
    ensures t.pc != AData ==> NewNodeOk(sh, t) && Dat(sh, t.neu.value) == t.val
  {
    ThreadBook(sh, p, t);
    ThreadFrame(sh, p, t);
    assert OwnsSlot(sh, p, t, t.neu.value);
  }

  lemma DataStep(c: Config, sh: Shared, p: nat, t: Thread)
    requires HeapOk(c, sh) && ThreadsOk(sh, map[p := t]) && t.pc == AData
    ensures t.neu.Some? && StepResult(c, sh, p, SetDat(sh, t.neu.value, t.val), t.(pc := ANext))
  {
    NewIsPrivate(sh, p, t);
    var n := t.neu.value;
    PrivateWriteKeeps(c, sh, p, n, Link(0, false), t.val);
    assert EffectOk(c, sh, p, SetDat(sh, n, t.val));
    FillStep(c, sh, p, t, SetDat(sh, n, t.val), t.(pc := ANext));
  }

  lemma LinkFieldStep(c: Config, sh: Shared, p: nat, t: Thread)
    requires HeapOk(c, sh) && ThreadsOk(sh, map[p := t]) && t.pc == ANext
    ensures t.neu.Some? && StepResult(c, sh, p, SetNxt(sh, t.neu.value, Link(t.right, false)), t.(pc := APersistNew))
  {
    NewIsPrivate(sh, p, t);
    var n := t.neu.value;
    PrivateWriteKeeps(c, sh, p, n, Link(t.right, false), 0);
    assert EffectOk(c, sh, p, SetNxt(sh, n, Link(t.right, false)));
    FillStep(c, sh, p, t, SetNxt(sh, n, Link(t.right, false)), t.(pc := APersistNew));
  }

  lemma PersistNewStep(c: Config, sh: Shared, p: nat, t: Thread)
    requires HeapOk(c, sh) && ThreadsOk(sh, map[p := t]) && t.pc == APersistNew
    ensures t.neu.Some? && StepResult(c, sh, p, Persist(sh, t.neu.value), t.(pc := ALink))
  {
    NewIsPrivate(sh, p, t);
    PersistKeeps(c, sh, p, t.neu.value);
    assert EffectOk(c, sh, p, Persist(sh, t.neu.value));
    FillStep(c, sh, p, t, Persist(sh, t.neu.value), t.(pc := ALink));
  }

  // add: the CAS that links the new node.

  lemma AddCanLink(c: Config, sh: Shared, p: nat, t: Thread)
    requires HeapOk(c, sh) && OwnsOk(sh, p, t) && NewNodeOk(sh, t) && AbsentOk(sh, t) && t.pc == ALink && t.neu.Some?
    requires Nxt(sh, t.left) == Link(t.right, false)
    ensures CanLink(sh, p, t.left, t.right, t.neu.value)
  {
    UnmarkedIsLinked(c, sh, t.since, t.left);
    assert OwnsSlot(sh, p, t, t.neu.value);
  }

  /** The thread after its new node is in the list. */
  function LinkedIn(sh: Shared, t: Thread): Thread {
    t.(pc := APersistLeft, neu := None, mine := t.mine + 1, lin := Some(if |sh.hist| > 0 then |sh.hist| - 1 else 0))
  }

  lemma LinkBook(c: Config, sh: Shared, p: nat, t: Thread)
    requires HeapOk(c, sh) && BookOk(sh, t) && t.pc == ALink && t.neu.Some?
    requires CanLink(sh, p, t.left, t.right, t.neu.value)
    ensures BookOk(LinkNode(sh, t.left, t.neu.value), LinkedIn(sh, t))
  {
    LinkTakesEffect(c, sh, p, t);
    LinkIsCounted(sh, t);
  }

  lemma LinkTakesEffect(c: Config, sh: Shared, p: nat, t: Thread)
    requires HeapOk(c, sh) && BookOk(sh, t) && t.pc == ALink && t.neu.Some?
    requires CanLink(sh, p, t.left, t.right, t.neu.value)
    ensures CallOk(LinkNode(sh, t.left, t.neu.value), LinkedIn(sh, t))
  {
    var n := t.neu.value;
    var sh', t' := LinkNode(sh, t.left, n), LinkedIn(sh, t);
    LinkChangesKeys(c, sh, p, t.left, t.right, n);
    LinkRecorded(c, sh, p, t.left, t.right, n);
    assert Dat(sh, n) == t.val && t.op.Add?;
    assert TookEffect(sh', t', t'.lin.value);
  }

  lemma LinkIsCounted(sh: Shared, t: Thread)
    requires BookOk(sh, t) && t.pc == ALink && t.neu.Some?
    ensures var sh', t' := LinkNode(sh, t.left, t.neu.value), LinkedIn(sh, t);
            TriesOk(sh', t') && NewNodeMatches(t') && NewNodeOk(sh', t')
  {}

  lemma LinkRecorded(c: Config, sh: Shared, p: nat, left: nat, right: nat, x: nat)
    requires HeapOk(c, sh) && CanLink(sh, p, left, right, x)
    ensures var sh' := LinkNode(sh, left, x);
            sh'.hist == sh.hist + [Keys(sh')] && sh'.wins == sh.wins + 1
  {
    KeysSame(SetSt(SetNxt(sh, left, Link(x, false)), x, Linked), LinkNode(sh, left, x));
  }

  lemma LinkOwns(sh: Shared, p: nat, t: Thread, t': Thread)
    requires OwnsOk(sh, p, t) && t.neu.Some? && PhaseOf(t) != Retiring && PhaseOf(t') != Retiring
    requires t'.neu == None && t'.pend == t.pend && t'.list == t.list
    requires |sh.slot| == |sh.next|
    ensures OwnsOk(LinkNode(sh, t.left, t.neu.value), p, t')
  {
    var sh' := LinkNode(sh, t.left, t.neu.value);
    assert OwnsSlot(sh, p, t, t.neu.value);
    forall y: nat ensures OwnsSlot(sh', p, t', y) {
      assert OwnsSlot(sh, p, t, y);
    }
  }

  lemma LinkFrame(c: Config, sh: Shared, p: nat, t: Thread)
    requires HeapOk(c, sh) && FrameOk(sh, p, t) && t.pc == ALink && t.neu.Some?
    requires CanLink(sh, p, t.left, t.right, t.neu.value)
    ensures var sh' := LinkNode(sh, t.left, t.neu.value);
            HeapOk(c, sh') && Evolves(c, sh, sh', p) && FrameOk(sh', p, LinkedIn(sh, t))
  {
    var sh' := LinkNode(sh, t.left, t.neu.value);
    LinkKeeps(c, sh, p, t.left, t.right, t.neu.value);
    LinkOwns(sh, p, t, LinkedIn(sh, t));
    ShelterStays(c, sh, sh', p, p, t.since, t.start, t.val);
  }

  lemma LinkStep(c: Config, sh: Shared, p: nat, t: Thread)
    requires HeapOk(c, sh) && ThreadsOk(sh, map[p := t]) && AbsentOk(sh, t) && t.pc == ALink && t.neu.Some?
    requires Nxt(sh, t.left) == Link(t.right, false)
    ensures StepResult(c, sh, p, LinkNode(sh, t.left, t.neu.value), LinkedIn(sh, t))
  {
    ThreadFacts(sh, p, t);
    AddCanLink(c, sh, p, t);
    LinkFrame(c, sh, p, t);
    LinkBook(c, sh, p, t);
    assert Held(LinkNode(sh, t.left, t.neu.value), LinkedIn(sh, t), t.left);
  }

  lemma LinkFails(c: Config, sh: Shared, p: nat, t: Thread)
    requires HeapOk(c, sh) && ThreadsOk(sh, map[p := t]) && AbsentOk(sh, t) && t.pc == ALink
    requires Nxt(sh, t.left) != Link(t.right, false)
    ensures StepResult(c, sh, p, sh, Again(t).(caller := AddRetry))
  {
    ThreadFacts(sh, p, t);
    var t' := Again(t).(caller := AddRetry);
    assert ShapeOk(t');
    LocalStep(c, sh, p, t, t');
  }

  lemma FinishMoves(sh: Shared, t: Thread)
    requires BookOk(sh, t) && PhaseOf(t) == Persisting && t.pend == []
    ensures LocalMoves(sh, t, {Finish(t, true)})
  {
    assert t.op.Add? || t.op.Remove?;
  }

  lemma PersistLeftStep(c: Config, sh: Shared, p: nat, t: Thread)
    requires HeapOk(c, sh) && ThreadsOk(sh, map[p := t]) && PhaseOf(t) == Persisting
    ensures StepResult(c, sh, p, Persist(sh, t.left), Finish(t, true))
  {
    ThreadFacts(sh, p, t);
    FinishMoves(sh, t);
    PersistStep(c, sh, p, t, t.left, Finish(t, true));
  }

  // remove.

  /** Reading the link of the node to be removed. */
  function ReadIt(sh: Shared, t: Thread): Thread {
    if Nxt(sh, t.right).mark then Again(t) else t.(ri := Nxt(sh, t.right), pc := RMark)
  }

  lemma ReadRightMoves(sh: Shared, t: Thread)
    requires ShapeOk(t) && PresentOk(sh, t) && t.pc == RRead && t.pend == []
    ensures LocalMoves(sh, t, {ReadIt(sh, t)})
  {
    FoundTransfers(sh, t, ReadIt(sh, t));
    ReadItShape(sh, t);
  }

  lemma ReadItShape(sh: Shared, t: Thread)
    requires ShapeOk(t) && t.pc == RRead && t.pend == []
    ensures var t' := ReadIt(sh, t); SameFrame(t, t') && SameCall(t, t') && ShapeOk(t')
  {}


  lemma ReadRightStep(c: Config, sh: Shared, p: nat, t: Thread)
    requires HeapOk(c, sh) && ThreadsOk(sh, map[p := t]) && PresentOk(sh, t) && t.pc == RRead
    ensures StepResult(c, sh, p, sh, ReadIt(sh, t))
  {
    ThreadFrame(sh, p, t);
    ThreadBook(sh, p, t);
    ReadRightMoves(sh, t);
    LocalStep(c, sh, p, t, ReadIt(sh, t));
  }

  lemma MarkFails(c: Config, sh: Shared, p: nat, t: Thread)
    requires HeapOk(c, sh) && ThreadsOk(sh, map[p := t]) && t.pc == RMark
    requires Nxt(sh, t.right) != t.ri
    ensures StepResult(c, sh, p, sh, Again(t))
  {
    ThreadFacts(sh, p, t);
    LocalStep(c, sh, p, t, Again(t));
  }

  function MarkedIt(sh: Shared, t: Thread): Thread {
    t.(pc := RPersistMark, mine := t.mine + 1, lin := Some(if |sh.hist| > 0 then |sh.hist| - 1 else 0))
  }

  lemma RemoveCanMark(c: Config, sh: Shared, t: Thread)
    requires HeapOk(c, sh) && PcOk(sh, t) && t.pc == RMark && t.val > INT_MIN && Nxt(sh, t.right) == t.ri
    ensures IsMember(sh, t.right) && Dat(sh, t.right) == t.val
  {
    UnmarkedIsLinked(c, sh, t.since, t.right);
  }

  lemma MarkBook(c: Config, sh: Shared, t: Thread)
    requires HeapOk(c, sh) && BookOk(sh, t) && t.pc == RMark && IsMember(sh, t.right) && Dat(sh, t.right) == t.val
    ensures BookOk(MarkNode(sh, t.right), MarkedIt(sh, t))
  {
    var sh', t' := MarkNode(sh, t.right), MarkedIt(sh, t);
    MarkChangesKeys(c, sh, t.right);
    KeysSame(SetNxt(sh, t.right, Link(Nxt(sh, t.right).idx, true)), sh');
    assert t.op.Remove? && t.neu.None?;
    assert TookEffect(sh', t', t'.lin.value);
  }

  lemma MarkPoint(c: Config, sh: Shared, p: nat, t: Thread)
    requires PresentOk(sh, t) && Nxt(sh, t.right) == t.ri && t.right < |sh.next|
    requires ShelterOk(sh, p, t.since, t.start, t.val)
    ensures MarkedByMe(MarkNode(sh, t.right), MarkedIt(sh, t))
  {
    ShelteredNext(sh, p, t, t.right);
  }

  predicate MarksIt(sh: Shared, t: Thread) {
    t.pc == RMark && Nxt(sh, t.right) == t.ri
  }

  lemma MarkTarget(c: Config, sh: Shared, p: nat, t: Thread)
    requires HeapOk(c, sh) && ThreadsOk(sh, map[p := t]) && MarksIt(sh, t)
    ensures IsMember(sh, t.right) && Dat(sh, t.right) == t.val
  {
    ThreadBook(sh, p, t);
    ThreadPoint(sh, p, t);
    RemoveCanMark(c, sh, t);
  }

  lemma MarkFrames(c: Config, sh: Shared, p: nat, t: Thread)
    requires HeapOk(c, sh) && ThreadsOk(sh, map[p := t]) && MarksIt(sh, t)
    ensures EffectsOk(c, sh, p, {MarkNode(sh, t.right)}) && FramesOk(MarkNode(sh, t.right), p, {MarkedIt(sh, t)})
  {
    MarkTarget(c, sh, p, t);
    ThreadFrame(sh, p, t);
    MarkKeeps(c, sh, p, t.right);
    FrameStays(c, sh, MarkNode(sh, t.right), p, t, MarkedIt(sh, t));
  }

  lemma MarkBooks(c: Config, sh: Shared, p: nat, t: Thread)
    requires HeapOk(c, sh) && ThreadsOk(sh, map[p := t]) && MarksIt(sh, t)
    ensures BooksOk(MarkNode(sh, t.right), {MarkedIt(sh, t)})
  {
    MarkTarget(c, sh, p, t);
    ThreadBook(sh, p, t);
    MarkBook(c, sh, t);
  }

  lemma MarkKnown(sh: Shared, p: nat, t: Thread)
    requires ThreadsOk(sh, map[p := t]) && t.pc == RMark
    ensures PresentOk(sh, t) && ShelterOk(sh, p, t.since, t.start, t.val)
  {
    ThreadFrame(sh, p, t);
    ThreadPoint(sh, p, t);
  }

  lemma MarkPoints(c: Config, sh: Shared, p: nat, t: Thread)
    requires HeapOk(c, sh) && ThreadsOk(sh, map[p := t]) && MarksIt(sh, t)
    ensures PointsOk(MarkNode(sh, t.right), {MarkedIt(sh, t)})
  {
    MarkKnown(sh, p, t);
    MarkTarget(c, sh, p, t);
    MarkPoint(c, sh, p, t);
  }

  lemma MarkStep(c: Config, sh: Shared, p: nat, t: Thread)
    requires HeapOk(c, sh) && ThreadsOk(sh, map[p := t]) && t.pc == RMark
    requires Nxt(sh, t.right) == t.ri
    ensures StepResult(c, sh, p, MarkNode(sh, t.right), MarkedIt(sh, t))
  {
    MarkFrames(c, sh, p, t);
    MarkBooks(c, sh, p, t);
    MarkPoints(c, sh, p, t);
    Gather(c, sh, p, MarkNode(sh, t.right), MarkedIt(sh, t));
  }

  lemma PersistMarkStep(c: Config, sh: Shared, p: nat, t: Thread)
    requires HeapOk(c, sh) && ThreadsOk(sh, map[p := t]) && t.pc == RPersistMark
    ensures StepResult(c, sh, p, Persist(sh, t.right), t.(pc := RSnip))
  {
    SnipIsNext(sh, p, t);
    PersistStep(c, sh, p, t, t.right, t.(pc := RSnip));
  }

  lemma SnipIsNext(sh: Shared, p: nat, t: Thread)
    requires ThreadsOk(sh, map[p := t]) && t.pc == RPersistMark
    ensures LocalMoves(sh, t, {t.(pc := RSnip)})
  {
    ThreadFacts(sh, p, t);
    MarkStaysKnown(sh, t, t.(pc := RSnip));
  }

  lemma MarkStaysKnown(sh: Shared, t: Thread, t': Thread)
    requires MarkedByMe(sh, t) && t' == t.(pc := RSnip)
    ensures PointsOk(sh, {t'})
  {}

  function SnippedIt(t: Thread): Thread {
    t.(pc := EEpoch, cur := t.right, pend := [t.right], inRemove := true, mine := t.mine + 1)
  }

  predicate SnipsIt(sh: Shared, t: Thread) {
    t.pc == RSnip && Nxt(sh, t.left) == Link(t.right, false)
  }

  lemma RemoveCanSnip(c: Config, sh: Shared, t: Thread)
    requires HeapOk(c, sh) && PcOk(sh, t) && SnipsIt(sh, t)
    ensures MarkedByMe(sh, t) && CanSnip(sh, t.left, [t.right], t.ri.idx)
  {
    UnmarkedIsLinked(c, sh, t.since, t.left);
  }

  lemma SnipFrames(c: Config, sh: Shared, p: nat, t: Thread)
    requires HeapOk(c, sh) && ThreadsOk(sh, map[p := t]) && SnipsIt(sh, t)
    ensures var sh' := SnipNodes(sh, p, t.left, t.ri.idx, [t.right]);
            EffectsOk(c, sh, p, {sh'}) && FramesOk(sh', p, {SnippedIt(t)})
  {
    ThreadFrame(sh, p, t);
    SnipIsDue(c, sh, p, t);
    SnipFrame(c, sh, p, t, SnippedIt(t), [t.right], t.ri.idx);
  }

  lemma SnipIsDue(c: Config, sh: Shared, p: nat, t: Thread)
    requires HeapOk(c, sh) && ThreadsOk(sh, map[p := t]) && SnipsIt(sh, t)
    ensures MarkedByMe(sh, t) && CanSnip(sh, t.left, [t.right], t.ri.idx)
  {
    ThreadPoint(sh, p, t);
    RemoveCanSnip(c, sh, t);
  }

  lemma SnipBooks(c: Config, sh: Shared, p: nat, t: Thread)
    requires HeapOk(c, sh) && ThreadsOk(sh, map[p := t]) && SnipsIt(sh, t)
    ensures BooksOk(SnipNodes(sh, p, t.left, t.ri.idx, [t.right]), {SnippedIt(t)})
  {
    ThreadBook(sh, p, t);
    BookAfterSnip(sh, SnipNodes(sh, p, t.left, t.ri.idx, [t.right]), t, SnippedIt(t));
  }

  lemma SnipPoints(c: Config, sh: Shared, p: nat, t: Thread)
    requires HeapOk(c, sh) && ThreadsOk(sh, map[p := t]) && SnipsIt(sh, t)
    ensures PointsOk(SnipNodes(sh, p, t.left, t.ri.idx, [t.right]), {SnippedIt(t)})
  {
    SnipIsDue(c, sh, p, t);
    SnipKeepsChain(c, sh, p, t.left, [t.right], t.ri.idx);
    assert Held(SnipNodes(sh, p, t.left, t.ri.idx, [t.right]), SnippedIt(t), t.left);
  }

  lemma RemoveSnips(c: Config, sh: Shared, p: nat, t: Thread)
    requires HeapOk(c, sh) && ThreadsOk(sh, map[p := t]) && SnipsIt(sh, t)
    ensures StepResult(c, sh, p, SnipNodes(sh, p, t.left, t.ri.idx, [t.right]), SnippedIt(t))
  {
    SnipFrames(c, sh, p, t);
    SnipBooks(c, sh, p, t);
    SnipPoints(c, sh, p, t);
    Gather(c, sh, p, SnipNodes(sh, p, t.left, t.ri.idx, [t.right]), SnippedIt(t));
  }

  lemma RemoveLeavesNode(c: Config, sh: Shared, p: nat, t: Thread)
    requires HeapOk(c, sh) && ThreadsOk(sh, map[p := t]) && MarkedByMe(sh, t) && t.pc == RSnip
    ensures StepResult(c, sh, p, sh, t.(pc := RKey))
  {
    ThreadFacts(sh, p, t);
    LocalStep(c, sh, p, t, t.(pc := RKey));
  }

  lemma KeyStep(c: Config, sh: Shared, p: nat, t: Thread)
    requires HeapOk(c, sh) && ThreadsOk(sh, map[p := t]) && MarkedByMe(sh, t) && t.pc == RKey
    ensures StepResult(c, sh, p, sh, t.(key := Dat(sh, t.right), caller := RemClean, pc := SHead))
  {
    ThreadFacts(sh, p, t);
    var t' := t.(key := Dat(sh, t.right), caller := RemClean, pc := SHead);
    LocalStep(c, sh, p, t, t');
  }

  // The end of an operation.

  lemma ResultTransfers(sh: Shared, sh': Shared, t: Thread, t': Thread)
    requires ResultOk(sh, t) && sh'.hist == sh.hist
    requires (t'.op, t'.result, t'.lin, t'.start, t'.val) == (t.op, t.result, t.lin, t.start, t.val)
    ensures ResultOk(sh', t')
  {
    assert Out(sh', t') == Out(sh, t) && In(sh', t') == In(sh, t);
  }

  lemma EndFrames(c: Config, sh: Shared, p: nat, t: Thread)
    requires HeapOk(c, sh) && ThreadsOk(sh, map[p := t]) && t.pc == EndOp && p < c.threads
    ensures var (sh', t') := EndStep(sh, p, t); EffectsOk(c, sh, p, {sh'}) && FramesOk(sh', p, {t'})
  {
    ThreadFrame(sh, p, t);
    ReserveKeeps(c, sh, p, Never);
    OwnsMoves(sh, EndStep(sh, p, t).0, p, t, EndStep(sh, p, t).1);
  }

  lemma EndBooks(sh: Shared, p: nat, t: Thread)
    requires ThreadsOk(sh, map[p := t]) && t.pc == EndOp
    ensures BooksOk(EndStep(sh, p, t).0, {EndStep(sh, p, t).1})
  {
    ThreadBook(sh, p, t);
    EndMovesBook(sh, t);
    BookStays(sh, EndStep(sh, p, t).0, EndStep(sh, p, t).1);
  }

  function AfterEnd(t: Thread): Thread { t.(pc := if t.neu.Some? then DelNew else Return) }

  lemma EndMovesBook(sh: Shared, t: Thread)
    requires BookOk(sh, t) && t.pc == EndOp
    ensures BookOk(sh, AfterEnd(t))
  {
    BookMoves(sh, t, AfterEnd(t));
  }

  /** The result stays justified while the operation is wound up. */
  lemma EndPoint(sh: Shared, p: nat, t: Thread, sh': Shared, t': Thread)
    requires ThreadsOk(sh, map[p := t]) && (t.pc == EndOp || t.pc == DelNew) && sh'.hist == sh.hist
    requires (t'.op, t'.result, t'.lin, t'.start, t'.val) == (t.op, t.result, t.lin, t.start, t.val)
    requires t'.pc == DelNew || t'.pc == Return
    ensures PointsOk(sh', {t'})
  {
    ResultKnown(sh, p, t);
    ResultTransfers(sh, sh', t, t');
  }

  lemma ResultKnown(sh: Shared, p: nat, t: Thread)
    requires ThreadsOk(sh, map[p := t]) && (t.pc == EndOp || t.pc == DelNew)
    ensures ResultOk(sh, t)
  {
    ThreadPoint(sh, p, t);
  }

  lemma EndStepOk(c: Config, sh: Shared, p: nat, t: Thread)
    requires HeapOk(c, sh) && ThreadsOk(sh, map[p := t]) && t.pc == EndOp && p < c.threads
    ensures StepResult(c, sh, p, EndStep(sh, p, t).0, EndStep(sh, p, t).1)
  {
    EndFrames(c, sh, p, t);
    EndBooks(sh, p, t);
    EndPoint(sh, p, t, EndStep(sh, p, t).0, EndStep(sh, p, t).1);
    Gather(c, sh, p, EndStep(sh, p, t).0, EndStep(sh, p, t).1);
  }

  lemma DelOwns(sh: Shared, p: nat, t: Thread, t': Thread)
    requires OwnsOk(sh, p, t) && t.neu.Some? && PhaseOf(t) != Retiring && PhaseOf(t') != Retiring
    requires t'.neu == None && t'.pend == t.pend && t'.list == t.list
    ensures OwnsOk(FreeNode(sh, t.neu.value), p, t')
  {
    var sh' := FreeNode(sh, t.neu.value);
    assert OwnsSlot(sh, p, t, t.neu.value);
    forall y: nat ensures OwnsSlot(sh', p, t', y) {
      assert OwnsSlot(sh, p, t, y);
    }
  }

  lemma DelBook(sh: Shared, sh': Shared, t: Thread)
    requires BookOk(sh, t) && t.pc == DelNew && Bookkept(sh, sh')
    ensures BookOk(sh', t.(pc := Return, neu := None))
  {
    assert t.lin.Some? ==> TookEffect(sh, t, t.lin.value);
    assert t.lin.Some? ==> TookEffect(sh', t.(pc := Return, neu := None), t.lin.value);
  }

  function Deleted(t: Thread): Thread { t.(pc := Return, neu := None) }

  lemma DelEffect(c: Config, sh: Shared, p: nat, t: Thread)
    requires HeapOk(c, sh) && OwnsOk(sh, p, t) && t.neu.Some?
    ensures EffectsOk(c, sh, p, {FreeNode(sh, t.neu.value)})
  {
    assert OwnsSlot(sh, p, t, t.neu.value);
    FreeKeeps(c, sh, p, t.neu.value);
  }

  lemma DelFrame(sh: Shared, p: nat, t: Thread)
    requires FrameOk(sh, p, t) && t.pc == DelNew && t.neu.Some?
    ensures FramesOk(FreeNode(sh, t.neu.value), p, {Deleted(t)})
  {
    DelOwns(sh, p, t, Deleted(t));
  }

  lemma DelFrames(c: Config, sh: Shared, p: nat, t: Thread)
    requires HeapOk(c, sh) && ThreadsOk(sh, map[p := t]) && t.pc == DelNew && t.neu.Some?
    ensures EffectsOk(c, sh, p, {FreeNode(sh, t.neu.value)}) && FramesOk(FreeNode(sh, t.neu.value), p, {Deleted(t)})
  {
    ThreadFrame(sh, p, t);
    DelEffect(c, sh, p, t);
    DelFrame(sh, p, t);
  }

  lemma DelBooks(sh: Shared, p: nat, t: Thread)
    requires ThreadsOk(sh, map[p := t]) && t.pc == DelNew && t.neu.Some?
    ensures BooksOk(FreeNode(sh, t.neu.value), {Deleted(t)})
  {
    ThreadBook(sh, p, t);
    DelBook(sh, FreeNode(sh, t.neu.value), t);
  }

  lemma DelKnown(sh: Shared, p: nat, t: Thread)
    requires ThreadsOk(sh, map[p := t]) && t.pc == DelNew
    ensures t.neu.Some?
  {
    ThreadBook(sh, p, t);
  }

  lemma DelStep(c: Config, sh: Shared, p: nat, t: Thread)
    requires HeapOk(c, sh) && ThreadsOk(sh, map[p := t]) && t.pc == DelNew
    ensures StepResult(c, sh, p, EndStep(sh, p, t).0, EndStep(sh, p, t).1)
  {
    DelKnown(sh, p, t);
    DelBooks(sh, p, t);
    DelFrames(c, sh, p, t);
    EndPoint(sh, p, t, FreeNode(sh, t.neu.value), Deleted(t));
    Gather(c, sh, p, FreeNode(sh, t.neu.value), Deleted(t));
  }
}
