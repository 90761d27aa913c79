/** Every step of a thread keeps the heap invariant and re-establishes the thread's own facts. */
module ListSteps {
  import opened ListCommon
  import opened ListMachine
  import opened ListInv
  import opened ListHeap
  import opened ListStable

  lemma EvolvesRefl(c: Config, sh: Shared, p: nat)
    requires Sizes(c, sh)
    ensures Evolves(c, sh, sh, p)
  {}

  /** The part of ThreadOk that does not depend on the program point's own facts. */
  ghost predicate FrameOk(sh: Shared, p: nat, t: Thread) {
    && OwnsOk(sh, p, t)
    && (Running(t) ==> ShelterOk(sh, p, t.since, t.start, t.val))
    && (!Running(t) ==> ResOf(sh, p) == Never)
  }

  ghost predicate BookOk(sh: Shared, t: Thread) {
    && TriesOk(sh, t) && CallOk(sh, t)
    && NewNodeMatches(t) && NewNodeOk(sh, t)
  }

  /** The same of a single thread t, folded: only ever applied to {t}. */
  ghost predicate FramesOk(sh: Shared, p: nat, ts: set<Thread>) {
    forall t {:trigger FrameOk(sh, p, t)} :: t in ts ==> FrameOk(sh, p, t)
  }

  ghost predicate BooksOk(sh: Shared, ts: set<Thread>) {
    forall t {:trigger BookOk(sh, t)} :: t in ts ==> BookOk(sh, t)
  }

  /** A thread's program point fits its call. */
  predicate ShapeOk(t: Thread) {
    && (t.pc != Idle ==> PcOfOp(t) && EffectMatches(t))
    && NewNodeMatches(t)
  }

  /** Two views of the same call. */
  predicate SameCall(t: Thread, t': Thread) {
    (t'.op, t'.val, t'.key, t'.start, t'.lin, t'.neu, t'.mine, t'.base)
    == (t.op, t.val, t.key, t.start, t.lin, t.neu, t.mine, t.base)
  }

  /** Moving on within a call, without touching shared memory. */
  lemma BookMoves(sh: Shared, t: Thread, t': Thread)
    requires BookOk(sh, t) && t.pc != Idle && SameCall(t, t') && ShapeOk(t')
    requires t'.tries == t.tries || (t'.tries == t.tries + 1 && Attempting(t) && !Quiet(sh, t))
    requires Attempting(t') ==> (Attempting(t) && t'.tries == t.tries && t'.seen == t.seen) || t'.seen == Others(sh, t)
    requires t'.neu.Some? ==> t.pc != AData && t'.pc != APersistNew && t'.pc != ALink
    ensures BookOk(sh, t')
  {
    assert NewNodeOk(sh, t');
    assert t.lin.Some? ==> TookEffect(sh, t, t.lin.value);
    assert t'.lin.Some? ==> TookEffect(sh, t', t'.lin.value);
  }

  /** Two views of a thread that own the same slots and run the same call. */
  predicate SameFrame(t: Thread, t': Thread) {
    && (t'.neu, t'.pend, t'.list, t'.since, t'.start, t'.val) == (t.neu, t.pend, t.list, t.since, t.start, t.val)
    && Running(t') == Running(t)
    && (PhaseOf(t') == Retiring || t'.pend == [])
  }

  lemma FrameMoves(sh: Shared, p: nat, t: Thread, t': Thread)
    requires FrameOk(sh, p, t) && SameFrame(t, t')
    ensures FrameOk(sh, p, t')
  {
    OwnsMoves(sh, sh, p, t, t');
  }

  // Calling an operation.

  lemma CallStep(c: Config, sh: Shared, p: nat, t: Thread, op: Op, val: int)
    requires Sizes(c, sh) && BookOk(sh, t) && PcOk(sh, t) && val > INT_MIN
    requires t.pc == Idle || t.pc == StartRead
    ensures var (sh', t') := StartStep(sh, p, t, op, val);
            sh' == sh && BookOk(sh, t') && PcOk(sh, t') && PhaseOf(t') == Starting
            && t'.neu == t.neu && t'.pend == t.pend && t'.list == t.list
  {}

  lemma ReserveBook(sh: Shared, p: nat, t: Thread, op: Op, val: int)
    requires BookOk(sh, t) && t.pc == StartStore
    ensures var (sh', t') := StartStep(sh, p, t, op, val);
            BookOk(sh', t') && PcOk(sh', t') && Running(t') && t'.since == sh.snips
            && t'.start == t.start && t'.val == t.val && t'.neu == t.neu && t'.pend == t.pend && t'.list == t.list
            && PhaseOf(t') != Retiring && t.start < |sh.hist|
  {}

  lemma OwnsMoves(sh: Shared, sh': Shared, p: nat, t: Thread, t': Thread)
    requires OwnsOk(sh, p, t) && sh'.slot == sh.slot && sh'.epoch >= sh.epoch
    requires t'.neu == t.neu && t'.pend == t.pend && t'.list == t.list
    requires PhaseOf(t') == Retiring || t'.pend == []
    ensures OwnsOk(sh', p, t')
  {
    forall x: nat ensures OwnsSlot(sh', p, t', x) {
      assert OwnsSlot(sh, p, t, x);
    }
  }

  lemma ReserveStep(c: Config, sh: Shared, p: nat, t: Thread, op: Op, val: int)
    requires HeapOk(c, sh) && p < c.threads && ThreadOk(sh, p, t) && t.pc == StartStore
    ensures var (sh', t') := StartStep(sh, p, t, op, val);
            HeapOk(c, sh') && Evolves(c, sh, sh', p) && ThreadOk(sh', p, t')
  {
    var (sh', t') := StartStep(sh, p, t, op, val);
    ReserveKeeps(c, sh, p, At(t.e));
    ReserveBook(sh, p, t, op, val);
    ShelterStarts(c, sh, p, t.e, t.start, t.val);
    OwnsMoves(sh, sh', p, t, t');
  }

  // Facts about the slots a thread holds.

  lemma ShelteredNext(sh: Shared, p: nat, t: Thread, x: nat)
    requires ShelterOk(sh, p, t.since, t.start, t.val) && Held(sh, t, x) && x != TAIL
    ensures Held(sh, t, Nxt(sh, x).idx) && Lt(sh, x, Nxt(sh, x).idx)
    ensures Dat(sh, x) < t.val && (Nxt(sh, x).idx == TAIL || Dat(sh, Nxt(sh, x).idx) > t.val) ==> Out(sh, t)
    ensures Dat(sh, x) == t.val && Nxt(sh, x).mark ==> Out(sh, t)
  {
    assert ProtectedOk(sh, t.since, t.start, t.val, ResOf(sh, p).n, x);
  }

  /** An unmarked slot still in view is linked now. */
  lemma UnmarkedIsLinked(c: Config, sh: Shared, since: nat, x: nat)
    requires LedgerOk(c, sh) && Protected(sh, since, x) && !Nxt(sh, x).mark
    ensures IsLinked(sh, x)
  {
    assert GoneOk(sh, x);
  }

  /** So if it holds the key, the key is in the set now. */
  lemma UnmarkedIsSeen(c: Config, sh: Shared, t: Thread, x: nat)
    requires LedgerOk(c, sh) && Held(sh, t, x) && !Nxt(sh, x).mark && Dat(sh, x) == t.val
    requires x != HEAD && x != TAIL && t.start < |sh.hist| && sh.hist[|sh.hist| - 1] == Keys(sh)
    ensures In(sh, t)
  {
    UnmarkedIsLinked(c, sh, t.since, x);
    MemberMeansPresent(sh, x);
    var k := |sh.hist| - 1;
    assert t.start <= k && t.val in sh.hist[k];
  }

  // contains.

  lemma ReadingBook(sh: Shared, t: Thread)
    requires BookOk(sh, t) && PhaseOf(t) == Reading
    ensures BookOk(sh, ContainsStep(sh, t))
  {
    ReadingShape(sh, t);
    BookMoves(sh, t, ContainsStep(sh, t));
  }

  lemma ReadingShape(sh: Shared, t: Thread)
    requires ShapeOk(t) && PhaseOf(t) == Reading
    ensures var t' := ContainsStep(sh, t); SameCall(t, t') && ShapeOk(t') && t'.tries == t.tries && !Attempting(t')
  {}

  lemma ReadingMoves(c: Config, sh: Shared, p: nat, t: Thread)
    requires ChainOk(sh) && ReadingOk(sh, t) && (t.pc == CHead || t.pc == CNext) && t.val > INT_MIN
    requires ShelterOk(sh, p, t.since, t.start, t.val)
    ensures ReadingOk(sh, ContainsStep(sh, t))
  {
    ShelteredNext(sh, p, t, if t.pc == CHead then HEAD else t.t);
  }

  lemma ReadingLooks(c: Config, sh: Shared, p: nat, t: Thread)
    requires HeapOk(c, sh) && ReadingOk(sh, t) && (t.pc == CTest || t.pc == CMark) && t.val > INT_MIN
    requires t.start < |sh.hist|
    ensures var t' := ContainsStep(sh, t);
            if t'.pc == EndOp then t.pc == CTest && t.t == TAIL && Out(sh, t) else ReadingOk(sh, t')
  {
    if t.pc == CMark && !Nxt(sh, t.t).mark && Dat(sh, t.t) == t.val {
      UnmarkedIsSeen(c, sh, t, t.t);
    }
  }

  lemma ReadingEnds(sh: Shared, t: Thread, result: bool)
    requires t.op.Contains? && (if result then In(sh, t) else Out(sh, t))
    ensures ResultOk(sh, Finish(t, result))
  {}

  lemma ReadingMovesPoint(c: Config, sh: Shared, p: nat, t: Thread)
    requires ChainOk(sh) && ReadingOk(sh, t) && (t.pc == CHead || t.pc == CNext) && t.val > INT_MIN
    requires ShelterOk(sh, p, t.since, t.start, t.val)
    ensures PcOk(sh, ContainsStep(sh, t))
  {
    ReadingMoves(c, sh, p, t);
  }

  lemma ReadingLooksPoint(c: Config, sh: Shared, t: Thread)
    requires HeapOk(c, sh) && ReadingOk(sh, t) && (t.pc == CTest || t.pc == CMark) && t.val > INT_MIN
    requires t.start < |sh.hist| && t.op.Contains?
    ensures PcOk(sh, ContainsStep(sh, t))
  {
    ReadingLooks(c, sh, 0, t);
    if t.pc == CTest && t.t == TAIL {
      ReadingEnds(sh, t, false);
    } else {
      ReadingOnPoint(sh, ContainsStep(sh, t));
    }
  }

  lemma ReadingOnPoint(sh: Shared, t: Thread)
    requires ReadingOk(sh, t) && PhaseOf(t) == Reading
    ensures PcOk(sh, t)
  {}

  lemma ReadingPoint(c: Config, sh: Shared, p: nat, t: Thread)
    requires HeapOk(c, sh) && ReadingOk(sh, t) && PhaseOf(t) == Reading && t.val > INT_MIN && t.op.Contains?
    requires ShelterOk(sh, p, t.since, t.start, t.val)
    ensures PcOk(sh, ContainsStep(sh, t))
  {
    if t.pc.CHead? || t.pc.CNext? {
      ReadingMovesPoint(c, sh, p, t);
    } else if t.pc.CTest? || t.pc.CMark? {
      ReadingLooksPoint(c, sh, t);
    } else {
      ReadingEnds(sh, t, Dat(sh, t.t) == t.val);
    }
  }

  // p_list_search, the steps that only read.

  lemma HeadBook(sh: Shared, p: nat, t: Thread)
    requires BookOk(sh, t) && t.pc == SHead
    ensures BookOk(sh, SearchStep(sh, p, t).1) && SearchStep(sh, p, t).0 == sh
  {
    BookMoves(sh, t, SearchStep(sh, p, t).1);
  }

  lemma NextBook(sh: Shared, p: nat, t: Thread)
    requires BookOk(sh, t) && t.pc == SNext
    ensures BookOk(sh, SearchStep(sh, p, t).1) && SearchStep(sh, p, t).0 == sh
  {
    BookMoves(sh, t, SearchStep(sh, p, t).1);
  }

  function Stepped(t: Thread): Thread {
    if t.tn.mark then t.(path := t.path + [t.t]) else t.(left := t.t, ln := t.tn.idx, path := [])
  }

  predicate SameAttempt(t: Thread, t': Thread) {
    SameCall(t, t') && (t'.caller, t'.tries, t'.seen) == (t.caller, t.tries, t.seen)
  }

  lemma DecideShape(t: Thread, right: nat)
    ensures SameAttempt(t, Decide(t, right)) && (Decide(t, right).pc == SCheck || Decide(t, right).pc == SCas)
  {}

  lemma AdvanceShape(t: Thread)
    ensures SameAttempt(t, Advance(t))
    ensures Advance(t).pc == SNext || Advance(t).pc == SCheck || Advance(t).pc == SCas
  {
    var t2 := Stepped(t).(t := t.tn.idx);
    assert SameAttempt(t, t2);
    DecideShape(t2, TAIL);
  }

  lemma WalkShape(t: Thread, t': Thread)
    requires ShapeOk(t) && t.pc == STest && SameAttempt(t, t')
    requires t'.pc == SNext || t'.pc == SCheck || t'.pc == SCas
    ensures ShapeOk(t') && Attempting(t')
  {}

  lemma TestBook(sh: Shared, p: nat, t: Thread)
    requires BookOk(sh, t) && t.pc == STest
    ensures BookOk(sh, SearchStep(sh, p, t).1) && SearchStep(sh, p, t).0 == sh
  {
    var t' := SearchStep(sh, p, t).1;
    AdvanceShape(t);
    DecideShape(t, t.t);
    WalkShape(t, t');
    BookMoves(sh, t, t');
  }

  lemma HeadPoint(c: Config, sh: Shared, p: nat, t: Thread)
    requires ChainOk(sh) && t.pc == SHead && t.val > INT_MIN && t.mine <= sh.wins
    requires ShelterOk(sh, p, t.since, t.start, t.val)
    ensures PcOk(sh, SearchStep(sh, p, t).1)
  {
    ShelteredNext(sh, p, t, HEAD);
  }

  lemma PathGrows(sh: Shared, since: nat, a: nat, path: seq<nat>, x: nat, b: nat)
    requires MarkedPath(sh, since, a, path, x) && Protected(sh, since, x) && Nxt(sh, x) == Link(b, true)
    ensures MarkedPath(sh, since, a, path + [x], b)
  {
    var path' := path + [x];
    forall i | 0 <= i < |path'| ensures MarkedAt(sh, since, path', b, i) {
      if i < |path| {
        assert MarkedAt(sh, since, path, x, i);
      }
    }
  }

  /** The facts after one iteration of the traversal, before the end test. */
  lemma AdvanceFacts(sh: Shared, p: nat, t: Thread)
    requires PcOk(sh, t) && t.pc == STest && ShelterOk(sh, p, t.since, t.start, t.val)
    requires t.tn.mark || Dat(sh, t.t) < t.val
    ensures TraversedOk(sh, Stepped(t), t.tn.idx) && Held(sh, t, t.tn.idx)
    ensures t.tn.idx == TAIL || Dat(sh, t.tn.idx) > t.val ==> Out(sh, t)
  {
    ShelteredNext(sh, p, t, t.t);
    if t.tn.mark {
      PathGrows(sh, t.since, t.ln, t.path, t.t, t.tn.idx);
    }
  }

  lemma DecidePoint(sh: Shared, t: Thread, right: nat)
    requires TraversedOk(sh, t, right) && Held(sh, t, right)
    requires right == TAIL || Dat(sh, right) >= t.val
    requires right == TAIL || Dat(sh, right) > t.val ==> Out(sh, t)
    requires Quiet(sh, t) ==> !Nxt(sh, right).mark
    ensures PcOk(sh, Decide(t, right))
  {
    var t' := Decide(t, right);
    assert RightOk(sh, t') && LeftOk(sh, t');
    assert TraversedOk(sh, t', right);
  }

  /** The thread after the body of the inner loop. */
  function Moved(t: Thread): Thread { Stepped(t).(t := t.tn.idx) }

  lemma MovedFacts(sh: Shared, p: nat, t: Thread)
    requires PcOk(sh, t) && t.pc == STest && ShelterOk(sh, p, t.since, t.start, t.val)
    requires t.tn.mark || Dat(sh, t.t) < t.val
    ensures var t1 := Moved(t);
            && TraversedOk(sh, t1, t1.t) && Held(sh, t1, t1.t)
            && (t1.t == TAIL || Dat(sh, t1.t) > t.val ==> Out(sh, t1))
  {
    AdvanceFacts(sh, p, t);
  }

  lemma AdvancePoint(sh: Shared, p: nat, t: Thread)
    requires PcOk(sh, t) && t.pc == STest && ShelterOk(sh, p, t.since, t.start, t.val)
    requires (t.tn.mark || Dat(sh, t.t) < t.val) && !Nxt(sh, TAIL).mark
    ensures PcOk(sh, Advance(t))
  {
    MovedFacts(sh, p, t);
    if t.tn.idx == TAIL {
      DecidePoint(sh, Moved(t), TAIL);
    } else {
      WalkOn(sh, Moved(t), Advance(t));
    }
  }

  lemma WalkOn(sh: Shared, t: Thread, t': Thread)
    requires TraversedOk(sh, t, t.t) && Held(sh, t, t.t) && t.t != TAIL
    requires Dat(sh, t.t) > t.val ==> Out(sh, t)
    requires t' == t.(pc := SNext)
    ensures PcOk(sh, t')
  {
    assert TraversedOk(sh, t', t.t) && CurrentOk(sh, t');
  }

  lemma StopPoint(sh: Shared, t: Thread)
    requires PcOk(sh, t) && t.pc == STest && !t.tn.mark && Dat(sh, t.t) >= t.val
    requires Dat(sh, HEAD) < t.val
    ensures PcOk(sh, Decide(t, t.t))
  {
    DecidePoint(sh, t, t.t);
  }

  lemma TestPoint(c: Config, sh: Shared, p: nat, t: Thread)
    requires ChainOk(sh) && PcOk(sh, t) && t.pc == STest && t.key == t.val && t.val > INT_MIN
    requires ShelterOk(sh, p, t.since, t.start, t.val)
    ensures PcOk(sh, SearchStep(sh, p, t).1)
  {
    if t.tn.mark || Dat(sh, t.t) < t.key {
      AdvancePoint(sh, p, t);
    } else {
      StopPoint(sh, t);
    }
  }

  lemma NextPoint(sh: Shared, p: nat, t: Thread)
    requires PcOk(sh, t) && t.pc == SNext
    requires ShelterOk(sh, p, t.since, t.start, t.val)
    ensures PcOk(sh, SearchStep(sh, p, t).1)
  {
    ShelteredNext(sh, p, t, t.t);
    assert TraversedOk(sh, SearchStep(sh, p, t).1, t.t);
  }

  lemma AgainBook(sh: Shared, t: Thread)
    requires BookOk(sh, t) && (t.pc == SCheck || t.pc == SRecheck) && !Quiet(sh, t)
    ensures BookOk(sh, Again(t))
  {
    BookMoves(sh, t, Again(t));
  }

  lemma CheckedBook(sh: Shared, t: Thread)
    requires BookOk(sh, t) && (t.pc == SCheck || t.pc == SRecheck)
    ensures BookOk(sh, t.(pc := Found))
  {
    BookMoves(sh, t, t.(pc := Found));
  }

  lemma CheckBook(sh: Shared, p: nat, t: Thread)
    requires BookOk(sh, t) && RightOk(sh, t) && (t.pc == SCheck || t.pc == SRecheck)
    ensures BookOk(sh, SearchStep(sh, p, t).1) && SearchStep(sh, p, t).0 == sh
  {
    if Nxt(sh, t.right).mark {
      AgainBook(sh, t);
    } else {
      CheckedBook(sh, t);
    }
  }

  lemma CheckPoint(c: Config, sh: Shared, p: nat, t: Thread)
    requires HeapOk(c, sh) && PcOk(sh, t) && (t.pc == SCheck || t.pc == SRecheck)
    requires t.val > INT_MIN && t.start < |sh.hist|
    ensures PcOk(sh, SearchStep(sh, p, t).1)
  {
    if Nxt(sh, t.right).mark {
      AgainPoint(sh, t);
    } else {
      CheckFinds(c, sh, t);
    }
  }

  lemma AgainPoint(sh: Shared, t: Thread)
    ensures PcOk(sh, Again(t))
  {}

  lemma CheckFinds(c: Config, sh: Shared, t: Thread)
    requires HeapOk(c, sh) && SnippedOk(sh, t) && t.val > INT_MIN && t.start < |sh.hist| && !Nxt(sh, t.right).mark
    ensures FoundOk(sh, t.(pc := Found))
  {
    if t.right != TAIL && Dat(sh, t.right) == t.val {
      UnmarkedIsSeen(c, sh, t, t.right);
    }
  }

  /** The same nodes in view. */
  predicate SameView(t: Thread, t': Thread) {
    (t'.val, t'.start, t'.since, t'.seen, t'.mine, t'.left, t'.right)
    == (t.val, t.start, t.since, t.seen, t.mine, t.left, t.right)
  }

  lemma FoundTransfers(sh: Shared, t: Thread, t': Thread)
    requires FoundOk(sh, t) && SameView(t, t')
    ensures FoundOk(sh, t')
  {}

  lemma FoundGoesOn(sh: Shared, t: Thread, t': Thread)
    requires FoundOk(sh, t) && t' == t.(pc := t'.pc) && (t'.pc == AAlloc || t'.pc == ANext || t'.pc == RRead)
    requires (t'.pc == RRead) == (t.right != TAIL && Dat(sh, t.right) == t.val)
    ensures PcOk(sh, t')
  {
    FoundTransfers(sh, t, t');
  }

  lemma FoundEnds(sh: Shared, t: Thread, result: bool)
    requires FoundOk(sh, t) && ShapeOk(t) && t.pc == Found
    requires result == (t.caller == RemClean)
    requires t.right != TAIL && Dat(sh, t.right) == t.val ==> t.caller != RemFind
    requires t.right == TAIL || Dat(sh, t.right) != t.val ==> t.caller != AddFirst && t.caller != AddRetry
    ensures ResultOk(sh, Finish(t, result))
  {
    assert t.op.Contains? == false;
    assert t.lin.Some? <==> t.caller == RemClean;
    assert Out(sh, Finish(t, result)) == Out(sh, t) && In(sh, Finish(t, result)) == In(sh, t);
  }

  /** What the caller of p_list_search does with the result. */
  lemma FoundCases(sh: Shared, p: nat, t: Thread)
    requires t.pc == Found && (t.op.Add? <==> t.caller == AddFirst || t.caller == AddRetry)
    ensures var t' := SearchStep(sh, p, t).1; var present := t.right != TAIL && Dat(sh, t.right) == t.val;
            || (t' == Finish(t, t.caller == RemClean) && (t.caller == RemClean || present == t.op.Add?))
            || (t' == t.(pc := if present then RRead else if t.caller == AddFirst then AAlloc else ANext)
                && t.caller != RemClean && present == (t.caller == RemFind))
  {}

  lemma FoundPoint(sh: Shared, p: nat, t: Thread)
    requires FoundOk(sh, t) && ShapeOk(t) && t.pc == Found
    ensures PcOk(sh, SearchStep(sh, p, t).1)
  {
    FoundCases(sh, p, t);
    var t' := SearchStep(sh, p, t).1;
    if t'.pc == EndOp {
      FoundEnds(sh, t, t'.result);
    } else {
      FoundGoesOn(sh, t, t');
    }
  }

  lemma FinishBook(sh: Shared, t: Thread, result: bool)
    requires BookOk(sh, t) && t.pc == Found
    ensures BookOk(sh, Finish(t, result))
  {
    BookMoves(sh, t, Finish(t, result));
  }

  lemma GoOnBook(sh: Shared, t: Thread, pc: PC)
    requires BookOk(sh, t) && t.pc == Found
    requires (pc == AAlloc && t.caller == AddFirst) || (pc == ANext && t.caller == AddRetry) || (pc == RRead && t.caller == RemFind)
    ensures BookOk(sh, t.(pc := pc))
  {
    BookMoves(sh, t, t.(pc := pc));
  }

  lemma FoundBook(sh: Shared, p: nat, t: Thread)
    requires BookOk(sh, t) && t.pc == Found
    ensures BookOk(sh, SearchStep(sh, p, t).1) && SearchStep(sh, p, t).0 == sh
  {
    FoundCases(sh, p, t);
    var t' := SearchStep(sh, p, t).1;
    if t'.pc == EndOp {
      FinishBook(sh, t, t'.result);
    } else {
      GoOnBook(sh, t, t'.pc);
    }
  }
}
