/** A thread's facts survive the steps of other threads. */
module ListStable {
  import opened ListCommon
  import opened ListMachine
  import opened ListInv
  import opened ListHeap

  /** No slot protected for an operation is freed. */
  ghost predicate KeepsShelter(sh: Shared, sh': Shared, since: nat) {
    forall x: nat :: Protected(sh, since, x) ==> St(sh', x) != Free
  }

  lemma ProtectedStays(c: Config, sh: Shared, sh': Shared, p: nat, since: nat, x: nat)
    requires Evolves(c, sh, sh', p) && since <= sh.snips && KeepsShelter(sh, sh', since)
    requires Protected(sh, since, x)
    ensures Protected(sh', since, x) && Dat(sh', x) == Dat(sh, x)
    ensures Nxt(sh, x).mark ==> Nxt(sh', x) == Nxt(sh, x)
    ensures sh'.wins == sh.wins ==> Nxt(sh', x) == Nxt(sh, x)
  {
    assert SlotEvolves(sh, sh', p, x);
  }

  lemma OutSeenStays(c: Config, sh: Shared, sh': Shared, p: nat, start: nat, val: int)
    requires Evolves(c, sh, sh', p)
    ensures OutSeen(sh, start, val) ==> OutSeen(sh', start, val)
    ensures InSeen(sh, start, val) ==> InSeen(sh', start, val)
  {
    if OutSeen(sh, start, val) {
      var k :| start <= k < |sh.hist| && val !in sh.hist[k];
      assert val !in sh'.hist[k];
    }
    if InSeen(sh, start, val) {
      var k :| start <= k < |sh.hist| && val in sh.hist[k];
      assert val in sh'.hist[k];
    }
  }

  lemma SeenNow(c: Config, sh: Shared, start: nat, val: int)
    requires HeapOk(c, sh) && start < |sh.hist|
    ensures val !in Keys(sh) ==> OutSeen(sh, start, val)
    ensures val in Keys(sh) ==> InSeen(sh, start, val)
  {
    var k := |sh.hist| - 1;
    assert sh.hist[k] == Keys(sh);
  }

  /** A linked slot is sheltered whatever happened before: the chain around it is in order now. */
  lemma LinkedIsSheltered(c: Config, sh: Shared, since: nat, start: nat, val: int, r: nat, x: nat)
    requires HeapOk(c, sh) && IsLinked(sh, x) && start < |sh.hist|
    ensures ProtectedOk(sh, since, start, val, r, x)
  {
    if x != TAIL {
      assert SuccessorOk(sh, x);
      if Dat(sh, x) < val && (Nxt(sh, x).idx == TAIL || Dat(sh, Nxt(sh, x).idx) > val) {
        NothingBetween(sh, x, val);
        SeenNow(c, sh, start, val);
      }
      if Dat(sh, x) == val && Nxt(sh, x).mark {
        MarkedMeansAbsent(sh, x);
        SeenNow(c, sh, start, val);
      }
    }
  }

  lemma GoneStaysSheltered(c: Config, sh: Shared, sh': Shared, p: nat, q: nat, since: nat, start: nat, val: int, x: nat)
    requires Evolves(c, sh, sh', p) && ShelterOk(sh, q, since, start, val) && KeepsShelter(sh, sh', since)
    requires Protected(sh', since, x) && !IsLinked(sh', x)
    ensures ProtectedOk(sh', since, start, val, ResOf(sh, q).n, x)
  {
    assert SlotEvolves(sh, sh', p, x);
    assert Protected(sh, since, x);
    assert ProtectedOk(sh, since, start, val, ResOf(sh, q).n, x);
    assert Nxt(sh', x) == Nxt(sh, x) && Dat(sh', x) == Dat(sh, x);
    OutSeenStays(c, sh, sh', p, start, val);
    if x != TAIL {
      ProtectedStays(c, sh, sh', p, since, Nxt(sh, x).idx);
    }
  }

  lemma ShelterStays(c: Config, sh: Shared, sh': Shared, p: nat, q: nat, since: nat, start: nat, val: int)
    requires HeapOk(c, sh) && HeapOk(c, sh') && Evolves(c, sh, sh', p)
    requires ShelterOk(sh, q, since, start, val) && KeepsShelter(sh, sh', since)
    requires ResOf(sh', q) == ResOf(sh, q)
    ensures ShelterOk(sh', q, since, start, val)
  {
    forall x: nat | Protected(sh', since, x) ensures ProtectedOk(sh', since, start, val, ResOf(sh', q).n, x) {
      if IsLinked(sh', x) {
        LinkedIsSheltered(c, sh', since, start, val, ResOf(sh', q).n, x);
      } else {
        GoneStaysSheltered(c, sh, sh', p, q, since, start, val, x);
      }
    }
  }

  /** When a thread stores its reservation it protects exactly the linked slots. */
  lemma ShelterStarts(c: Config, sh: Shared, p: nat, e: nat, start: nat, val: int)
    requires HeapOk(c, sh) && p < c.threads && e <= sh.epoch && start < |sh.hist|
    ensures ShelterOk(SetRes(sh, p, At(e)), p, sh.snips, start, val)
  {
    var sh' := SetRes(sh, p, At(e));
    ReserveKeeps(c, sh, p, At(e));
    forall x: nat | Protected(sh', sh.snips, x) ensures ProtectedOk(sh', sh.snips, start, val, e, x) {
      assert GoneOk(sh, x);
      LinkedIsSheltered(c, sh', sh.snips, start, val, e, x);
    }
  }

  /** What survives from sh to sh' for a thread that itself stands still. */
  ghost predicate Survives(sh: Shared, sh': Shared, t: Thread) {
    && (forall x: nat :: Held(sh, t, x) ==> HeldSurvives(sh, sh', t, x))
    && (Out(sh, t) ==> Out(sh', t))
    && (In(sh, t) ==> In(sh', t))
    && (Quiet(sh', t) && t.seen <= Others(sh, t) ==> Quiet(sh, t))
    && Nxt(sh', HEAD).mark == Nxt(sh, HEAD).mark
  }

  ghost predicate HeldSurvives(sh: Shared, sh': Shared, t: Thread, x: nat) {
    && Held(sh', t, x)
    && Dat(sh', x) == Dat(sh, x)
    && (Nxt(sh, x).mark ==> Nxt(sh', x) == Nxt(sh, x))
    && (Quiet(sh', t) && t.seen <= Others(sh, t) ==> Nxt(sh', x) == Nxt(sh, x))
  }

  lemma FactsSurvive(c: Config, sh: Shared, sh': Shared, p: nat, t: Thread)
    requires HeapOk(c, sh) && HeapOk(c, sh') && Evolves(c, sh, sh', p)
    requires t.since <= sh.snips && KeepsShelter(sh, sh', t.since)
    ensures Survives(sh, sh', t)
  {
    OutSeenStays(c, sh, sh', p, t.start, t.val);
    forall x: nat | Held(sh, t, x) ensures HeldSurvives(sh, sh', t, x) {
      ProtectedStays(c, sh, sh', p, t.since, x);
    }
  }

  lemma PathSurvives(sh: Shared, sh': Shared, t: Thread, a: nat, path: seq<nat>, b: nat)
    requires Survives(sh, sh', t) && MarkedPath(sh, t.since, a, path, b)
    ensures MarkedPath(sh', t.since, a, path, b)
  {
    forall i | 0 <= i < |path| ensures MarkedAt(sh', t.since, path, b, i) {
      assert MarkedAt(sh, t.since, path, b, i);
      assert Held(sh, t, path[i]);
    }
  }

  lemma TraversedSurvives(sh: Shared, sh': Shared, t: Thread, b: nat)
    requires Survives(sh, sh', t) && t.seen <= Others(sh, t) && TraversedOk(sh, t, b)
    ensures TraversedOk(sh', t, b)
  {
    PathSurvives(sh, sh', t, t.ln, t.path, b);
    assert HeldSurvives(sh, sh', t, t.left);
  }

  lemma RightSurvives(sh: Shared, sh': Shared, t: Thread)
    requires Survives(sh, sh', t) && t.seen <= Others(sh, t) && LeftOk(sh, t) && RightOk(sh, t)
    ensures LeftOk(sh', t) && RightOk(sh', t)
    ensures forall x: nat :: LeftPoints(sh, t, x) ==> LeftPoints(sh', t, x)
    ensures Dat(sh', t.right) == Dat(sh, t.right)
  {
    assert HeldSurvives(sh, sh', t, t.left) && HeldSurvives(sh, sh', t, t.right);
  }

  lemma RetiredUpToSurvives(sh: Shared, sh': Shared, t: Thread)
    requires Survives(sh, sh', t) && t.seen <= Others(sh, t) && RetiredUpTo(sh, t)
    ensures RetiredUpTo(sh', t)
  {
    if !t.inRemove {
      RightSurvives(sh, sh', t);
      assert HeldSurvives(sh, sh', t, t.cur);
      PathSurvives(sh, sh', t, Nxt(sh, t.cur).idx, t.pend, t.right);
    } else {
      assert HeldSurvives(sh, sh', t, t.left);
    }
  }

  lemma ContainsFactsSurvive(sh: Shared, sh': Shared, t: Thread)
    requires Survives(sh, sh', t) && PcOk(sh, t) && PhaseOf(t) == Reading
    ensures PcOk(sh', t)
  {
    if t.pc != CHead {
      assert HeldSurvives(sh, sh', t, t.t);
    }
  }

  lemma CasFactsSurvive(sh: Shared, sh': Shared, t: Thread)
    requires Survives(sh, sh', t) && t.seen <= Others(sh, t) && PcOk(sh, t) && t.pc == SCas
    ensures PcOk(sh', t)
  {
    TraversedSurvives(sh, sh', t, t.right);
    RightSurvives(sh, sh', t);
  }

  lemma WalkFactsSurvive(sh: Shared, sh': Shared, t: Thread)
    requires Survives(sh, sh', t) && t.seen <= Others(sh, t) && PcOk(sh, t) && (t.pc == STest || t.pc == SNext)
    ensures PcOk(sh', t)
  {
    assert HeldSurvives(sh, sh', t, t.t);
    if t.pc == SNext || t.t != HEAD || t.tn.mark {
      TraversedSurvives(sh, sh', t, t.t);
    }
    if t.pc == STest {
      assert HeldSurvives(sh, sh', t, t.tn.idx);
    }
  }

  lemma RemoveFactsSurvive(sh: Shared, sh': Shared, t: Thread)
    requires Survives(sh, sh', t) && t.seen <= Others(sh, t) && PcOk(sh, t)
    requires PhaseOf(t) == Removing || PhaseOf(t) == Persisting
    ensures PcOk(sh', t)
  {
    if t.pc == RRead || t.pc == RMark {
      RightSurvives(sh, sh', t);
      assert HeldSurvives(sh, sh', t, t.right);
    } else {
      assert HeldSurvives(sh, sh', t, t.left);
      if PhaseOf(t) == Removing {
        assert HeldSurvives(sh, sh', t, t.right) && HeldSurvives(sh, sh', t, t.ri.idx);
      }
    }
  }

  lemma FoundFactsSurvive(sh: Shared, sh': Shared, t: Thread)
    requires Survives(sh, sh', t) && t.seen <= Others(sh, t) && PcOk(sh, t)
    requires PhaseOf(t) == Deciding || PhaseOf(t) == Adding
    ensures PcOk(sh', t)
  {
    RightSurvives(sh, sh', t);
  }

  lemma RetireFactsSurvive(sh: Shared, sh': Shared, t: Thread)
    requires Survives(sh, sh', t) && t.seen <= Others(sh, t) && PcOk(sh, t)
    requires PhaseOf(t) == Retiring
    ensures PcOk(sh', t)
  {
    if t.pc == SPersist || t.pc == EEpoch {
      if t.pc == EEpoch && t.inRemove {
        assert HeldSurvives(sh, sh', t, t.left);
      } else {
        RightSurvives(sh, sh', t);
        PathSurvives(sh, sh', t, if t.pc == SPersist then t.ln else t.cur, t.pend, t.right);
      }
    } else {
      RetiredUpToSurvives(sh, sh', t);
    }
  }

  lemma PcFactsSurvive(sh: Shared, sh': Shared, t: Thread)
    requires Survives(sh, sh', t) && PcOk(sh, t) && Running(t)
    requires Attempting(t) ==> t.seen <= Others(sh, t)
    ensures PcOk(sh', t)
  {
    match PhaseOf(t)
    case Reading => ContainsFactsSurvive(sh, sh', t);
    case Walking =>
      if t.pc == SCas {
        CasFactsSurvive(sh, sh', t);
      } else {
        WalkFactsSurvive(sh, sh', t);
      }
    case Removing | Persisting => RemoveFactsSurvive(sh, sh', t);
    case Deciding | Adding => FoundFactsSurvive(sh, sh', t);
    case Retiring => RetireFactsSurvive(sh, sh', t);
    case Heading | Ending =>
  }

  /** Slots owned by one thread are not touched by another. */
  lemma OwnsSurvives(c: Config, sh: Shared, sh': Shared, p: nat, q: nat, t: Thread)
    requires Evolves(c, sh, sh', p) && q != p && OwnsOk(sh, q, t)
    ensures OwnsOk(sh', q, t)
  {
    forall x: nat ensures OwnsSlot(sh', q, t, x) {
      assert SlotEvolves(sh, sh', p, x) && OwnsSlot(sh, q, t, x);
    }
  }

  lemma NewNodeSurvives(c: Config, sh: Shared, sh': Shared, p: nat, q: nat, t: Thread)
    requires Evolves(c, sh, sh', p) && q != p && OwnsOk(sh, q, t) && NewNodeOk(sh, t)
    ensures NewNodeOk(sh', t)
  {
    if t.neu.Some? {
      assert OwnsSlot(sh, q, t, t.neu.value);
      assert SlotEvolves(sh, sh', p, t.neu.value);
    }
  }

  lemma CallSurvives(c: Config, sh: Shared, sh': Shared, p: nat, t: Thread)
    requires Evolves(c, sh, sh', p) && CallOk(sh, t)
    ensures CallOk(sh', t)
  {}

  lemma ResultSurvives(c: Config, sh: Shared, sh': Shared, p: nat, t: Thread)
    requires Evolves(c, sh, sh', p) && ResultOk(sh, t)
    ensures ResultOk(sh', t)
  {
    OutSeenStays(c, sh, sh', p, t.start, t.val);
  }

  lemma RunningSurvives(c: Config, sh: Shared, sh': Shared, p: nat, q: nat, t: Thread)
    requires HeapOk(c, sh) && HeapOk(c, sh') && Evolves(c, sh, sh', p) && q != p
    requires ShelterOk(sh, q, t.since, t.start, t.val) && TriesOk(sh, t) && PcOk(sh, t)
    requires Running(t) && KeepsShelter(sh, sh', t.since)
    ensures ShelterOk(sh', q, t.since, t.start, t.val) && PcOk(sh', t)
  {
    ShelterStays(c, sh, sh', p, q, t.since, t.start, t.val);
    FactsSurvive(c, sh, sh', p, t);
    PcFactsSurvive(sh, sh', t);
  }

  lemma ThreadSurvives(c: Config, sh: Shared, sh': Shared, p: nat, q: nat, t: Thread)
    requires HeapOk(c, sh) && HeapOk(c, sh') && Evolves(c, sh, sh', p) && q != p
    requires ThreadOk(sh, q, t)
    requires Running(t) ==> KeepsShelter(sh, sh', t.since)
    ensures ThreadOk(sh', q, t)
  {
    OwnsSurvives(c, sh, sh', p, q, t);
    NewNodeSurvives(c, sh, sh', p, q, t);
    CallSurvives(c, sh, sh', p, t);
    if Running(t) {
      RunningSurvives(c, sh, sh', p, q, t);
    } else if PhaseOf(t) == Ended {
      ResultSurvives(c, sh, sh', p, t);
    }
  }
}
