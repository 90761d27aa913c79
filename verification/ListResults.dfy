/** What the invariant of the list machine says about every steady run: the shape of the list, where every slot
    is, and that no slot is reused under a running operation. */
module ListResults {
  import opened ListCommon
  import opened ListMachine
  import opened ListInv
  import opened ListHeap
  import opened ListStable
  import opened ListSafety

  // The list as a path.

  ghost function Higher(sh: Shared, x: nat): set<nat> {
    set y: nat | y < |sh.slot| && IsLinked(sh, y) && Lt(sh, x, y)
  }

  lemma HigherShrinks(sh: Shared, x: nat)
    requires ChainOk(sh) && IsLinked(sh, x) && x != TAIL
    ensures IsLinked(sh, Nxt(sh, x).idx) && Higher(sh, Nxt(sh, x).idx) < Higher(sh, x)
  {
    assert SuccessorOk(sh, x);
    var y := Nxt(sh, x).idx;
    assert y in Higher(sh, x) && y !in Higher(sh, y);
  }

  /** The nodes met by following `next` from x to the tail. */
  ghost function Chain(sh: Shared, x: nat): seq<nat>
    requires ChainOk(sh) && IsLinked(sh, x)
    decreases Higher(sh, x)
  {
    if x == TAIL then [TAIL] else
      HigherShrinks(sh, x);
      [x] + Chain(sh, Nxt(sh, x).idx)
  }

  ghost predicate IsPath(sh: Shared, path: seq<nat>) {
    forall i :: 0 <= i < |path| - 1 ==> path[i] != TAIL && path[i + 1] == Nxt(sh, path[i]).idx
  }

  ghost predicate IsSorted(sh: Shared, path: seq<nat>) {
    forall i, j :: 0 <= i < j < |path| ==> Lt(sh, path[i], path[j])
  }

  lemma {:induction false} ChainFollowsLinks(sh: Shared, x: nat)
    requires ChainOk(sh) && IsLinked(sh, x)
    ensures var path := Chain(sh, x);
            |path| > 0 && path[0] == x && path[|path| - 1] == TAIL && IsPath(sh, path) && IsSorted(sh, path)
    ensures forall y: nat :: y in Chain(sh, x) <==> IsLinked(sh, y) && (y == x || Lt(sh, x, y))
    decreases Higher(sh, x)
  {
    if x != TAIL {
      HigherShrinks(sh, x);
      var z := Nxt(sh, x).idx;
      var rest := Chain(sh, z);
      ChainFollowsLinks(sh, z);
      assert SuccessorOk(sh, x);
      assert Chain(sh, x) == [x] + rest;
      forall y: nat ensures y in Chain(sh, x) <==> IsLinked(sh, y) && (y == x || Lt(sh, x, y)) {
        assert y in Chain(sh, x) <==> y == x || y in rest;
        if IsLinked(sh, y) && Lt(sh, x, y) {
          assert Adjacent(sh, x, y);
        }
      }
      forall j | 0 <= j < |rest| ensures Lt(sh, x, rest[j]) {
        assert rest[j] in rest;
      }
    } else {
      assert forall y: nat :: !Lt(sh, TAIL, y);
    }
  }

  /** The path from head to tail, in strictly increasing key order. It holds every node ever published that
      is not marked, and the keys of its unmarked inner nodes are the key set. */
  ghost predicate IsWholeList(sh: Shared, path: seq<nat>) {
    && |path| >= 2 && path[0] == HEAD && path[|path| - 1] == TAIL
    && IsPath(sh, path) && IsSorted(sh, path)
    && (forall x: nat :: x in path <==> IsLinked(sh, x))
    && (forall x: nat :: Published(sh, x) && !Nxt(sh, x).mark ==> x in path)
    && Keys(sh) == (set i | 0 < i < |path| - 1 && !Nxt(sh, path[i]).mark :: Dat(sh, path[i]))
  }

  /** In every state of every steady run, following `next` from the head leads through the whole list. */
  lemma ChainIsPath(c: Config, run: seq<State>, n: nat)
    requires SteadyRun(c, run) && n < |run|
    ensures exists path: seq<nat> :: IsWholeList(run[n].sh, path)
  {
    RunsKeepInv(c, run, n);
    HeadChainIsPath(c, run[n].sh);
  }

  lemma HeadChainIsPath(c: Config, sh: Shared)
    requires ChainOk(sh) && LedgerOk(c, sh)
    ensures IsWholeList(sh, Chain(sh, HEAD))
  {
    var path := Chain(sh, HEAD);
    ChainFollowsLinks(sh, HEAD);
    assert forall x: nat :: IsLinked(sh, x) && x != HEAD ==> Lt(sh, HEAD, x);
    forall x: nat | Published(sh, x) && !Nxt(sh, x).mark ensures IsLinked(sh, x) {
      assert GoneOk(sh, x);
    }
    KeysOfPath(sh, path);
  }

  lemma KeysOfPath(sh: Shared, path: seq<nat>)
    requires |path| >= 2 && path[0] == HEAD && path[|path| - 1] == TAIL
    requires IsSorted(sh, path) && forall x: nat :: x in path <==> IsLinked(sh, x)
    ensures Keys(sh) == set i | 0 < i < |path| - 1 && !Nxt(sh, path[i]).mark :: Dat(sh, path[i])
  {
    var ks := set i | 0 < i < |path| - 1 && !Nxt(sh, path[i]).mark :: Dat(sh, path[i]);
    forall d | d in Keys(sh) ensures d in ks {
      var x :| 0 <= x < |sh.slot| && IsMember(sh, x) && Dat(sh, x) == d;
      assert x in path;
    }
    forall d | d in ks ensures d in Keys(sh) {
      var i :| 0 < i < |path| - 1 && !Nxt(sh, path[i]).mark && Dat(sh, path[i]) == d;
      assert path[i] in path && Lt(sh, path[0], path[i]) && Lt(sh, path[i], path[|path| - 1]);
      assert IsMember(sh, path[i]);
    }
  }

  // Marked nodes.

  /** The steps that write a link. */
  predicate WritesLink(t: Thread) {
    t.pc == SCas || t.pc == ANext || t.pc == ALink || t.pc == RMark || t.pc == RSnip
  }

  lemma SearchKeepsLinks(sh: Shared, p: nat, t: Thread)
    requires t.pc != SCas
    ensures SearchStep(sh, p, t).0.next == sh.next
  {}

  lemma UpdateKeepsLinks(sh: Shared, p: nat, t: Thread, y: nat)
    ensures t.pc != ANext && t.pc != ALink ==> AddStep(sh, p, t, y).0.next == sh.next
    ensures t.pc != RMark && t.pc != RSnip ==> RemoveStep(sh, p, t).0.next == sh.next
  {}

  lemma RetireKeepsLinks(c: Config, sh: Shared, p: nat, t: Thread)
    ensures RetireStep(c, sh, p, t).0.next == sh.next
  {}

  lemma EdgeKeepsLinks(sh: Shared, p: nat, t: Thread, op: Op, val: int)
    ensures StartStep(sh, p, t, op, val).0.next == sh.next && EndStep(sh, p, t).0.next == sh.next
  {}

  lemma OthersKeepLinks(c: Config, sh: Shared, p: nat, t: Thread, op: Op, val: int, y: nat)
    requires !WritesLink(t)
    ensures Move(c, sh, p, t, op, val, y).0.next == sh.next
  {
    match RoutineOf(t.pc)
    case Contain =>
    case Search => SearchKeepsLinks(sh, p, t);
    case Insert => UpdateKeepsLinks(sh, p, t, y);
    case Delete => UpdateKeepsLinks(sh, p, t, y);
    case Retire => RetireKeepsLinks(c, sh, p, t);
    case Start => EdgeKeepsLinks(sh, p, t, op, val);
    case End => EdgeKeepsLinks(sh, p, t, op, val);
  }

  /** A link is written only by the thread that owns the node, or in a node in view. */
  lemma WritersKeepFree(sh: Shared, p: nat, t: Thread, y: nat, x: nat)
    requires WritesLink(t) && PcOk(sh, t) && St(sh, x) == Free && |sh.slot| == |sh.next|
    requires t.neu.Some? ==> OwnsSlot(sh, p, t, t.neu.value)
    ensures t.pc == SCas ==> Nxt(SearchStep(sh, p, t).0, x) == Nxt(sh, x)
    ensures t.pc == ANext || t.pc == ALink ==> t.neu.Some? ==> Nxt(AddStep(sh, p, t, y).0, x) == Nxt(sh, x)
    ensures t.pc == RMark || t.pc == RSnip ==> Nxt(RemoveStep(sh, p, t).0, x) == Nxt(sh, x)
  {
    if t.pc.SCas? {
      SnipEffect(sh, p, t.left, t.right, t.path, x);
    } else if t.pc.RSnip? {
      SnipEffect(sh, p, t.left, t.ri.idx, [t.right], x);
    }
  }

  lemma WriterFacts(c: Config, s: State, p: nat)
    requires Inv(c, s) && p < c.threads
    ensures PcOk(s.sh, s.th[p]) && |s.sh.slot| == |s.sh.next|
    ensures s.th[p].neu.Some? ==> OwnsSlot(s.sh, p, s.th[p], s.th[p].neu.value) && NewNodeMatches(s.th[p])
  {
    FactsOf(c, s, p);
  }

  lemma FreeSlotsStay(c: Config, s: State, p: nat, op: Op, val: int, y: nat, x: nat)
    requires Inv(c, s) && p < c.threads && St(s.sh, x) == Free
    ensures Nxt(Move(c, s.sh, p, s.th[p], op, val, y).0, x) == Nxt(s.sh, x)
  {
    var sh, t := s.sh, s.th[p];
    if WritesLink(t) {
      WriterFacts(c, s, p);
      WritersKeepFree(sh, p, t, y, x);
    } else {
      OthersKeepLinks(c, sh, p, t, op, val, y);
    }
  }

  lemma StepFreezesMarked(c: Config, s: State, s': State, x: nat)
    requires SoundStep(c, {s}, s') && Nxt(s.sh, x).mark
    requires Published(s.sh, x) || St(s.sh, x) == Free
    ensures Nxt(s'.sh, x) == Nxt(s.sh, x)
    ensures Published(s'.sh, x) || St(s'.sh, x) == Free || St(s'.sh, x).Private?
  {
    assert SoundAt(c, s, s');
    if y :| WriteBack(s, y, s') {
    } else {
      var p, op, val, y :| SteadyStepBy(c, s, p, op, val, y, s');
      StepKeepsInv(c, s, p, op, val, y, s');
      assert SlotEvolves(s.sh, s'.sh, p, x);
      if St(s.sh, x) == Free {
        FreeSlotsStay(c, s, p, op, val, y, x);
      }
    }
  }

  /** The link of a marked node never changes again, until the slot is handed out for a new node. */
  lemma {:induction false} MarkedIsFrozen(c: Config, run: seq<State>, n: nat, m: nat, x: nat)
    requires SteadyRun(c, run) && n <= m < |run|
    requires Published(run[n].sh, x) && Nxt(run[n].sh, x).mark
    requires forall k :: n <= k <= m ==> !St(run[k].sh, x).Private?
    ensures Nxt(run[m].sh, x) == Nxt(run[n].sh, x)
    ensures Published(run[m].sh, x) || St(run[m].sh, x) == Free
    decreases m
  {
    if n < m {
      MarkedIsFrozen(c, run, n, m - 1, x);
      StepOfRun(c, run, m);
      StepFreezesMarked(c, run[m - 1], run[m], x);
    }
  }

  /** A step that takes nodes off the list takes off marked nodes only. */
  lemma OnlyMarkedLeave(c: Config, run: seq<State>, n: nat, x: nat)
    requires SteadyRun(c, run) && 0 < n < |run|
    requires IsLinked(run[n - 1].sh, x) && !IsLinked(run[n].sh, x)
    ensures Nxt(run[n - 1].sh, x).mark && Nxt(run[n].sh, x) == Nxt(run[n - 1].sh, x)
  {
    StepOfRun(c, run, n);
    StepUnlinksMarked(c, run[n - 1], run[n], x);
  }

  lemma StepUnlinksMarked(c: Config, s: State, s': State, x: nat)
    requires SoundStep(c, {s}, s')
    requires IsLinked(s.sh, x) && !IsLinked(s'.sh, x)
    ensures Nxt(s.sh, x).mark && Nxt(s'.sh, x) == Nxt(s.sh, x)
  {
    assert SoundAt(c, s, s');
    if y :| WriteBack(s, y, s') {
    } else {
      var p, op, val, y :| SteadyStepBy(c, s, p, op, val, y, s');
      StepKeepsInv(c, s, p, op, val, y, s');
      assert SlotEvolves(s.sh, s'.sh, p, x) && GoneOk(s'.sh, x);
    }
  }

  // Where every slot is.

  datatype Place = InBitmap | NewNodeOf(thread: nat) | OnList | ToRetire(thread: nat, i: nat) | RetiredBy(thread: nat, i: nat)

  ghost predicate IsAt(s: State, x: nat, place: Place)
    requires ChainOk(s.sh)
  {
    match place
    case InBitmap => Bit(s.sh, x)
    case NewNodeOf(p) => p < |s.th| && s.th[p].neu == Some(x)
    case OnList => x in Chain(s.sh, HEAD)
    case ToRetire(p, i) => p < |s.th| && i < |s.th[p].pend| && s.th[p].pend[i] == x
    case RetiredBy(p, i) => p < |s.th| && i < |s.th[p].list| && s.th[p].list[i].idx == x
  }

  predicate OwnerIn(c: Config, st: Slot) {
    st.Private? || st.Unlinked? || st.Retired? ==> st.owner < c.threads
  }

  /** The ledger mentions existing threads only. */
  ghost predicate OwnersOk(c: Config, sh: Shared) {
    forall x: nat :: OwnerIn(c, St(sh, x))
  }

  lemma StepKeepsOwners(c: Config, s: State, s': State)
    requires SoundStep(c, {s}, s') && OwnersOk(c, s.sh)
    ensures OwnersOk(c, s'.sh)
  {
    assert SoundAt(c, s, s');
    if y :| WriteBack(s, y, s') {
      assert forall x: nat :: St(s'.sh, x) == St(s.sh, x);
    } else {
      var p, op, val, y :| SteadyStepBy(c, s, p, op, val, y, s');
      StepKeepsInv(c, s, p, op, val, y, s');
      forall x: nat ensures OwnerIn(c, St(s'.sh, x)) {
        assert SlotEvolves(s.sh, s'.sh, p, x) && OwnerIn(c, St(s.sh, x));
      }
    }
  }

  lemma {:induction false} RunsKeepOwners(c: Config, run: seq<State>, n: nat)
    requires SteadyRun(c, run) && n < |run|
    ensures OwnersOk(c, run[n].sh)
  {
    if n > 0 {
      StepOfRun(c, run, n);
      RunsKeepOwners(c, run, n - 1);
      StepKeepsOwners(c, run[n - 1], run[n]);
    }
  }

  /** The place the ledger names. */
  ghost function PlaceOf(s: State, x: nat): Place {
    match St(s.sh, x)
    case Free => InBitmap
    case Private(p) => NewNodeOf(p)
    case Linked => OnList
    case Unlinked(p, _) => ToRetire(p, if p < |s.th| && x in s.th[p].pend then PendIndex(s.th[p].pend, x) else 0)
    case Retired(p, _, e) => RetiredBy(p, if p < |s.th| && Entry(x, e) in s.th[p].list then ListIndex(s.th[p].list, Entry(x, e)) else 0)
  }

  ghost function PendIndex(pend: seq<nat>, x: nat): (i: nat)
    requires x in pend
    ensures i < |pend| && pend[i] == x
  {
    var i :| 0 <= i < |pend| && pend[i] == x; i
  }

  ghost function ListIndex(list: seq<Entry>, e: Entry): (i: nat)
    requires e in list
    ensures i < |list| && list[i] == e
  {
    var i :| 0 <= i < |list| && list[i] == e; i
  }

  lemma AtItsPlace(c: Config, s: State, x: nat)
    requires Inv(c, s) && OwnersOk(c, s.sh) && x < c.slots
    ensures IsAt(s, x, PlaceOf(s, x))
  {
    var st := St(s.sh, x);
    assert OwnerIn(c, st) && BitOk(c, s.sh, x);
    match st
    case Free =>
    case Linked =>
      ChainFollowsLinks(s.sh, HEAD);
      assert x != HEAD ==> Lt(s.sh, HEAD, x);
    case Private(p) =>
      FactsOf(c, s, p);
      assert OwnsSlot(s.sh, p, s.th[p], x);
    case Unlinked(p, _) =>
      FactsOf(c, s, p);
      assert OwnsSlot(s.sh, p, s.th[p], x);
    case Retired(p, _, e) =>
      FactsOf(c, s, p);
      assert OwnsSlot(s.sh, p, s.th[p], x);
  }

  lemma AtNoOtherPlace(c: Config, s: State, x: nat, place: Place)
    requires Inv(c, s) && x < c.slots && IsAt(s, x, place)
    ensures place == PlaceOf(s, x)
  {
    assert BitOk(c, s.sh, x);
    match place
    case InBitmap =>
    case OnList => ChainFollowsLinks(s.sh, HEAD);
    case NewNodeOf(p) =>
      FactsOf(c, s, p);
      assert OwnsSlot(s.sh, p, s.th[p], x);
    case ToRetire(p, i) =>
      FactsOf(c, s, p);
      assert OwnsSlot(s.sh, p, s.th[p], x);
    case RetiredBy(p, i) =>
      FactsOf(c, s, p);
      var e := s.th[p].list[i];
      assert OwnsSlot(s.sh, p, s.th[p], x) && e == Entry(x, e.epoch) && e in s.th[p].list;
  }

  /** In every state of every steady run each slot is in exactly one place: free in the bitmap, a new node of one
      thread, on the list, or at one position among the nodes one thread has unlinked or retired. So no
      slot is leaked, retired twice, or handed to two threads. */
  lemma SlotConservation(c: Config, run: seq<State>, n: nat, x: nat)
    requires SteadyRun(c, run) && n < |run| && x < c.slots
    ensures ChainOk(run[n].sh)
    ensures exists place :: IsAt(run[n], x, place) && (forall other :: IsAt(run[n], x, other) ==> other == place)
  {
    RunsKeepInv(c, run, n);
    RunsKeepOwners(c, run, n);
    AtItsPlace(c, run[n], x);
    forall other | IsAt(run[n], x, other) ensures other == PlaceOf(run[n], x) {
      AtNoOtherPlace(c, run[n], x, other);
    }
  }

  /** Every retired list is sorted by the epochs its entries were retired in, none of them in the future. */
  lemma RetiredListsSorted(c: Config, run: seq<State>, n: nat, p: nat)
    requires SteadyRun(c, run) && n < |run| && p < c.threads
    ensures |run[n].th| == c.threads
    ensures var list := run[n].th[p].list;
            && (forall i, j :: 0 <= i < j < |list| ==> list[i].epoch <= list[j].epoch && list[i].idx != list[j].idx)
            && (forall i :: 0 <= i < |list| ==> list[i].epoch <= run[n].sh.epoch)
  {
    RunsKeepInv(c, run, n);
    FactsOf(c, run[n], p);
  }

  // No use after reclaim.

  /** The slots a thread is about to read or write, holds as left or right, or uses in a CAS. */
  function Uses(t: Thread): set<nat> {
    match PhaseOf(t)
    case Reading => if t.pc.CHead? then {} else {t.t}
    case Walking =>
      if t.pc.STest? then {t.t, t.tn.idx}
      else if t.pc.SNext? then {t.t, t.left, t.ln}
      else {t.left, t.ln, t.right}
    case Retiring =>
      if t.pc.SPersist? then {t.left, t.ln, t.right}
      else if t.pc.SRetNext? then {t.left, t.cur, t.right}
      else {t.left}
    case Deciding => {t.left, t.right}
    case Adding => {t.left, t.right}
    case Removing => if t.pc.RPersistMark? || t.pc.RSnip? then {t.left, t.right, t.ri.idx} else {t.left, t.right}
    case Persisting => {t.left}
    case _ => {}
  }

  lemma PathIsHeld(sh: Shared, since: nat, a: nat, path: seq<nat>, b: nat)
    requires MarkedPath(sh, since, a, path, b) && Protected(sh, since, b)
    ensures Protected(sh, since, a)
  {
    if |path| > 0 {
      assert MarkedAt(sh, since, path, b, 0);
    }
  }

  lemma UsedIsHeld(sh: Shared, t: Thread, x: nat)
    requires PcOk(sh, t) && x in Uses(t)
    ensures Held(sh, t, x)
  {
    if t.pc.SNext? {
      PathIsHeld(sh, t.since, t.ln, t.path, t.t);
    } else if t.pc.SCas? {
      PathIsHeld(sh, t.since, t.ln, t.path, t.right);
    } else if t.pc.SPersist? {
      PathIsHeld(sh, t.since, t.ln, t.pend, t.right);
    }
  }

  /** x is reached by following links from the head, or from a slot the thread uses. */
  ghost predicate Reaches(sh: Shared, t: Thread, path: seq<nat>, x: nat) {
    && |path| > 0 && path[|path| - 1] == x
    && (path[0] == HEAD || path[0] in Uses(t))
    && IsPath(sh, path)
  }

  lemma {:induction false} ReachedIsHeld(c: Config, s: State, p: nat, path: seq<nat>, x: nat)
    requires Inv(c, s) && p < c.threads && Running(s.th[p]) && Reaches(s.sh, s.th[p], path, x)
    ensures Held(s.sh, s.th[p], x)
    decreases |path|
  {
    FactsOf(c, s, p);
    if |path| == 1 {
      if x != HEAD {
        UsedIsHeld(s.sh, s.th[p], x);
      }
    } else {
      var y := path[|path| - 2];
      PathFront(s.sh, s.th[p], path, x);
      ReachedIsHeld(c, s, p, path[..|path| - 1], y);
      NextIsHeld(s.sh, p, s.th[p], y);
    }
  }

  lemma PathFront(sh: Shared, t: Thread, path: seq<nat>, x: nat)
    requires Reaches(sh, t, path, x) && |path| > 1
    ensures var y := path[|path| - 2];
            Reaches(sh, t, path[..|path| - 1], y) && y != TAIL && x == Nxt(sh, y).idx
  {}

  lemma NextIsHeld(sh: Shared, p: nat, t: Thread, y: nat)
    requires ShelterOk(sh, p, t.since, t.start, t.val) && Held(sh, t, y) && y != TAIL
    ensures Held(sh, t, Nxt(sh, y).idx)
  {
    assert ProtectedOk(sh, t.since, t.start, t.val, ResOf(sh, p).n, y);
  }

  /** The thread still holds the slot, and what it knows of the node is still true. */
  predicate StillHeld(sh: Shared, t: Thread, sh': Shared, t': Thread, x: nat) {
    && Held(sh', t', x) && Dat(sh', x) == Dat(sh, x)
    && (Nxt(sh, x).mark ==> Nxt(sh', x) == Nxt(sh, x))
  }

  lemma EffectKeepsHeld(c: Config, sh: Shared, sh': Shared, p: nat, t: Thread, t': Thread, x: nat)
    requires Evolves(c, sh, sh', p) && Held(sh, t, x) && t'.since == t.since && t.since <= sh.snips
    requires KeepsShelter(sh, sh', t.since)
    ensures StillHeld(sh, t, sh', t', x)
  {
    assert SlotEvolves(sh, sh', p, x);
    ProtectedStays(c, sh, sh', p, t.since, x);
  }

  lemma MoveKeepsHeld(c: Config, s: State, p: nat, op: Op, val: int, y: nat, s': State, q: nat, x: nat)
    requires Inv(c, s) && SteadyStepBy(c, s, p, op, val, y, s') && q < c.threads
    requires Running(s.th[q]) && Running(s'.th[q]) && Held(s.sh, s.th[q], x)
    ensures StillHeld(s.sh, s.th[q], s'.sh, s'.th[q], x)
  {
    StepKeepsInv(c, s, p, op, val, y, s');
    StepKeepsShelter(c, s, p, op, val, y, q);
    FactsOf(c, s, q);
    ReservationMoves(c, s.sh, p, s.th[p], op, val, y);
    EffectKeepsHeld(c, s.sh, s'.sh, p, s.th[q], s'.th[q], x);
  }

  lemma StepKeepsHeld(c: Config, s: State, s': State, q: nat, x: nat)
    requires SoundStep(c, {s}, s')
    requires RunsAt(c, s, q) && RunsAt(c, s', q) && Held(s.sh, s.th[q], x)
    ensures StillHeld(s.sh, s.th[q], s'.sh, s'.th[q], x)
  {
    assert SoundAt(c, s, s');
    if y :| WriteBack(s, y, s') {
      assert St(s'.sh, x) == St(s.sh, x);
    } else {
      var p, op, val, y :| SteadyStepBy(c, s, p, op, val, y, s');
      MoveKeepsHeld(c, s, p, op, val, y, s', q, x);
    }
  }

  /** The operation of thread p runs on in these states. */
  ghost predicate RunsOn(c: Config, run: seq<State>, n: nat, m: nat, p: nat)
    requires m < |run|
  {
    forall k :: n <= k <= m ==> RunsAt(c, run[k], p)
  }

  ghost predicate RunsAt(c: Config, s: State, p: nat) {
    |s.th| == c.threads && p < c.threads && Running(s.th[p])
  }

  lemma {:induction false} HeldStaysHeld(c: Config, run: seq<State>, n: nat, m: nat, p: nat, x: nat)
    requires SteadyRun(c, run) && n <= m < |run| && p < c.threads && RunsOn(c, run, n, m, p)
    requires RunsAt(c, run[n], p) && RunsAt(c, run[m], p) && Held(run[n].sh, run[n].th[p], x)
    ensures StillHeld(run[n].sh, run[n].th[p], run[m].sh, run[m].th[p], x)
    decreases m
  {
    if n < m {
      assert RunsAt(c, run[m - 1], p);
      HeldStaysHeld(c, run, n, m - 1, p, x);
      StepOfRun(c, run, m);
      StepKeepsHeld(c, run[m - 1], run[m], p, x);
    }
  }

  /** A slot that a running operation uses, or can reach, is not set free in the bitmap and not handed out
      again between start_op and end_op; its key stays, and so does its link once it is marked. If it was
      retired, then not before the operation's reservation. */
  lemma NoUseAfterReclaim(c: Config, run: seq<State>, n: nat, m: nat, p: nat, path: seq<nat>, x: nat)
    requires SteadyRun(c, run) && n <= m < |run| && RunsOn(c, run, n, m, p)
    requires RunsAt(c, run[n], p) && Reaches(run[n].sh, run[n].th[p], path, x)
    ensures x < c.slots ==> !Bit(run[m].sh, x)
    ensures Published(run[m].sh, x) && Dat(run[m].sh, x) == Dat(run[n].sh, x)
    ensures Nxt(run[n].sh, x).mark ==> Nxt(run[m].sh, x) == Nxt(run[n].sh, x)
    ensures St(run[m].sh, x).Retired? ==> ResOf(run[m].sh, p).At? && St(run[m].sh, x).epoch >= ResOf(run[m].sh, p).n
  {
    RunsKeepInv(c, run, n);
    RunsKeepInv(c, run, m);
    ReachedIsHeld(c, run[n], p, path, x);
    assert RunsAt(c, run[m], p);
    HeldStaysHeld(c, run, n, m, p, x);
    FactsOf(c, run[m], p);
    SeenIsRecent(run[m].sh, p, run[m].th[p], x);
    assert BitOk(c, run[m].sh, x);
  }
}
