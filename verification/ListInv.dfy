/** The invariants of the list machine. The list is described node by node rather than as a path: every
    linked node points to the linked node with the next larger key. `ListResults.ChainIsPath` turns this
    into the path from head to tail. */
module ListInv {
  import opened ListCommon
  import opened ListMachine

  ghost predicate Sizes(c: Config, sh: Shared) {
    && c.slots >= 2 && c.threads >= 1
    && (|sh.next|, |sh.data|, |sh.dnext|, |sh.ddata|, |sh.bit|, |sh.slot|, |sh.res|)
       == (c.slots, c.slots, c.slots, c.slots, c.slots, c.slots, c.threads)
    && |sh.hist| > 0
  }

  predicate IsLinked(sh: Shared, x: nat) { St(sh, x) == Linked }

  /** Unlinked but not yet free: another thread may still be looking at it. */
  predicate IsGone(sh: Shared, x: nat) { St(sh, x).Unlinked? || St(sh, x).Retired? }

  predicate Published(sh: Shared, x: nat) { IsLinked(sh, x) || IsGone(sh, x) }

  /** Key order, with the tail after everything. */
  predicate Lt(sh: Shared, x: nat, y: nat) {
    x != TAIL && (y == TAIL || Dat(sh, x) < Dat(sh, y))
  }

  ghost predicate SuccessorOk(sh: Shared, x: nat) {
    IsLinked(sh, Nxt(sh, x).idx) && Lt(sh, x, Nxt(sh, x).idx)
  }

  /** Nothing linked lies between x and its successor. */
  ghost predicate Adjacent(sh: Shared, x: nat, y: nat) {
    Lt(sh, x, y) ==> y == Nxt(sh, x).idx || Lt(sh, Nxt(sh, x).idx, y)
  }

  predicate Ordered(sh: Shared, x: nat, y: nat) {
    Lt(sh, x, y) || Lt(sh, y, x)
  }

  ghost predicate ChainOk(sh: Shared) {
    && IsLinked(sh, HEAD) && IsLinked(sh, TAIL)
    && Dat(sh, HEAD) == INT_MIN
    && !Nxt(sh, HEAD).mark && !Nxt(sh, TAIL).mark
    && (forall x: nat {:trigger Lt(sh, HEAD, x)} :: IsLinked(sh, x) && x != HEAD ==> Lt(sh, HEAD, x))
    && (forall x: nat {:trigger SuccessorOk(sh, x)} :: IsLinked(sh, x) && x != TAIL ==> SuccessorOk(sh, x))
    && (forall x: nat, y: nat {:trigger Adjacent(sh, x, y)} ::
          IsLinked(sh, x) && IsLinked(sh, y) && x != TAIL ==> Adjacent(sh, x, y))
    && (forall x: nat, y: nat {:trigger Ordered(sh, x, y)} ::
          IsLinked(sh, x) && IsLinked(sh, y) && x != y ==> Ordered(sh, x, y))
  }

  ghost predicate LedgerOk(c: Config, sh: Shared) {
    && (forall x: nat :: GoneOk(sh, x))
    && (forall x: nat :: BitOk(c, sh, x))
  }

  predicate GoneOk(sh: Shared, x: nat) {
    IsGone(sh, x) ==> Nxt(sh, x).mark && St(sh, x).at < sh.snips
  }

  predicate BitOk(c: Config, sh: Shared, x: nat) {
    x < c.slots ==> (Bit(sh, x) <==> St(sh, x) == Free)
  }

  ghost predicate HeapOk(c: Config, sh: Shared) {
    && Sizes(c, sh)
    && ChainOk(sh)
    && LedgerOk(c, sh)
    && sh.hist[|sh.hist| - 1] == Keys(sh)
  }

  // What one thread's operation relies on.

  /** The slot was linked at some moment after the thread stored its reservation, and is not free. */
  predicate Protected(sh: Shared, since: nat, x: nat) {
    match St(sh, x)
    case Linked => true
    case Unlinked(_, at) => at >= since
    case Retired(_, at, _) => at >= since
    case _ => false
  }

  /** In some state since the operation was called, its key was not in the set. */
  ghost predicate OutSeen(sh: Shared, start: nat, val: int) {
    exists k :: start <= k < |sh.hist| && val !in sh.hist[k]
  }

  ghost predicate InSeen(sh: Shared, start: nat, val: int) {
    exists k :: start <= k < |sh.hist| && val in sh.hist[k]
  }

  /** The operation took effect between positions k and k + 1 of the history. */
  ghost predicate TookEffect(sh: Shared, t: Thread, k: nat) {
    && t.start <= k && k + 1 < |sh.hist|
    && (t.op.Add? ==> t.val !in sh.hist[k] && sh.hist[k + 1] == sh.hist[k] + {t.val})
    && (t.op.Remove? ==> t.val in sh.hist[k] && sh.hist[k + 1] == sh.hist[k] - {t.val})
  }

  /** The parts of an operation. */
  datatype Phase = Outside | Starting | Reading | Heading | Walking | Retiring | Deciding | Adding | Removing | Persisting | Ending | Ended

  function PhaseOf(t: Thread): Phase {
    match RoutineOf(t.pc)
    case Start => if t.pc.Idle? then Outside else Starting
    case Contain => Reading
    case Search =>
      if t.pc.SHead? then Heading
      else if t.pc.STest? || t.pc.SNext? || t.pc.SCas? then Walking
      else if t.pc.SPersist? || t.pc.SRetNext? then Retiring
      else Deciding
    case Insert => if t.pc.APersistLeft? then Persisting else Adding
    case Delete => if t.pc.RPersistLeft? then Persisting else Removing
    case Retire => Retiring
    case End => if t.pc.EndOp? then Ending else Ended
  }

  /** Between storing the reservation and withdrawing it. */
  predicate Running(t: Thread) {
    var ph := PhaseOf(t);
    !(ph == Outside || ph == Starting || ph == Ended)
  }

  /** In the middle of an attempt to change the list. */
  predicate Attempting(t: Thread) {
    var ph := PhaseOf(t);
    ph == Walking || ph == Retiring || ph == Deciding || ph == Adding || ph == Removing || ph == Persisting
  }

  /** No key strictly between x and its successor, or the operation has seen its key absent. */
  ghost predicate GapOk(sh: Shared, start: nat, val: int, x: nat) {
    Dat(sh, x) < val && (Nxt(sh, x).idx == TAIL || Dat(sh, Nxt(sh, x).idx) > val) ==> OutSeen(sh, start, val)
  }

  ghost predicate ProtectedOk(sh: Shared, since: nat, start: nat, val: int, r: nat, x: nat) {
    && (x != TAIL ==> Protected(sh, since, Nxt(sh, x).idx) && Lt(sh, x, Nxt(sh, x).idx) && GapOk(sh, start, val, x))
    && (x != TAIL && Dat(sh, x) == val && Nxt(sh, x).mark ==> OutSeen(sh, start, val))
    && (St(sh, x).Retired? ==> St(sh, x).epoch >= r)
  }

  /** Following links from a protected slot leads to protected slots in key order, and none of them was
      retired before the reservation. */
  ghost predicate ShelterOk(sh: Shared, p: nat, since: nat, start: nat, val: int) {
    && since <= sh.snips && start < |sh.hist|
    && ResOf(sh, p).At? && ResOf(sh, p).n <= sh.epoch
    && (forall x: nat {:trigger ProtectedOk(sh, since, start, val, ResOf(sh, p).n, x)} ::
          Protected(sh, since, x) ==> ProtectedOk(sh, since, start, val, ResOf(sh, p).n, x))
  }

  /** A path of marked nodes from a to b. */
  ghost predicate MarkedPath(sh: Shared, since: nat, a: nat, path: seq<nat>, b: nat) {
    && a == (if |path| > 0 then path[0] else b)
    && (forall i :: 0 <= i < |path| ==> MarkedAt(sh, since, path, b, i))
  }

  ghost predicate MarkedAt(sh: Shared, since: nat, path: seq<nat>, b: nat, i: nat)
    requires i < |path|
  {
    && Protected(sh, since, path[i])
    && Nxt(sh, path[i]) == Link(if i + 1 < |path| then path[i + 1] else b, true)
  }

  // Thread-local facts at each program point.

  ghost predicate Out(sh: Shared, t: Thread) { OutSeen(sh, t.start, t.val) }

  ghost predicate In(sh: Shared, t: Thread) { InSeen(sh, t.start, t.val) }

  predicate Held(sh: Shared, t: Thread, x: nat) { Protected(sh, t.since, x) }

  /** No other thread's CAS succeeded since this attempt began. */
  predicate Quiet(sh: Shared, t: Thread) { Others(sh, t) == t.seen }

  ghost predicate LeftOk(sh: Shared, t: Thread) {
    Held(sh, t, t.left) && t.left != TAIL && Dat(sh, t.left) < t.val
  }

  ghost predicate LeftPoints(sh: Shared, t: Thread, x: nat) {
    Quiet(sh, t) ==> Nxt(sh, t.left) == Link(x, false)
  }

  ghost predicate CurrentOk(sh: Shared, t: Thread) {
    && Held(sh, t, t.t) && t.t != TAIL
    && (Dat(sh, t.t) <= t.val || Out(sh, t))
  }

  ghost predicate NextReadOk(sh: Shared, t: Thread) {
    && Held(sh, t, t.tn.idx) && Lt(sh, t.t, t.tn.idx)
    && (t.tn.mark ==> Nxt(sh, t.t) == t.tn)
    && (Dat(sh, t.t) < t.val && (t.tn.idx == TAIL || Dat(sh, t.tn.idx) > t.val) ==> Out(sh, t))
    && (Quiet(sh, t) ==> Nxt(sh, t.t) == t.tn)
  }

  ghost predicate TraversedOk(sh: Shared, t: Thread, b: nat) {
    && LeftOk(sh, t)
    && MarkedPath(sh, t.since, t.ln, t.path, b)
    && LeftPoints(sh, t, t.ln)
  }

  ghost predicate RightOk(sh: Shared, t: Thread) {
    && Held(sh, t, t.right)
    && (t.right == TAIL || Dat(sh, t.right) >= t.val)
    && (t.right == TAIL || Dat(sh, t.right) > t.val ==> Out(sh, t))
    && (Quiet(sh, t) ==> !Nxt(sh, t.right).mark)
  }

  /** What p_list_search has established when it returns. */
  ghost predicate FoundOk(sh: Shared, t: Thread) {
    && LeftOk(sh, t) && RightOk(sh, t)
    && LeftPoints(sh, t, t.right)
    && (t.right != TAIL && Dat(sh, t.right) == t.val ==> In(sh, t))
  }

  ghost predicate AbsentOk(sh: Shared, t: Thread) {
    && FoundOk(sh, t)
    && (t.right == TAIL || Dat(sh, t.right) > t.val)
  }

  ghost predicate PresentOk(sh: Shared, t: Thread) {
    && FoundOk(sh, t)
    && t.right != TAIL && Dat(sh, t.right) == t.val
  }

  /** The node being removed, marked by this thread. */
  ghost predicate MarkedByMe(sh: Shared, t: Thread) {
    && LeftOk(sh, t)
    && Held(sh, t, t.right) && t.right != TAIL && Dat(sh, t.right) == t.val
    && Held(sh, t, t.ri.idx) && Nxt(sh, t.right) == Link(t.ri.idx, true)
  }

  /** After a snip in p_list_search: `pend` leads from the node at hand to the right node. */
  ghost predicate SnippedOk(sh: Shared, t: Thread) {
    LeftOk(sh, t) && RightOk(sh, t) && LeftPoints(sh, t, t.right)
  }

  ghost predicate RetiredUpTo(sh: Shared, t: Thread) {
    if t.inRemove then t.pend == [] && Held(sh, t, t.left)
    else
      && SnippedOk(sh, t)
      && Held(sh, t, t.cur) && Nxt(sh, t.cur).mark
      && MarkedPath(sh, t.since, Nxt(sh, t.cur).idx, t.pend, t.right)
  }

  ghost predicate ResultOk(sh: Shared, t: Thread) {
    match t.op
    case Contains => if t.result then In(sh, t) else Out(sh, t)
    case Add => if t.result then t.lin.Some? else t.lin.None? && In(sh, t)
    case Remove => if t.result then t.lin.Some? else t.lin.None? && Out(sh, t)
  }

  /** Whether the thread's operation has changed the key set, as far as the program point tells. */
  predicate EffectMatches(t: Thread) {
    var ph := PhaseOf(t);
    if ph.Starting? || ph.Reading? || ph.Adding? then t.lin.None?
    else if ph.Persisting? then t.lin.Some?
    else if ph.Removing? then t.lin.Some? <==> t.pc != RRead && t.pc != RMark
    else if ph.Retiring? then t.lin.Some? <==> t.caller == RemClean || InRetireOfRemove(t)
    else if ph.Heading? || ph.Walking? || ph.Deciding? then t.lin.Some? <==> t.caller == RemClean
    else true
  }

  /** Retiring the node just removed, rather than nodes found marked by a search. */
  predicate InRetireOfRemove(t: Thread) {
    t.inRemove && (t.pc == EEpoch || t.pc == EBump || t.pc == EScan || t.pc == ELoad || t.pc == EFree)
  }

  predicate PcOfOp(t: Thread) {
    var ph := PhaseOf(t);
    if ph.Reading? then t.op.Contains?
    else if ph.Adding? then t.op.Add?
    else if ph.Removing? then t.op.Remove? && t.caller == RemFind
    else if ph.Persisting? then if t.pc == APersistLeft then t.op.Add? else t.op.Remove?
    else if ph.Heading? || ph.Walking? || ph.Deciding? || ph.Retiring? then
      && !t.op.Contains?
      && (t.op.Add? <==> t.caller == AddFirst || t.caller == AddRetry)
      && (InRetireOfRemove(t) ==> t.op.Remove? && t.caller == RemFind)
    else true
  }

  /** When a node of its own is in a thread's hands. */
  predicate NewNodeMatches(t: Thread) {
    var ph := PhaseOf(t);
    if ph.Adding? then t.neu.Some? <==> t.pc != AAlloc
    else if ph.Heading? || ph.Walking? || ph.Deciding? || ph.Retiring? then t.neu.Some? <==> t.caller == AddRetry
    else if ph.Ended? then t.neu.Some? <==> t.pc == DelNew
    else ph.Ending? || t.neu.None?
  }

  ghost predicate NewNodeOk(sh: Shared, t: Thread) {
    t.neu.Some? && t.pc != AData ==>
      && Dat(sh, t.neu.value) == t.val
      && (t.pc == APersistNew || t.pc == ALink ==> Nxt(sh, t.neu.value) == Link(t.right, false))
      && (t.pc == ALink ==> DNxt(sh, t.neu.value) == Nxt(sh, t.neu.value) && DDat(sh, t.neu.value) == Dat(sh, t.neu.value))
  }

  ghost predicate ReadingOk(sh: Shared, t: Thread) {
    && (t.pc == CTest ==> Held(sh, t, t.t) && ((t.t != TAIL && Dat(sh, t.t) <= t.val) || Out(sh, t)))
    && (t.pc == CMark || t.pc == CKey || t.pc == CNext ==> CurrentOk(sh, t))
    && (t.pc == CMark || t.pc == CKey ==> Dat(sh, t.t) >= t.val)
    && (t.pc == CKey && Dat(sh, t.t) == t.val ==> In(sh, t))
    && (t.pc == CNext && Dat(sh, t.t) >= t.val ==> Nxt(sh, t.t).mark)
  }

  /** On the way from the head. Before the first iteration t_next is the head's link. */
  ghost predicate WalkingOk(sh: Shared, t: Thread) {
    if t.pc == SCas then
      TraversedOk(sh, t, t.right) && RightOk(sh, t) && t.ln != t.right
    else
      && CurrentOk(sh, t)
      && (t.pc == STest ==> NextReadOk(sh, t))
      && ((t.pc == STest && t.t == HEAD && !t.tn.mark) || TraversedOk(sh, t, t.t))
  }

  ghost predicate RemovingOk(sh: Shared, t: Thread) {
    if t.pc == RRead || t.pc == RMark then
      && PresentOk(sh, t)
      && (t.pc == RMark ==> !t.ri.mark && (Quiet(sh, t) ==> Nxt(sh, t.right) == t.ri))
    else
      MarkedByMe(sh, t)
  }

  ghost predicate RetiringOk(sh: Shared, t: Thread) {
    if t.pc == SPersist then
      SnippedOk(sh, t) && MarkedPath(sh, t.since, t.ln, t.pend, t.right) && t.ln != t.right
    else if t.pc == EEpoch then
      if t.inRemove then t.pend == [t.cur] && Held(sh, t, t.left)
      else SnippedOk(sh, t) && |t.pend| > 0 && MarkedPath(sh, t.since, t.cur, t.pend, t.right)
    else
      RetiredUpTo(sh, t) && (t.pc == SRetNext ==> !t.inRemove)
  }

  /** What a thread knows at its program point. */
  ghost predicate PcOk(sh: Shared, t: Thread) {
    match PhaseOf(t)
    case Outside | Heading => true
    case Starting => t.pc == StartStore ==> t.e <= sh.epoch
    case Reading => ReadingOk(sh, t)
    case Walking => WalkingOk(sh, t)
    case Deciding => if t.pc == Found then FoundOk(sh, t) else SnippedOk(sh, t)
    case Adding => AbsentOk(sh, t)
    case Removing => RemovingOk(sh, t)
    case Persisting => Held(sh, t, t.left)
    case Retiring => RetiringOk(sh, t)
    case Ending | Ended => ResultOk(sh, t)
  }

  /** `PcOk` of a single thread t: only ever applied to {t}. The quantifier keeps the definition folded until
      it is asked for, and so do those of the predicates below that take a set or a map of one element. */
  ghost predicate PointsOk(sh: Shared, ts: set<Thread>) {
    forall t :: t in ts ==> PcOk(sh, t)
  }

  /** The ledger and the thread agree on whether a slot is the thread's own, and how. */
  ghost predicate OwnsSlot(sh: Shared, p: nat, t: Thread, x: nat) {
    && (St(sh, x) == Private(p) <==> t.neu == Some(x))
    && ((St(sh, x).Unlinked? && St(sh, x).owner == p) <==> x in t.pend)
    && (forall e: nat :: (St(sh, x).Retired? && St(sh, x).owner == p && St(sh, x).epoch == e) <==> Entry(x, e) in t.list)
  }

  ghost predicate OwnsOk(sh: Shared, p: nat, t: Thread) {
    && (forall x: nat {:trigger OwnsSlot(sh, p, t, x)} :: OwnsSlot(sh, p, t, x))
    && (forall i, j :: 0 <= i < j < |t.pend| ==> t.pend[i] != t.pend[j])
    && (forall i, j :: 0 <= i < j < |t.list| ==> t.list[i].idx != t.list[j].idx && t.list[i].epoch <= t.list[j].epoch)
    && (forall i :: 0 <= i < |t.list| ==> t.list[i].epoch <= sh.epoch)
    && (PhaseOf(t) != Retiring ==> t.pend == [])
  }

  /** Each repeated iteration of a loop is paid for by another thread's successful CAS. */
  ghost predicate TriesOk(sh: Shared, t: Thread) {
    && t.mine <= sh.wins
    && t.base <= Others(sh, t)
    && t.tries <= Others(sh, t) - t.base
    && (Attempting(t) ==> t.seen <= Others(sh, t) && t.base <= t.seen && t.tries <= t.seen - t.base)
  }

  ghost predicate CallOk(sh: Shared, t: Thread) {
    t.pc != Idle ==>
      && t.val > INT_MIN && t.key == t.val
      && t.start < |sh.hist|
      && PcOfOp(t)
      && EffectMatches(t)
      && (t.lin.Some? ==> TookEffect(sh, t, t.lin.value))
  }

  ghost predicate ThreadOk(sh: Shared, p: nat, t: Thread) {
    && OwnsOk(sh, p, t)
    && TriesOk(sh, t)
    && CallOk(sh, t)
    && NewNodeMatches(t) && NewNodeOk(sh, t)
    && (Running(t) ==> ShelterOk(sh, p, t.since, t.start, t.val))
    && (!Running(t) ==> ResOf(sh, p) == Never)
    && PcOk(sh, t)
  }

  /** `ThreadOk` of a single thread: only ever applied to map[p := t], to keep the definition folded. */
  ghost predicate ThreadsOk(sh: Shared, th: map<nat, Thread>) {
    forall p :: p in th ==> ThreadOk(sh, p, th[p])
  }

  predicate Scanning(t: Thread) { t.pc == EScan || t.pc == ELoad }

  /** Thread t can see a slot on the scanner's retired list. */
  ghost predicate SeesEntry(sh: Shared, scanner: Thread, t: Thread) {
    exists n :: n in scanner.list && Protected(sh, t.since, n.idx)
  }

  /** A thread that frees has found at most the reservation of thread p, if p can see a slot on its list. */
  ghost predicate MinOk(sh: Shared, scanner: Thread, p: nat, t: Thread) {
    scanner.pc == EFree && Running(t) && SeesEntry(sh, scanner, t) ==>
      ResOf(sh, p).At? && scanner.min.At? && scanner.min.n <= ResOf(sh, p).n
  }

  ghost predicate Inv(c: Config, s: State) {
    && HeapOk(c, s.sh)
    && |s.th| == c.threads
    && (forall p :: 0 <= p < c.threads ==> ThreadOk(s.sh, p, s.th[p]))
    && (forall q, p :: 0 <= q < c.threads && 0 <= p < c.threads ==> MinOk(s.sh, s.th[q], p, s.th[p]))
  }

  // The runs that keep the invariant. get_min loads a reservation once to compare it and once more to copy
  // it. If it has risen in between, the minimum found may be above a reservation that the scan has passed.

  /** The next step ends the scan. */
  predicate ScanEnds(c: Config, t: Thread) { t.pc == EScan && t.i > 0 && t.i >= c.threads }

  /** If thread p is about to end its scan, then with a minimum that is not above the reservation of an operation
      that can see a slot on its list. */
  ghost predicate ScanSound(c: Config, s: State, p: nat)
    requires p < |s.th|
  {
    ScanEnds(c, s.th[p]) ==>
      forall r: nat :: r < |s.th| && Running(s.th[r]) && SeesEntry(s.sh, s.th[p], s.th[r]) ==>
        AtMost(s.th[p].min, ResOf(s.sh, r))
  }

  ghost predicate SteadyStepBy(c: Config, s: State, p: nat, op: Op, val: int, x: nat, s': State) {
    StepBy(c, s, p, op, val, x, s') && ScanSound(c, s, p)
  }

  ghost predicate SteadyStep(c: Config, s: State, s': State) {
    || (exists p, op, val, x :: SteadyStepBy(c, s, p, op, val, x, s'))
    || (exists x :: WriteBack(s, x, s'))
  }

  /** The runs in which every scan ends with a sound minimum. */
  ghost predicate SteadyRun(c: Config, run: seq<State>) {
    && |run| > 0
    && Init(c, run[0])
    && (forall n :: 0 < n < |run| ==> SteadyStepAt(c, run, n))
  }

  ghost predicate SteadyStepAt(c: Config, run: seq<State>, n: nat)
    requires 0 < n < |run|
  {
    SteadyStep(c, run[n - 1], run[n])
  }
}
