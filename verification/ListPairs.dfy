/** A long steady run of the list: thread 2 enters an operation in epoch 0 and stays in it, while thread 0 adds
    and removes a key again and again. Each time it takes the next slot, and no slot comes back. */
module ListPairs {
  import opened ListCommon
  import opened ListMachine
  import opened ListInv
  import opened ListSafety

  const C := Config(320, 3)
  const KEY: int := 5

  /** The k-th slot that the allocator can find. */
  function Node(k: nat): nat { 64 * ((k + 2) / 32) + (k + 2) % 32 }

  lemma NodeIsFindable(k: nat)
    requires k < EMPTY_FREQ
    ensures 2 <= Node(k) < C.slots && Findable(C, Node(k))
  {}

  lemma NodesGoUp(j: nat, k: nat)
    requires j < k
    ensures Node(j) < Node(k)
  {}

  /** The retired list after k removals. */
  function Entries(k: nat): (list: seq<Entry>)
    ensures |list| == k && forall i :: 0 <= i < k ==> list[i] == Entry(Node(i), i / EPOCH_FREQ)
  {
    seq(k, i requires 0 <= i => Entry(Node(i), i / EPOCH_FREQ))
  }

  // Steady runs. The predicates that take a set are only ever applied to a set of one: the quantifier keeps
  // the definition folded until it is asked for.

  /** A steady run leads to s. */
  ghost predicate IsReached(s: State) {
    exists run: seq<State> :: SteadyRun(C, run) && run[|run| - 1] == s
  }

  ghost predicate Reached(ss: set<State>) {
    forall s {:trigger IsReached(s)} :: s in ss ==> IsReached(s)
  }

  predicate IsMove(sh: Shared, p: nat, t: Thread, op: Op, x: nat, r: (Shared, Thread)) {
    Move(C, sh, p, t, op, KEY, x) == r
  }

  ghost predicate MovesTo(sh: Shared, p: nat, t: Thread, op: Op, x: nat, rs: set<(Shared, Thread)>) {
    forall r {:trigger IsMove(sh, p, t, op, x, r)} :: r in rs ==> IsMove(sh, p, t, op, x, r)
  }

  lemma ReachedIsInv(s: State)
    requires Reached({s})
    ensures StatesInv(C, {s})
  {
    assert IsReached(s);
    var run: seq<State> :| SteadyRun(C, run) && run[|run| - 1] == s;
    LastIsInv(run);
  }

  lemma LastIsInv(run: seq<State>)
    requires SteadyRun(C, run)
    ensures |run| > 0 && StatesInv(C, {run[|run| - 1]})
  {
    StateOfRun(C, run, |run| - 1);
  }

  lemma LongerIsSteady(run: seq<State>, s': State)
    requires SteadyRun(C, run) && SteadyStep(C, run[|run| - 1], s')
    ensures SteadyRun(C, run + [s'])
  {
    var longer := run + [s'];
    forall n | 0 < n < |longer| ensures SteadyStepAt(C, longer, n) {
      assert n < |run| ==> SteadyStepAt(C, run, n);
    }
  }

  lemma ReachesMore(s: State, s': State)
    requires Reached({s}) && SteadyStep(C, s, s')
    ensures Reached({s'})
  {
    assert IsReached(s);
    var run: seq<State> :| SteadyRun(C, run) && run[|run| - 1] == s;
    LongerIsSteady(run, s');
    assert (run + [s'])[|run + [s']| - 1] == s';
  }

  /** Thread p makes a step that does not end a scan. */
  lemma OneMore(s: State, p: nat, op: Op, x: nat, sh': Shared, t': Thread)
    requires Reached({s}) && p < |s.th| && !ScanEnds(C, s.th[p]) && (s.th[p].pc == AAlloc ==> Findable(C, x))
    requires MovesTo(s.sh, p, s.th[p], op, x, {(sh', t')})
    ensures Reached({State(sh', s.th[p := t'])})
  {
    assert IsMove(s.sh, p, s.th[p], op, x, (sh', t'));
    assert SteadyStepBy(C, s, p, op, KEY, x, State(sh', s.th[p := t']));
    ReachesMore(s, State(sh', s.th[p := t']));
  }

  // Thread 0 alone.

  /** What thread 0 leaves alone: the other threads and their reservations. */
  datatype Bystanders = Bystanders(u: Thread, w: Thread, a: Res, b: Res)

  predicate IsSpare(sh: Shared, n: nat, j: nat) { n <= j < EMPTY_FREQ ==> Bit(sh, Node(j)) }

  /** And the free slots from the n-th on. */
  ghost predicate Around(s: State, n: nat, o: Bystanders) {
    && |s.th| == 3 && (s.th[1], s.th[2], ResOf(s.sh, 1), ResOf(s.sh, 2)) == (o.u, o.w, o.a, o.b)
    && (forall j: nat {:trigger IsSpare(s.sh, n, j)} :: IsSpare(s.sh, n, j))
  }

  /** The account of thread 0 after k removals. */
  predicate Account(sh: Shared, t: Thread, k: nat) {
    (t.list, t.counter, sh.epoch) == (Entries(k), k, k / EPOCH_FREQ)
  }

  /** Node k is linked behind the head, and it alone. */
  predicate HasNode(sh: Shared, k: nat) {
    Nxt(sh, HEAD) == Link(Node(k), false) && Nxt(sh, Node(k)) == Link(TAIL, false) && Dat(sh, Node(k)) == KEY
  }

  predicate IsEmpty(sh: Shared) { Nxt(sh, HEAD) == Link(TAIL, false) }

  /** What thread 0 knows at the program points of the k-th add. */
  predicate Adding(sh: Shared, t: Thread, k: nat) {
    if t.pc.Idle? || t.pc.Return? || t.pc.EndOp? || t.pc.APersistLeft? then
      HasNode(sh, k) && t.neu.None? && (t.pc.APersistLeft? ==> t.left == HEAD)
    else
      IsEmpty(sh) && t.op.Add? && t.val == t.key == KEY && (Searching(t) || Preparing(sh, t, k))
  }

  /** On the way to its place, which is behind the head. */
  predicate Searching(t: Thread) {
    || t.pc.StartRead? || t.pc.StartStore?
    || ((t.pc.SHead? || t.pc.STest? || t.pc.SCheck? || t.pc.Found?) && t.caller.AddFirst?
        && (t.pc.STest? ==> t.t == HEAD && t.tn == Link(TAIL, false))
        && (t.pc.SCheck? || t.pc.Found? ==> t.left == HEAD && t.right == TAIL))
  }

  /** On the way to its new node. */
  predicate Preparing(sh: Shared, t: Thread, k: nat) {
    && (t.pc.AAlloc? || t.pc.AData? || t.pc.ANext? || t.pc.APersistNew? || t.pc.ALink?)
    && t.left == HEAD && t.right == TAIL && (!t.pc.AAlloc? ==> t.neu == Some(Node(k)))
    && (t.pc.ANext? || t.pc.APersistNew? || t.pc.ALink? ==> Dat(sh, Node(k)) == KEY)
    && (t.pc.APersistNew? || t.pc.ALink? ==> Nxt(sh, Node(k)) == Link(TAIL, false))
  }

  function AddStepsLeft(pc: PC): nat {
    if pc.StartRead? then 14
    else if pc.StartStore? then 13
    else if pc.SHead? then 12
    else if pc.STest? then 11
    else if pc.SCheck? then 10
    else if pc.Found? then 9
    else if pc.AAlloc? then 8
    else if pc.AData? then 7
    else if pc.ANext? then 6
    else if pc.APersistNew? then 5
    else if pc.ALink? then 4
    else if pc.APersistLeft? then 3
    else if pc.EndOp? then 2
    else if pc.Return? then 1
    else 0
  }

  predicate SentinelsOk(sh: Shared) {
    (|sh.next|, |sh.data|, |sh.dnext|, |sh.ddata|, |sh.bit|, |sh.slot|, |sh.res|, Dat(sh, HEAD), Nxt(sh, TAIL).mark)
    == (C.slots, C.slots, C.slots, C.slots, C.slots, C.slots, C.threads, INT_MIN, false)
  }

  /** A step of the k-th add. */
  predicate AddGoes(sh: Shared, t: Thread, k: nat, sh': Shared, t': Thread) {
    && Adding(sh', t', k) && AddStepsLeft(t'.pc) < AddStepsLeft(t.pc)
    && (t'.list, t'.counter, sh'.epoch) == (t.list, t.counter, sh.epoch)
    && sh'.bit == (if t.pc == AAlloc && Node(k) < |sh.bit| then sh.bit[Node(k) := false] else sh.bit)
    && (ResOf(sh', 1), ResOf(sh', 2)) == (ResOf(sh, 1), ResOf(sh, 2))
  }

  ghost predicate AddingNow(sh: Shared, ts: set<Thread>, k: nat) {
    forall t {:trigger Adding(sh, t, k)} :: t in ts ==> Adding(sh, t, k)
  }

  ghost predicate AddLeadsTo(sh: Shared, t: Thread, k: nat, after: set<(Shared, Thread)>) {
    forall r {:trigger AddGoes(sh, t, k, r.0, r.1)} :: r in after ==> AddGoes(sh, t, k, r.0, r.1)
  }

  lemma AddStarts(sh: Shared, t: Thread, k: nat)
    requires SentinelsOk(sh) && AddingNow(sh, {t}, k) && (t.pc == StartRead || t.pc == StartStore)
    ensures AddLeadsTo(sh, t, k, {StartStep(sh, 0, t, Add, KEY)})
  {
    assert Adding(sh, t, k);
  }

  lemma AddTests(sh: Shared, t: Thread, k: nat)
    requires SentinelsOk(sh) && AddingNow(sh, {t}, k) && t.pc == STest
    ensures AddLeadsTo(sh, t, k, {SearchStep(sh, 0, t)})
  {
    assert Adding(sh, t, k);
    assert Advance(t) == t.(left := HEAD, ln := TAIL, path := [], t := TAIL, right := TAIL, pc := SCheck);
  }

  lemma AddSearches(sh: Shared, t: Thread, k: nat)
    requires SentinelsOk(sh) && AddingNow(sh, {t}, k) && (t.pc == SHead || t.pc == SCheck || t.pc == Found)
    ensures AddLeadsTo(sh, t, k, {SearchStep(sh, 0, t)})
  {
    assert Adding(sh, t, k);
  }

  lemma AddPrepares(sh: Shared, t: Thread, k: nat)
    requires SentinelsOk(sh) && AddingNow(sh, {t}, k) && k < EMPTY_FREQ
    requires t.pc == AData || t.pc == ANext || t.pc == APersistNew
    ensures AddLeadsTo(sh, t, k, {AddStep(sh, 0, t, Node(k))})
  {
    assert Adding(sh, t, k);
    NodeIsFindable(k);
  }

  lemma AddAllocates(sh: Shared, t: Thread, k: nat)
    requires SentinelsOk(sh) && AddingNow(sh, {t}, k) && k < EMPTY_FREQ && t.pc == AAlloc && Bit(sh, Node(k))
    ensures AddLeadsTo(sh, t, k, {AddStep(sh, 0, t, Node(k))})
  {
    assert Adding(sh, t, k);
    NodeIsFindable(k);
  }

  lemma AddLinks(sh: Shared, t: Thread, k: nat)
    requires SentinelsOk(sh) && AddingNow(sh, {t}, k) && k < EMPTY_FREQ && (t.pc == ALink || t.pc == APersistLeft)
    ensures AddLeadsTo(sh, t, k, {AddStep(sh, 0, t, Node(k))})
  {
    assert Adding(sh, t, k);
    NodeIsFindable(k);
  }

  lemma AddEnds(sh: Shared, t: Thread, k: nat)
    requires SentinelsOk(sh) && AddingNow(sh, {t}, k) && (t.pc == EndOp || t.pc == Return)
    ensures AddLeadsTo(sh, t, k, {EndStep(sh, 0, t)})
  {
    assert Adding(sh, t, k);
  }

  lemma AddMoves(sh: Shared, t: Thread, k: nat) returns (sh': Shared, t': Thread)
    requires SentinelsOk(sh) && AddingNow(sh, {t}, k) && t.pc != Idle && k < EMPTY_FREQ
    requires t.pc == AAlloc ==> Bit(sh, Node(k))
    ensures MovesTo(sh, 0, t, Add, Node(k), {(sh', t')}) && AddLeadsTo(sh, t, k, {(sh', t')})
  {
    assert Adding(sh, t, k);
    var r := Move(C, sh, 0, t, Add, KEY, Node(k));
    sh', t' := r.0, r.1;
    if t.pc.StartRead? || t.pc.StartStore? {
      AddStarts(sh, t, k);
    } else if t.pc.STest? {
      AddTests(sh, t, k);
    } else if t.pc.SHead? || t.pc.SCheck? || t.pc.Found? {
      AddSearches(sh, t, k);
    } else if t.pc.AAlloc? {
      AddAllocates(sh, t, k);
    } else if t.pc.AData? || t.pc.ANext? || t.pc.APersistNew? {
      AddPrepares(sh, t, k);
    } else if t.pc.ALink? || t.pc.APersistLeft? {
      AddLinks(sh, t, k);
    } else {
      AddEnds(sh, t, k);
    }
  }

  /** What thread 0 knows at the program points of the k-th remove, up to the scan in the last of them. */
  predicate Removing(sh: Shared, t: Thread, k: nat) {
    t.neu.None? &&
    if t.pc.Idle? || t.pc.Return? || t.pc.EndOp? || t.pc.RPersistLeft? then
      IsEmpty(sh) && Account(sh, t, k + 1) && k + 1 != EMPTY_FREQ
    else if t.pc.EBump? || t.pc.EScan? then Counting(sh, t, k)
    else
      Account(sh, t, k) && t.op.Remove? && t.val == KEY
      && if t.pc.StartRead? || t.pc.StartStore? then
           HasNode(sh, k) && t.key == KEY && (t.pc.StartStore? ==> t.e == sh.epoch)
         else
           ResOf(sh, 0) == At(k / EPOCH_FREQ) && (Finding(sh, t, k) || Taking(sh, t, k))
  }

  /** With the last node on its retired list. */
  predicate Counting(sh: Shared, t: Thread, k: nat) {
    && IsEmpty(sh) && t.inRemove && ResOf(sh, 0) == At(k / EPOCH_FREQ)
    && (t.list, t.counter) == (Entries(k + 1), k + 1)
    && if t.pc.EBump? then (k + 1) % EPOCH_FREQ == 0 && sh.epoch == k / EPOCH_FREQ
       else sh.epoch == (k + 1) / EPOCH_FREQ && t.i == 0 && k + 1 == EMPTY_FREQ
  }

  /** On the way to the node. */
  predicate Finding(sh: Shared, t: Thread, k: nat) {
    && (t.pc.SHead? || t.pc.STest? || t.pc.SNext? || t.pc.SCheck? || t.pc.Found?)
    && HasNode(sh, k) && t.caller.RemFind?
    && (t.pc.SHead? || t.pc.STest? || t.pc.SNext? ==> t.key == KEY)
    && (t.pc.STest? && t.t == HEAD ==> t.tn == Link(Node(k), false))
    && (t.pc.STest? && t.t != HEAD ==> t.tn == Link(TAIL, false))
    && (t.pc.SNext? || (t.pc.STest? && t.t != HEAD) ==> t.t == Node(k) && t.left == HEAD && t.ln == Node(k))
    && (t.pc.SCheck? || t.pc.Found? ==> t.left == HEAD && t.right == Node(k))
  }

  /** Marking, unlinking and retiring it. */
  predicate Taking(sh: Shared, t: Thread, k: nat) {
    || ((t.pc.RRead? || t.pc.RMark?) && HasNode(sh, k) && t.left == HEAD && t.right == Node(k)
        && (t.pc.RMark? ==> t.ri == Link(TAIL, false)))
    || ((t.pc.RPersistMark? || t.pc.RSnip?) && Nxt(sh, HEAD) == Link(Node(k), false)
        && t.left == HEAD && t.right == Node(k) && t.ri == Link(TAIL, false))
    || (t.pc.EEpoch? && IsEmpty(sh) && t.cur == Node(k) && t.inRemove)
  }

  /** How far it is to the end of the remove, or to its scan. */
  function RemoveStepsLeft(t: Thread): nat {
    if t.pc.StartRead? then 20
    else if t.pc.StartStore? then 19
    else if t.pc.SHead? then 18
    else if t.pc.STest? then if t.t == HEAD then 17 else 15
    else if t.pc.SNext? then 16
    else if t.pc.SCheck? then 14
    else if t.pc.Found? then 13
    else if t.pc.RRead? then 12
    else if t.pc.RMark? then 11
    else if t.pc.RPersistMark? then 10
    else if t.pc.RSnip? then 9
    else if t.pc.EEpoch? then 8
    else if t.pc.EBump? then 7
    else if t.pc.RPersistLeft? then 3
    else if t.pc.EndOp? then 2
    else if t.pc.Return? then 1
    else 0
  }

  /** A step of the k-th remove. */
  predicate RemoveGoes(sh: Shared, t: Thread, k: nat, sh': Shared, t': Thread) {
    && Removing(sh', t', k) && RemoveStepsLeft(t') < RemoveStepsLeft(t)
    && (sh'.bit, ResOf(sh', 1), ResOf(sh', 2)) == (sh.bit, ResOf(sh, 1), ResOf(sh, 2))
  }

  ghost predicate RemovingNow(sh: Shared, ts: set<Thread>, k: nat) {
    forall t {:trigger Removing(sh, t, k)} :: t in ts ==> Removing(sh, t, k)
  }

  ghost predicate RemoveLeadsTo(sh: Shared, t: Thread, k: nat, after: set<(Shared, Thread)>) {
    forall r {:trigger RemoveGoes(sh, t, k, r.0, r.1)} :: r in after ==> RemoveGoes(sh, t, k, r.0, r.1)
  }

  lemma RemoveStarts(sh: Shared, t: Thread, k: nat)
    requires SentinelsOk(sh) && RemovingNow(sh, {t}, k) && (t.pc == StartRead || t.pc == StartStore)
    ensures RemoveLeadsTo(sh, t, k, {StartStep(sh, 0, t, Remove, KEY)})
  {
    assert Removing(sh, t, k);
  }

  lemma RemoveTests(sh: Shared, t: Thread, k: nat)
    requires SentinelsOk(sh) && RemovingNow(sh, {t}, k) && k < EMPTY_FREQ && t.pc == STest
    ensures RemoveLeadsTo(sh, t, k, {SearchStep(sh, 0, t)})
  {
    assert Removing(sh, t, k);
    NodeIsFindable(k);
    if t.t == HEAD {
      assert Advance(t) == t.(left := HEAD, ln := Node(k), path := [], t := Node(k), pc := SNext);
    } else {
      assert Decide(t, t.t) == t.(right := Node(k), pc := SCheck);
    }
  }

  lemma RemoveSearches(sh: Shared, t: Thread, k: nat)
    requires SentinelsOk(sh) && RemovingNow(sh, {t}, k) && k < EMPTY_FREQ
    requires t.pc == SHead || t.pc == SNext || t.pc == SCheck || t.pc == Found
    ensures RemoveLeadsTo(sh, t, k, {SearchStep(sh, 0, t)})
  {
    assert Removing(sh, t, k);
    NodeIsFindable(k);
  }

  lemma RemoveReads(sh: Shared, t: Thread, k: nat)
    requires SentinelsOk(sh) && RemovingNow(sh, {t}, k) && t.pc == RRead
    ensures RemoveLeadsTo(sh, t, k, {RemoveStep(sh, 0, t)})
  {
    assert Removing(sh, t, k);
  }

  lemma RemoveMarks(sh: Shared, t: Thread, k: nat)
    requires SentinelsOk(sh) && RemovingNow(sh, {t}, k) && k < EMPTY_FREQ && (t.pc == RMark || t.pc == RPersistMark)
    ensures RemoveLeadsTo(sh, t, k, {RemoveStep(sh, 0, t)})
  {
    assert Removing(sh, t, k);
    NodeIsFindable(k);
  }

  lemma RemoveUnlinks(sh: Shared, t: Thread, k: nat)
    requires SentinelsOk(sh) && RemovingNow(sh, {t}, k) && k < EMPTY_FREQ && (t.pc == RSnip || t.pc == RPersistLeft)
    ensures RemoveLeadsTo(sh, t, k, {RemoveStep(sh, 0, t)})
  {
    assert Removing(sh, t, k);
  }

  lemma NextAccount(k: nat)
    ensures Entries(k) + [Entry(Node(k), k / EPOCH_FREQ)] == Entries(k + 1)
    ensures (k + 1) / EPOCH_FREQ == k / EPOCH_FREQ + if (k + 1) % EPOCH_FREQ == 0 then 1 else 0
    ensures k < EMPTY_FREQ ==> ((k + 1) % EMPTY_FREQ == 0 <==> k + 1 == EMPTY_FREQ)
  {}

  function RetiredOne(t: Thread, k: nat): Thread {
    t.(list := Entries(k + 1), counter := k + 1, pend := if |t.pend| > 0 then t.pend[1..] else [],
       pc := if (k + 1) % EPOCH_FREQ == 0 then EBump else RPersistLeft)
  }

  lemma RetiresNode(sh: Shared, t: Thread, k: nat)
    requires Account(sh, t, k) && t.cur == Node(k) && t.inRemove && t.pc == EEpoch && k < EMPTY_FREQ
    ensures RetireStep(C, sh, 0, t) == (RetireNode(sh, 0, Node(k)), RetiredOne(t, k))
  {
    NextAccount(k);
  }

  lemma RemoveRetires(sh: Shared, t: Thread, k: nat)
    requires SentinelsOk(sh) && RemovingNow(sh, {t}, k) && k < EMPTY_FREQ && t.pc == EEpoch
    ensures RemoveLeadsTo(sh, t, k, {RetireStep(C, sh, 0, t)})
  {
    assert Removing(sh, t, k);
    NextAccount(k);
    RetiresNode(sh, t, k);
  }

  lemma RemoveBumps(sh: Shared, t: Thread, k: nat)
    requires SentinelsOk(sh) && RemovingNow(sh, {t}, k) && k < EMPTY_FREQ && t.pc == EBump
    ensures RemoveLeadsTo(sh, t, k, {RetireStep(C, sh, 0, t)})
  {
    assert Removing(sh, t, k);
    NextAccount(k);
    var (sh', t') := RetireStep(C, sh, 0, t);
    assert t' == if k + 1 == EMPTY_FREQ then t.(pc := EScan, i := 0) else t.(pc := RPersistLeft);
  }

  lemma RemoveEnds(sh: Shared, t: Thread, k: nat)
    requires SentinelsOk(sh) && RemovingNow(sh, {t}, k) && (t.pc == EndOp || t.pc == Return)
    ensures RemoveLeadsTo(sh, t, k, {EndStep(sh, 0, t)})
  {
    assert Removing(sh, t, k);
  }

  lemma RemoveMoves(sh: Shared, t: Thread, k: nat) returns (sh': Shared, t': Thread)
    requires SentinelsOk(sh) && RemovingNow(sh, {t}, k) && RemoveStepsLeft(t) > 0 && k < EMPTY_FREQ
    ensures MovesTo(sh, 0, t, Remove, 0, {(sh', t')}) && RemoveLeadsTo(sh, t, k, {(sh', t')})
  {
    assert Removing(sh, t, k);
    var r := Move(C, sh, 0, t, Remove, KEY, 0);
    sh', t' := r.0, r.1;
    if t.pc.StartRead? || t.pc.StartStore? {
      RemoveStarts(sh, t, k);
    } else if t.pc.STest? {
      RemoveTests(sh, t, k);
    } else if t.pc.SHead? || t.pc.SNext? || t.pc.SCheck? || t.pc.Found? {
      RemoveSearches(sh, t, k);
    } else if t.pc.RRead? {
      RemoveReads(sh, t, k);
    } else if t.pc.RMark? || t.pc.RPersistMark? {
      RemoveMarks(sh, t, k);
    } else if t.pc.RSnip? || t.pc.RPersistLeft? {
      RemoveUnlinks(sh, t, k);
    } else if t.pc.EEpoch? {
      RemoveRetires(sh, t, k);
    } else if t.pc.EBump? {
      RemoveBumps(sh, t, k);
    } else {
      RemoveEnds(sh, t, k);
    }
  }

  // Whole calls of thread 0.

  function Worker(s: State): Thread { if |s.th| > 0 then s.th[0] else IdleThread() }

  lemma AroundStays(s: State, s': State, n: nat, o: Bystanders, o': Bystanders)
    requires Around(s, n, o) && |s'.th| == 3 && s'.sh.bit == s.sh.bit
    requires (s'.th[1], s'.th[2], ResOf(s'.sh, 1), ResOf(s'.sh, 2)) == (o'.u, o'.w, o'.a, o'.b)
    ensures Around(s', n, o')
  {
    forall j: nat ensures IsSpare(s'.sh, n, j) {
      assert IsSpare(s.sh, n, j);
    }
  }

  lemma SentinelsOf(s: State)
    requires Reached({s})
    ensures SentinelsOk(s.sh)
  {
    ReachedIsInv(s);
    assert Inv(C, s);
  }

  /** The first slot that the k-th add has not taken. */
  function SpareFrom(pc: PC, k: nat): nat { if AddStepsLeft(pc) >= 8 then k else k + 1 }

  /** In the k-th add. */
  ghost predicate InAdd(s: State, k: nat, o: Bystanders) {
    Around(s, SpareFrom(Worker(s).pc, k), o) && Account(s.sh, Worker(s), k) && Adding(s.sh, Worker(s), k)
  }

  ghost predicate AllInAdd(ss: set<State>, k: nat, o: Bystanders) {
    forall s {:trigger InAdd(s, k, o)} :: s in ss ==> InAdd(s, k, o)
  }

  lemma AddStepsOn(s: State, k: nat) returns (s': State)
    requires Reached({s}) && |s.th| == 3 && AddingNow(s.sh, {s.th[0]}, k) && s.th[0].pc != Idle && k < EMPTY_FREQ
    requires s.th[0].pc == AAlloc ==> Bit(s.sh, Node(k))
    ensures Reached({s'}) && |s'.th| == 3 && s'.th == s.th[0 := s'.th[0]]
    ensures AddLeadsTo(s.sh, s.th[0], k, {(s'.sh, s'.th[0])})
  {
    SentinelsOf(s);
    NodeIsFindable(k);
    AddDoesNotScan(s.sh, s.th[0], k);
    var sh', t' := AddMoves(s.sh, s.th[0], k);
    OneMore(s, 0, Add, Node(k), sh', t');
    s' := State(sh', s.th[0 := t']);
  }

  lemma AddDoesNotScan(sh: Shared, t: Thread, k: nat)
    requires AddingNow(sh, {t}, k)
    ensures t.pc != EScan
  {
    assert Adding(sh, t, k);
  }

  lemma AddKeepsAround(s: State, k: nat, o: Bystanders, s': State)
    requires AllInAdd({s}, k, o) && k < EMPTY_FREQ && |s.th| == |s'.th| == 3 && s'.th == s.th[0 := s'.th[0]]
    requires AddLeadsTo(s.sh, s.th[0], k, {(s'.sh, s'.th[0])}) && SentinelsOk(s.sh)
    ensures AllInAdd({s'}, k, o) && AddStepsLeft(s'.th[0].pc) < AddStepsLeft(s.th[0].pc)
  {
    assert InAdd(s, k, o) && AddGoes(s.sh, s.th[0], k, s'.sh, s'.th[0]);
    forall j: nat ensures IsSpare(s'.sh, SpareFrom(s'.th[0].pc, k), j) {
      assert IsSpare(s.sh, SpareFrom(s.th[0].pc, k), j);
      if k < j {
        NodesGoUp(k, j);
      }
    }
  }

  lemma AddTakesStep(s: State, k: nat, o: Bystanders) returns (s': State)
    requires Reached({s}) && AllInAdd({s}, k, o) && Worker(s).pc != Idle && k < EMPTY_FREQ
    ensures Reached({s'}) && AllInAdd({s'}, k, o) && AddStepsLeft(Worker(s').pc) < AddStepsLeft(Worker(s).pc)
  {
    assert InAdd(s, k, o);
    assert IsSpare(s.sh, SpareFrom(s.th[0].pc, k), k);
    s' := AddStepsOn(s, k);
    SentinelsOf(s);
    AddKeepsAround(s, k, o, s');
  }

  lemma {:induction false} AddRuns(s: State, k: nat, o: Bystanders) returns (s': State)
    requires Reached({s}) && AllInAdd({s}, k, o) && k < EMPTY_FREQ
    ensures Reached({s'}) && AllInAdd({s'}, k, o) && Worker(s').pc == Idle
    decreases AddStepsLeft(Worker(s).pc)
  {
    s' := s;
    if Worker(s).pc != Idle {
      s' := AddTakesStep(s, k, o);
      s' := AddRuns(s', k, o);
    }
  }

  /** Before the k-th add: nothing is in the list, and k nodes are retired. */
  ghost predicate IsReady(s: State, k: nat, o: Bystanders) {
    && Around(s, k, o) && Account(s.sh, Worker(s), k) && Worker(s).pc == Idle && Worker(s).neu.None?
    && IsEmpty(s.sh)
  }

  ghost predicate ReadyToAdd(ss: set<State>, k: nat, o: Bystanders) {
    forall s {:trigger IsReady(s, k, o)} :: s in ss ==> IsReady(s, k, o)
  }

  /** After it. */
  ghost predicate HasAdded(s: State, k: nat, o: Bystanders) {
    && Around(s, k + 1, o) && Account(s.sh, Worker(s), k) && Worker(s).pc == Idle && Worker(s).neu.None?
    && HasNode(s.sh, k)
  }

  ghost predicate Added(ss: set<State>, k: nat, o: Bystanders) {
    forall s {:trigger HasAdded(s, k, o)} :: s in ss ==> HasAdded(s, k, o)
  }

  /** A thread as it makes a call. */
  function CallsOp(sh: Shared, t: Thread, op: Op): Thread {
    t.(pc := StartRead, op := op, val := KEY, key := KEY, start := if |sh.hist| > 0 then |sh.hist| - 1 else 0,
       lin := None, tries := 0, base := if sh.wins >= t.mine then sh.wins - t.mine else 0)
  }

  function Calls(s: State, p: nat, op: Op): State
    requires p < |s.th|
  {
    State(s.sh, s.th[p := CallsOp(s.sh, s.th[p], op)])
  }

  lemma CallIsMade(s: State, p: nat, op: Op)
    requires Reached({s}) && p < |s.th| && s.th[p].pc == Idle
    ensures Reached({Calls(s, p, op)})
  {
    OneMore(s, p, op, 0, s.sh, CallsOp(s.sh, s.th[p], op));
  }

  lemma AddIsCalled(s: State, k: nat, o: Bystanders) returns (s': State)
    requires Reached({s}) && ReadyToAdd({s}, k, o)
    ensures Reached({s'}) && AllInAdd({s'}, k, o)
  {
    assert IsReady(s, k, o);
    CallIsMade(s, 0, Add);
    s' := Calls(s, 0, Add);
    AroundStays(s, s', k, o, o);
  }

  lemma AddIsDone(s: State, k: nat, o: Bystanders)
    requires AllInAdd({s}, k, o) && Worker(s).pc == Idle
    ensures Added({s}, k, o)
  {
    assert InAdd(s, k, o);
  }

  lemma AddOnce(s: State, k: nat, o: Bystanders) returns (s': State)
    requires Reached({s}) && ReadyToAdd({s}, k, o) && k < EMPTY_FREQ
    ensures Reached({s'}) && Added({s'}, k, o)
  {
    s' := AddIsCalled(s, k, o);
    s' := AddRuns(s', k, o);
    AddIsDone(s', k, o);
  }

  /** In the k-th remove. */
  ghost predicate InRemove(s: State, k: nat, o: Bystanders) {
    Around(s, k + 1, o) && Removing(s.sh, Worker(s), k)
  }

  ghost predicate AllInRemove(ss: set<State>, k: nat, o: Bystanders) {
    forall s {:trigger InRemove(s, k, o)} :: s in ss ==> InRemove(s, k, o)
  }

  lemma RemoveStepsOn(s: State, k: nat) returns (s': State)
    requires Reached({s}) && |s.th| == 3 && RemovingNow(s.sh, {s.th[0]}, k) && RemoveStepsLeft(s.th[0]) > 0
    requires k < EMPTY_FREQ
    ensures Reached({s'}) && |s'.th| == 3 && s'.th == s.th[0 := s'.th[0]]
    ensures RemoveLeadsTo(s.sh, s.th[0], k, {(s'.sh, s'.th[0])})
  {
    SentinelsOf(s);
    RemoveDoesNotEndScan(s.sh, s.th[0], k);
    var sh', t' := RemoveMoves(s.sh, s.th[0], k);
    OneMore(s, 0, Remove, 0, sh', t');
    s' := State(sh', s.th[0 := t']);
  }

  lemma RemoveDoesNotEndScan(sh: Shared, t: Thread, k: nat)
    requires RemovingNow(sh, {t}, k)
    ensures t.pc != AAlloc && !ScanEnds(C, t)
  {
    assert Removing(sh, t, k);
  }

  lemma RemoveKeepsAround(s: State, k: nat, o: Bystanders, s': State)
    requires AllInRemove({s}, k, o) && |s.th| == |s'.th| == 3 && s'.th == s.th[0 := s'.th[0]]
    requires RemoveLeadsTo(s.sh, s.th[0], k, {(s'.sh, s'.th[0])})
    ensures AllInRemove({s'}, k, o) && RemoveStepsLeft(s'.th[0]) < RemoveStepsLeft(s.th[0])
  {
    assert InRemove(s, k, o) && RemoveGoes(s.sh, s.th[0], k, s'.sh, s'.th[0]);
    AroundStays(s, s', k + 1, o, o);
  }

  lemma RemoveTakesStep(s: State, k: nat, o: Bystanders) returns (s': State)
    requires Reached({s}) && AllInRemove({s}, k, o) && RemoveStepsLeft(Worker(s)) > 0 && k < EMPTY_FREQ
    ensures Reached({s'}) && AllInRemove({s'}, k, o) && RemoveStepsLeft(Worker(s')) < RemoveStepsLeft(Worker(s))
  {
    assert InRemove(s, k, o);
    s' := RemoveStepsOn(s, k);
    RemoveKeepsAround(s, k, o, s');
  }

  lemma {:induction false} RemoveRuns(s: State, k: nat, o: Bystanders) returns (s': State)
    requires Reached({s}) && AllInRemove({s}, k, o) && k < EMPTY_FREQ
    ensures Reached({s'}) && AllInRemove({s'}, k, o) && RemoveStepsLeft(Worker(s')) == 0
    decreases RemoveStepsLeft(Worker(s))
  {
    s' := s;
    if RemoveStepsLeft(Worker(s)) > 0 {
      s' := RemoveTakesStep(s, k, o);
      s' := RemoveRuns(s', k, o);
    }
  }

  lemma RemoveIsCalled(s: State, k: nat, o: Bystanders) returns (s': State)
    requires Reached({s}) && Added({s}, k, o)
    ensures Reached({s'}) && AllInRemove({s'}, k, o)
  {
    assert HasAdded(s, k, o);
    CallIsMade(s, 0, Remove);
    s' := Calls(s, 0, Remove);
    AroundStays(s, s', k + 1, o, o);
  }

  /** A remove ends, or comes to the scan of the retired list. */
  lemma RemoveOnce(s: State, k: nat, o: Bystanders) returns (s': State)
    requires Reached({s}) && Added({s}, k, o) && k < EMPTY_FREQ
    ensures Reached({s'}) && AllInRemove({s'}, k, o)
    ensures Worker(s').pc == if k + 1 == EMPTY_FREQ then EScan else Idle
  {
    s' := RemoveIsCalled(s, k, o);
    s' := RemoveRuns(s', k, o);
    EndOfRemove(s', k, o);
  }

  lemma EndOfRemove(s: State, k: nat, o: Bystanders)
    requires AllInRemove({s}, k, o) && RemoveStepsLeft(Worker(s)) == 0
    ensures Worker(s).pc == if k + 1 == EMPTY_FREQ then EScan else Idle
    ensures Worker(s).pc == Idle ==> ReadyToAdd({s}, k + 1, o)
  {
    assert InRemove(s, k, o);
  }

  // The beginning.

  function Fresh(): State {
    var next := seq(C.slots, x =>
      if x == HEAD then Link(TAIL, false) else if x == TAIL then Link(C.slots, false) else Link(0, false));
    var data := seq(C.slots, x => if x == HEAD then INT_MIN else if x == TAIL then INT_MAX else 0);
    var bit := seq(C.slots, x => x >= 2);
    var slot := seq(C.slots, x => if x >= 2 then Free else Linked);
    State(Shared(next, data, next, data, bit, 0, [Never, Never, Never], slot, 0, 0, [{}]),
          [IdleThread(), IdleThread(), IdleThread()])
  }

  /** Thread 2 in its call of contains. */
  function Waiter(): Thread {
    IdleThread().(pc := CHead, op := Contains, val := KEY, key := KEY, caller := RemFind)
  }

  /** While thread 0 adds and removes. */
  const WAITING := Bystanders(IdleThread(), Waiter(), Never, At(0))

  lemma FreshIsInit() returns (s: State)
    ensures Init(C, s)
  {
    s := Fresh();
  }

  lemma InitIsReached(s: State)
    requires Init(C, s)
    ensures Reached({s})
  {
    assert SteadyRun(C, [s]) && [s][|[s]| - 1] == s;
  }

  /** A thread that has called contains and stored its reservation. */
  function Entered(sh: Shared, t: Thread): Thread {
    CallsOp(sh, t, Contains).(pc := CHead, e := sh.epoch, since := sh.snips, caller := RemFind)
  }

  lemma EpochIsRead(s: State, p: nat)
    requires Reached({s}) && p < |s.th| && s.th[p].pc == StartRead
    ensures Reached({State(s.sh, s.th[p := s.th[p].(pc := StartStore, e := s.sh.epoch)])})
  {
    OneMore(s, p, Contains, 0, s.sh, s.th[p].(pc := StartStore, e := s.sh.epoch));
  }

  function Reserves(s: State, p: nat): State
    requires p < |s.th|
  {
    State(SetRes(s.sh, p, At(s.th[p].e)), s.th[p := s.th[p].(pc := CHead, since := s.sh.snips, caller := RemFind)])
  }

  lemma EpochIsReserved(s: State, p: nat)
    requires Reached({s}) && p < |s.th| && s.th[p].pc == StartStore && s.th[p].op.Contains?
    ensures Reached({Reserves(s, p)})
  {
    OneMore(s, p, Contains, 0, SetRes(s.sh, p, At(s.th[p].e)),
            s.th[p].(pc := CHead, since := s.sh.snips, caller := RemFind));
  }

  lemma SetTwice(th: seq<Thread>, p: nat, t: Thread, t': Thread)
    requires p < |th|
    ensures th[p := t][p := t'] == th[p := t']
  {}

  lemma Enters(s: State, p: nat)
    requires Reached({s}) && p < |s.th| && s.th[p].pc == Idle
    ensures Reached({State(SetRes(s.sh, p, At(s.sh.epoch)), s.th[p := Entered(s.sh, s.th[p])])})
  {
    CallIsMade(s, p, Contains);
    var t1 := CallsOp(s.sh, s.th[p], Contains);
    var t2 := t1.(pc := StartStore, e := s.sh.epoch);
    EpochIsRead(Calls(s, p, Contains), p);
    SetTwice(s.th, p, t1, t2);
    EpochIsReserved(State(s.sh, s.th[p := t2]), p);
    SetTwice(s.th, p, t2, Entered(s.sh, s.th[p]));
  }

  /** Thread 2 reserves epoch 0. */
  lemma Opens() returns (s: State)
    ensures Reached({s}) && ReadyToAdd({s}, 0, WAITING)
  {
    s := FreshIsInit();
    InitIsReached(s);
    Enters(s, 2);
    OpenedIsReady(s);
    s := State(SetRes(s.sh, 2, At(s.sh.epoch)), s.th[2 := Entered(s.sh, s.th[2])]);
  }

  lemma OpenedIsReady(s: State)
    requires Init(C, s)
    ensures ReadyToAdd({State(SetRes(s.sh, 2, At(s.sh.epoch)), s.th[2 := Entered(s.sh, s.th[2])])}, 0, WAITING)
  {
    var s' := State(SetRes(s.sh, 2, At(s.sh.epoch)), s.th[2 := Entered(s.sh, s.th[2])]);
    forall j: nat ensures IsSpare(s'.sh, 0, j) {
      if j < EMPTY_FREQ {
        NodeIsFindable(j);
      }
    }
  }

  lemma PairOnce(s: State, k: nat, o: Bystanders) returns (s': State)
    requires Reached({s}) && ReadyToAdd({s}, k, o) && k + 1 < EMPTY_FREQ
    ensures Reached({s'}) && ReadyToAdd({s'}, k + 1, o)
  {
    s' := AddOnce(s, k, o);
    s' := RemoveOnce(s', k, o);
    EndOfRemove(s', k, o);
  }

  /** k pairs of add and remove. */
  lemma {:induction false} Pairs(s: State, k: nat, o: Bystanders) returns (s': State)
    requires Reached({s}) && ReadyToAdd({s}, 0, o) && k < EMPTY_FREQ
    ensures Reached({s'}) && ReadyToAdd({s'}, k, o)
  {
    s' := s;
    if k > 0 {
      s' := Pairs(s, k - 1, o);
      s' := PairOnce(s', k - 1, o);
    }
  }
}
