/** The lock-free list as a state machine: threads run add, remove and contains concurrently over an
    array of node slots, with epoch-based reclamation and a durable copy of every node line. Each step
    of a thread makes at most one access to shared memory. */
module ListMachine {
  import opened ListCommon

  /** LL_SIZE and MAX_THREADS. */
  datatype Config = Config(slots: nat, threads: nat)

  /** History variable: what has become of a slot. `at` counts the snips before the one that unlinked
      it, `epoch` is the epoch it was retired with. */
  datatype Slot =
    | Free
    | Private(owner: nat)
    | Linked
    | Unlinked(owner: nat, at: nat)
    | Retired(owner: nat, at: nat, epoch: nat)

  /** Shared memory. `bit` is the allocator's bitmap (set means free); `dnext` and `ddata` are what the
      node lines hold in persistent memory. History: `slot`, the number of snips, the number of
      successful CAS operations, and `hist`, the key sets the list has represented, oldest first. */
  datatype Shared = Shared(
    next: seq<Link>, data: seq<int>, dnext: seq<Link>, ddata: seq<int>,
    bit: seq<bool>, epoch: nat, res: seq<Res>,
    slot: seq<Slot>, snips: nat, wins: nat, hist: seq<set<int>>)

  datatype Op = Add | Remove | Contains

  /** Who called p_list_search. */
  datatype Caller = AddFirst | AddRetry | RemFind | RemClean

  datatype Option = None | Some(value: nat)

  datatype PC =
    | Idle | StartRead | StartStore
    | CHead | CTest | CMark | CKey | CNext
    | SHead | STest | SNext | SCheck | SCas | SPersist | SRetNext | SRecheck | Found
    | AAlloc | AData | ANext | APersistNew | ALink | APersistLeft
    | RRead | RMark | RPersistMark | RSnip | RKey | RPersistLeft
    | EEpoch | EBump | EScan | ELoad | EFree
    | EndOp | DelNew | Return

  /** Which function a program point belongs to, or which part of the operations. */
  datatype Routine = Start | Contain | Search | Insert | Delete | Retire | End

  function RoutineOf(pc: PC): Routine {
    if pc.Idle? || pc.StartRead? || pc.StartStore? then Start
    else if pc.CHead? || pc.CTest? || pc.CMark? || pc.CKey? || pc.CNext? then Contain
    else if pc.SHead? || pc.STest? || pc.SNext? || pc.SCheck? || pc.SCas? || pc.SPersist? || pc.SRetNext? || pc.SRecheck?
         || pc.Found? then Search
    else if pc.AAlloc? || pc.AData? || pc.ANext? || pc.APersistNew? || pc.ALink? || pc.APersistLeft? then Insert
    else if pc.RRead? || pc.RMark? || pc.RPersistMark? || pc.RSnip? || pc.RKey? || pc.RPersistLeft? then Delete
    else if pc.EEpoch? || pc.EBump? || pc.EScan? || pc.ELoad? || pc.EFree? then Retire
    else End
  }

  /** A thread: the call (op, val), its locals, and its retired list. History: `path`, the marked nodes
      between left_next and t; `pend`, the nodes it unlinked and has still to retire; `start`, the
      position in `hist` when it was called; `since`, the number of snips when it stored its
      reservation; `lin`, the position in `hist` where it took effect; `mine`, `seen`, `base`, `tries`,
      which count successful CAS operations and repeated iterations. */
  datatype Thread = Thread(
    pc: PC, op: Op, val: int, key: int, caller: Caller, result: bool,
    t: nat, tn: Link, left: nat, ln: nat, right: nat, ri: Link, neu: Option, cur: nat,
    e: nat, list: seq<Entry>, counter: nat, inRemove: bool, i: nat, min: Res, pos: nat,
    path: seq<nat>, pend: seq<nat>, start: nat, since: nat, lin: Option,
    mine: nat, seen: nat, base: nat, tries: nat)

  datatype State = State(sh: Shared, th: seq<Thread>)

  // Shared memory access. An index outside the array has a dummy meaning that is never used.

  function Nxt(sh: Shared, x: nat): Link { if x < |sh.next| then sh.next[x] else Link(0, false) }
  function Dat(sh: Shared, x: nat): int { if x < |sh.data| then sh.data[x] else 0 }
  function DNxt(sh: Shared, x: nat): Link { if x < |sh.dnext| then sh.dnext[x] else Link(0, false) }
  function DDat(sh: Shared, x: nat): int { if x < |sh.ddata| then sh.ddata[x] else 0 }
  function Bit(sh: Shared, x: nat): bool { x < |sh.bit| && sh.bit[x] }
  function St(sh: Shared, x: nat): Slot { if x < |sh.slot| then sh.slot[x] else Free }
  function ResOf(sh: Shared, p: nat): Res { if p < |sh.res| then sh.res[p] else Never }

  function SetNxt(sh: Shared, x: nat, l: Link): Shared {
    if x < |sh.next| then sh.(next := sh.next[x := l]) else sh
  }

  function SetDat(sh: Shared, x: nat, d: int): Shared {
    if x < |sh.data| then sh.(data := sh.data[x := d]) else sh
  }

  function SetBit(sh: Shared, x: nat, b: bool): Shared {
    if x < |sh.bit| then sh.(bit := sh.bit[x := b]) else sh
  }

  function SetSt(sh: Shared, x: nat, st: Slot): Shared {
    if x < |sh.slot| then sh.(slot := sh.slot[x := st]) else sh
  }

  function SetRes(sh: Shared, p: nat, r: Res): Shared {
    if p < |sh.res| then sh.(res := sh.res[p := r]) else sh
  }

  /** Copy one node line to persistent memory. */
  function Persist(sh: Shared, x: nat): Shared {
    if x < |sh.dnext| && x < |sh.ddata| then
      sh.(dnext := sh.dnext[x := Nxt(sh, x)], ddata := sh.ddata[x := Dat(sh, x)])
    else sh
  }

  /** The keys in the list: those of reachable, unmarked nodes between head and tail. */
  function Keys(sh: Shared): set<int> {
    set x | 0 <= x < |sh.slot| && IsMember(sh, x) :: Dat(sh, x)
  }

  predicate IsMember(sh: Shared, x: nat) {
    x != HEAD && x != TAIL && St(sh, x) == Linked && !Nxt(sh, x).mark
  }

  /** A CAS that changed the key set. */
  function Record(sh: Shared): Shared { sh.(hist := sh.hist + [Keys(sh)]) }

  function Win(sh: Shared): Shared { sh.(wins := sh.wins + 1) }

  // The memory effects of successful operations.

  function LinkNode(sh: Shared, left: nat, x: nat): Shared {
    Win(Record(SetSt(SetNxt(sh, left, Link(x, false)), x, Linked)))
  }

  function MarkNode(sh: Shared, x: nat): Shared {
    Win(Record(SetNxt(sh, x, Link(Nxt(sh, x).idx, true))))
  }

  function SnipNodes(sh: Shared, p: nat, left: nat, right: nat, path: seq<nat>): Shared {
    var slot := seq(|sh.slot|, x requires 0 <= x < |sh.slot| => if x in path then Unlinked(p, sh.snips) else sh.slot[x]);
    Win(SetNxt(sh, left, Link(right, false)).(slot := slot, snips := sh.snips + 1))
  }

  function AllocNode(sh: Shared, p: nat, x: nat): Shared { SetSt(SetBit(sh, x, false), x, Private(p)) }

  function FreeNode(sh: Shared, x: nat): Shared { SetSt(SetBit(sh, x, true), x, Free) }

  function RetireNode(sh: Shared, p: nat, x: nat): Shared {
    SetSt(sh, x, Retired(p, if St(sh, x).Unlinked? then St(sh, x).at else 0, sh.epoch))
  }

  // Thread-local helpers.

  function Others(sh: Shared, t: Thread): int { sh.wins - t.mine }

  /** Start the search of p_list_search over, after another thread interfered. */
  function Again(t: Thread): Thread { t.(pc := SHead, tries := t.tries + 1) }

  function Finish(t: Thread, result: bool): Thread { t.(pc := EndOp, result := result) }

  /** The end of the traversal: adjacent nodes, or marked nodes in between. */
  function Decide(t: Thread, right: nat): Thread {
    t.(right := right, pc := if t.ln == right then SCheck else SCas)
  }

  function RetireDone(t: Thread): Thread { t.(pc := if t.inRemove then RPersistLeft else SRetNext) }

  function AfterBump(t: Thread): Thread {
    if |t.list| % EMPTY_FREQ == 0 then t.(pc := EScan, i := 0) else RetireDone(t)
  }

  function RetireLoop(t: Thread, cur: nat): Thread {
    t.(cur := cur, pc := if cur == t.right then SRecheck else EEpoch, inRemove := false)
  }

  function Without(list: seq<Entry>, pos: nat): seq<Entry>
    requires pos < |list|
  {
    list[..pos] + list[pos + 1..]
  }

  /** The thread after list_add, before it decides how to go on. */
  function Listed(sh: Shared, t: Thread): Thread {
    t.(list := t.list + [Entry(t.cur, sh.epoch)], counter := t.counter + 1,
       pend := if |t.pend| > 0 then t.pend[1..] else [], pc := EBump)
  }

  /** How it goes on. */
  function AfterListed(t: Thread): Thread {
    if t.counter % EPOCH_FREQ == 0 then t else AfterBump(t)
  }

  /** The comparing load of get_min. */
  function Scanned(c: Config, sh: Shared, t: Thread): Thread {
    if t.i == 0 then t.(min := ResOf(sh, 0), i := 1)
    else if t.i < c.threads then
      if Less(ResOf(sh, t.i), t.min) then t.(pc := ELoad) else t.(i := t.i + 1)
    else t.(pc := EFree, pos := 0)
  }

  /** The slots the allocator can return. */
  predicate Findable(c: Config, x: nat) { x < (c.slots / 64) * 64 && InLowHalf(x) }

  // One step of thread p. `op`, `val` are the call made when idle; `x` is the slot found by the allocator.

  function StartStep(sh: Shared, p: nat, t: Thread, op: Op, val: int): (Shared, Thread) {
    if t.pc.Idle? then
      (sh, t.(pc := StartRead, op := op, val := val, key := val, start := if |sh.hist| > 0 then |sh.hist| - 1 else 0,
              lin := None, tries := 0, base := if sh.wins >= t.mine then sh.wins - t.mine else 0))
    else if t.pc.StartRead? then
      (sh, t.(pc := StartStore, e := sh.epoch))
    else
      (SetRes(sh, p, At(t.e)),
       t.(pc := if t.op.Contains? then CHead else SHead, since := sh.snips,
          caller := if t.op.Add? then AddFirst else RemFind))
  }

  function ContainsStep(sh: Shared, t: Thread): Thread {
    if t.pc.CHead? then t.(t := Nxt(sh, HEAD).idx, pc := CTest)
    else if t.pc.CTest? then
      if t.t == TAIL then Finish(t, false)
      else if Dat(sh, t.t) >= t.val then t.(pc := CMark)
      else t.(pc := CNext)
    else if t.pc.CMark? then t.(pc := if Nxt(sh, t.t).mark then CNext else CKey)
    else if t.pc.CKey? then Finish(t, Dat(sh, t.t) == t.val)
    else t.(t := Nxt(sh, t.t).idx, pc := CTest)
  }

  /** One iteration of the inner loop of p_list_search, after its condition was found true. */
  function Advance(t: Thread): Thread {
    var t' := if t.tn.mark then t.(path := t.path + [t.t], t := t.tn.idx)
              else t.(left := t.t, ln := t.tn.idx, path := [], t := t.tn.idx);
    if t.tn.idx == TAIL then Decide(t', TAIL) else t'.(pc := SNext)
  }

  function SearchStep(sh: Shared, p: nat, t: Thread): (Shared, Thread) {
    if t.pc.SHead? then
      (sh, t.(t := HEAD, tn := Nxt(sh, HEAD), pc := STest, seen := if sh.wins >= t.mine then sh.wins - t.mine else 0))
    else if t.pc.STest? then
      (sh, if t.tn.mark || Dat(sh, t.t) < t.key then Advance(t) else Decide(t, t.t))
    else if t.pc.SNext? then
      (sh, t.(tn := Nxt(sh, t.t), pc := STest))
    else if t.pc.SCheck? || t.pc.SRecheck? then
      (sh, if Nxt(sh, t.right).mark then Again(t) else t.(pc := Found))
    else if t.pc.SCas? then
      if Nxt(sh, t.left) == Link(t.ln, false) then
        (SnipNodes(sh, p, t.left, t.right, t.path), t.(pc := SPersist, pend := t.path, mine := t.mine + 1))
      else (sh, Again(t))
    else if t.pc.SPersist? then
      (Persist(sh, t.left), RetireLoop(t, t.ln))
    else if t.pc.SRetNext? then
      (sh, RetireLoop(t, Nxt(sh, t.cur).idx))
    else
      (sh, Returned(t, t.right != TAIL && Dat(sh, t.right) == t.val))
  }

  /** Where p_list_search returns to. */
  function Returned(t: Thread, present: bool): Thread {
    if t.caller.RemFind? then if present then t.(pc := RRead) else Finish(t, false)
    else if t.caller.RemClean? then Finish(t, true)
    else if present then Finish(t, false)
    else t.(pc := if t.caller.AddFirst? then AAlloc else ANext)
  }

  function AddStep(sh: Shared, p: nat, t: Thread, x: nat): (Shared, Thread) {
    var n := if t.neu.Some? then t.neu.value else 0;
    if t.pc.AAlloc? then
      if Bit(sh, x) then (AllocNode(sh, p, x), t.(pc := AData, neu := Some(x))) else (sh, t)
    else if t.pc.AData? then
      (SetDat(sh, n, t.val), t.(pc := ANext))
    else if t.pc.ANext? then
      (SetNxt(sh, n, Link(t.right, false)), t.(pc := APersistNew))
    else if t.pc.APersistNew? then
      (Persist(sh, n), t.(pc := ALink))
    else if t.pc.ALink? then
      if Nxt(sh, t.left) == Link(t.right, false) then
        (LinkNode(sh, t.left, n),
         t.(pc := APersistLeft, neu := None, mine := t.mine + 1, lin := Some(if |sh.hist| > 0 then |sh.hist| - 1 else 0)))
      else (sh, t.(pc := SHead, tries := t.tries + 1, caller := AddRetry))
    else
      (Persist(sh, t.left), Finish(t, true))
  }

  function RemoveStep(sh: Shared, p: nat, t: Thread): (Shared, Thread) {
    if t.pc.RRead? then
      (sh, if Nxt(sh, t.right).mark then Again(t) else t.(ri := Nxt(sh, t.right), pc := RMark))
    else if t.pc.RMark? then
      if Nxt(sh, t.right) == t.ri then
        (MarkNode(sh, t.right),
         t.(pc := RPersistMark, mine := t.mine + 1, lin := Some(if |sh.hist| > 0 then |sh.hist| - 1 else 0)))
      else (sh, Again(t))
    else if t.pc.RPersistMark? then
      (Persist(sh, t.right), t.(pc := RSnip))
    else if t.pc.RSnip? then
      if Nxt(sh, t.left) == Link(t.right, false) then
        (SnipNodes(sh, p, t.left, t.ri.idx, [t.right]),
         t.(pc := EEpoch, cur := t.right, pend := [t.right], inRemove := true, mine := t.mine + 1))
      else (sh, t.(pc := RKey))
    else if t.pc.RKey? then
      (sh, t.(key := Dat(sh, t.right), caller := RemClean, pc := SHead))
    else
      (Persist(sh, t.left), Finish(t, true))
  }

  function RetireStep(c: Config, sh: Shared, p: nat, t: Thread): (Shared, Thread) {
    if t.pc.EEpoch? then
      (RetireNode(sh, p, t.cur), AfterListed(Listed(sh, t)))
    else if t.pc.EBump? then
      (sh.(epoch := sh.epoch + 1), AfterBump(t))
    else if t.pc.EScan? then
      (sh, Scanned(c, sh, t))
    else if t.pc.ELoad? then
      (sh, t.(pc := EScan, min := ResOf(sh, t.i), i := t.i + 1))
    else if t.pos < |t.list| then
      if Before(t.list[t.pos].epoch, t.min) then
        (FreeNode(sh, t.list[t.pos].idx), t.(list := Without(t.list, t.pos)))
      else (sh, t.(pos := t.pos + 1))
    else (sh, RetireDone(t))
  }

  function EndStep(sh: Shared, p: nat, t: Thread): (Shared, Thread) {
    if t.pc.EndOp? then (SetRes(sh, p, Never), t.(pc := if t.neu.Some? then DelNew else Return))
    else if t.pc.DelNew? then (if t.neu.Some? then FreeNode(sh, t.neu.value) else sh, t.(pc := Return, neu := None))
    else (sh, t.(pc := Idle))
  }

  function Move(c: Config, sh: Shared, p: nat, t: Thread, op: Op, val: int, x: nat): (Shared, Thread) {
    match RoutineOf(t.pc)
    case Start => StartStep(sh, p, t, op, val)
    case Contain => (sh, ContainsStep(sh, t))
    case Search => SearchStep(sh, p, t)
    case Insert => AddStep(sh, p, t, x)
    case Delete => RemoveStep(sh, p, t)
    case Retire => RetireStep(c, sh, p, t)
    case End => EndStep(sh, p, t)
  }

  ghost predicate StepBy(c: Config, s: State, p: nat, op: Op, val: int, x: nat, s': State) {
    && p < |s.th|
    && (s.th[p].pc == Idle ==> INT_MIN < val <= INT_MAX)
    && (s.th[p].pc == AAlloc ==> Findable(c, x))
    && var (sh', t') := Move(c, s.sh, p, s.th[p], op, val, x);
       s' == State(sh', s.th[p := t'])
  }

  /** A line may reach persistent memory at any moment, without being asked to. */
  ghost predicate WriteBack(s: State, x: nat, s': State) {
    s' == s.(sh := Persist(s.sh, x))
  }

  ghost predicate Step(c: Config, s: State, s': State) {
    || (exists p, op, val, x :: StepBy(c, s, p, op, val, x, s'))
    || (exists x :: WriteBack(s, x, s'))
  }

  function IdleThread(): Thread {
    Thread(Idle, Contains, 0, 0, AddFirst, false, 0, Link(0, false), 0, 0, 0, Link(0, false), None, 0,
           0, [], 0, false, 0, Never, 0, [], [], 0, 0, None, 0, 0, 0, 0)
  }

  /** The list after init. Its last persist misses the head, whose durable link may still be the one it was
      allocated with. Other slots hold anything. */
  ghost predicate Init(c: Config, s: State) {
    && c.slots >= 2 && c.threads >= 1
    && |s.sh.next| == |s.sh.data| == |s.sh.dnext| == |s.sh.ddata| == |s.sh.bit| == |s.sh.slot| == c.slots
    && |s.sh.res| == |s.th| == c.threads
    && s.sh.data[HEAD] == INT_MIN && s.sh.data[TAIL] == INT_MAX
    && s.sh.next[HEAD] == Link(TAIL, false) && s.sh.next[TAIL] == Link(c.slots, false)
    && (s.sh.dnext[HEAD] == Link(0, false) || s.sh.dnext[HEAD] == s.sh.next[HEAD])
    && s.sh.ddata[HEAD] == s.sh.data[HEAD]
    && s.sh.dnext[TAIL] == s.sh.next[TAIL] && s.sh.ddata[TAIL] == s.sh.data[TAIL]
    && (forall x :: 0 <= x < c.slots ==> s.sh.bit[x] == (x >= 2))
    && (forall x :: 0 <= x < c.slots ==> s.sh.slot[x] == (if x >= 2 then Free else Linked))
    && (forall p :: 0 <= p < c.threads ==> s.sh.res[p] == Never && s.th[p] == IdleThread())
    && s.sh.hist == [{}] && s.sh.epoch == 0 && s.sh.snips == 0 && s.sh.wins == 0
  }

  ghost predicate Run(c: Config, run: seq<State>) {
    && |run| > 0
    && Init(c, run[0])
    && (forall n :: 0 < n < |run| ==> StepAt(c, run, n))
  }

  ghost predicate StepAt(c: Config, run: seq<State>, n: nat)
    requires 0 < n < |run|
  {
    Step(c, run[n - 1], run[n])
  }
}
