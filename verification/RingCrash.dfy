/** Which crashes of the ring leave what recovery needs. An announced position is stale from the moment it
    is first written, before the ticket is drawn, until it is written again with the ticket. Where no thread
    stands in between, the recomputed positions are in order and the saved positions lie within a round. */
module RingCrash {
  import opened Ring
  import opened RingSafety
  import opened RingRecovery

  /** Ticket t has been drawn, and nobody keeps it any more. */
  ghost predicate Released(side: Side, t: nat) {
    t < side.next && forall k: nat :: !KeepsTicket(side, k, t)
  }

  /** Kept tickets are not below the stored position, and kept by one thread each. */
  ghost predicate KeptOk(side: Side) {
    && side.last <= side.next
    && (forall k: nat, t: nat :: KeepsTicket(side, k, t) ==> side.last <= t < side.next)
    && (forall k: nat, l: nat, t: nat {:trigger KeepsTicket(side, k, t), KeepsTicket(side, l, t)} ::
          KeepsTicket(side, k, t) && KeepsTicket(side, l, t) ==> k == l)
  }

  /** A scan under way has found nothing above a ticket kept by a thread it has read. */
  ghost predicate FoundOk(side: Side, min: nat, j: nat) {
    min <= side.next && forall k: nat, t: nat :: k < j && KeepsTicket(side, k, t) ==> min <= t
  }

  ghost predicate AllFoundOk(scanning: Side, scanned: Side) {
    forall i :: 0 <= i < |scanning.actors| && scanning.actors[i].pc == Scan ==>
      FoundOk(scanned, scanning.actors[i].min, scanning.actors[i].j)
  }

  /** Every ticket of the other side that stood in the way of ticket t is released. */
  ghost predicate WayIsFree(c: Config, r: Role, other: Side, t: nat) {
    forall u: nat {:trigger Released(other, u)} :: u + Distance(c, r) <= t ==> Released(other, u)
  }

  ghost predicate WaysOk(c: Config, r: Role, me: Side, other: Side) {
    && (forall i :: 0 <= i < |me.actors| && me.actors[i].pc == Copy ==> WayIsFree(c, r, other, me.actors[i].ticket))
    && (forall t: nat :: t in me.done ==> WayIsFree(c, r, other, t))
  }

  predicate Saves(side: Side, k: nat, t: nat) { k < |side.pos| && side.pos[k] == At(t) }

  /** Saved tickets are finished, saved by one thread each, and kept by no other. */
  ghost predicate SavedOk(side: Side) {
    && |side.pos| == |side.actors|
    && (forall k: nat, t: nat :: Saves(side, k, t) ==> t in side.done)
    && (forall k: nat, l: nat, t: nat {:trigger Saves(side, k, t), Saves(side, l, t)} ::
          Saves(side, k, t) && Saves(side, l, t) ==> k == l)
    && (forall k: nat, l: nat, t: nat {:trigger Saves(side, k, t), KeepsTicket(side, l, t)} ::
          Saves(side, k, t) && KeepsTicket(side, l, t) ==> k == l)
  }

  ghost predicate CrashInv(c: Config, s: State) {
    && Inv(c, s)
    && KeptOk(s.push) && KeptOk(s.pop)
    && AllFoundOk(s.push, s.pop) && AllFoundOk(s.pop, s.push)
    && WaysOk(c, Push, s.push, s.pop) && WaysOk(c, Pop, s.pop, s.push)
    && SavedOk(s.push) && SavedOk(s.pop)
  }

  // Steps.

  /** How a step of thread i changes who keeps what on its own side. */
  ghost predicate KeepChange(me: Side, me': Side, i: nat) {
    && |me'.actors| == |me.actors| && me'.last == me.last && me.next <= me'.next
    && (forall k: nat, t: nat :: KeepsTicket(me', k, t) ==> KeepsTicket(me, k, t) || (k == i && t == me.next < me'.next))
    && me.done <= me'.done && (forall t <- me'.done :: t in me.done || KeepsTicket(me, i, t))
    && |me'.pos| == |me.pos|
    && (forall k: nat, t: nat :: Saves(me', k, t) ==>
          Saves(me, k, t) || (k == i && KeepsTicket(me, i, t) && me.actors[i].pc == Save))
  }

  lemma MoveKeepChange(c: Config, r: Role, me: Side, other: Side, i: nat, v: seq<int>)
    requires i < |me.actors| == |me.ann| == |me.pos| && me.actors[i].pc != Copy
    ensures KeepChange(me, MoveMine(c, r, me, other, i, v), i)
  {}

  lemma CopyKeepChange(c: Config, s: State, r: Role, i: nat)
    requires Shape(c, s) && i < |SideOf(s, r).actors| && SideOf(s, r).actors[i].pc == Copy
    ensures KeepChange(SideOf(s, r), SideOf(CopyWord(c, s, r, i), r), i)
  {
    assert KeepsTicket(SideOf(s, r), i, SideOf(s, r).actors[i].ticket);
  }

  lemma StepKeepChange(c: Config, s: State, r: Role, i: nat, v: seq<int>)
    requires Inv(c, s) && i < |SideOf(s, r).actors|
    ensures KeepChange(SideOf(s, r), SideOf(Next(c, s, r, i, v), r), i)
    ensures OtherChange(SideOf(s, Flip(r)), SideOf(Next(c, s, r, i, v), Flip(r)), SideOf(s, r).actors[i])
  {
    assert AnnouncedOk(SideOf(s, r), SideOf(s, r).actors[i], SideOf(s, r).ann[i]);
    StepKinds(c, s, r, i, v);
    if SideOf(s, r).actors[i].pc == Copy {
      CopyKeepChange(c, s, r, i);
    } else {
      MoveKeepChange(c, r, SideOf(s, r), SideOf(s, Flip(r)), i, v);
    }
  }

  lemma KeptStays(me: Side, me': Side, i: nat)
    requires KeptOk(me) && KeepChange(me, me', i)
    ensures KeptOk(me')
  {}

  lemma FoundStays(me: Side, me': Side, i: nat, min: nat, j: nat)
    requires FoundOk(me, min, j) && KeepChange(me, me', i)
    ensures FoundOk(me', min, j)
  {}

  lemma ReleasedStays(me: Side, me': Side, i: nat, t: nat)
    requires Released(me, t) && KeepChange(me, me', i)
    ensures Released(me', t)
  {
    forall k: nat ensures !KeepsTicket(me', k, t) {
      assert !KeepsTicket(me, k, t);
    }
  }

  /** A ticket whose thread saves it is finished. */
  lemma SavedIsDone(side: Side, i: nat)
    requires TicketsOk(side) && KeptOk(side) && i < |side.actors| && side.actors[i].pc == Save
    ensures side.actors[i].ticket in side.done
  {
    var t := side.actors[i].ticket;
    assert KeepsTicket(side, i, t);
    if t !in side.done {
      var k :| 0 <= k < |side.actors| && Holds(side.actors[k], t);
      assert KeepsTicket(side, k, t);
    }
  }

  lemma SavedStays(me: Side, me': Side, i: nat)
    requires TicketsOk(me) && KeptOk(me) && SavedOk(me) && KeepChange(me, me', i)
    ensures SavedOk(me')
  {
    forall k: nat, t: nat | Saves(me', k, t) ensures t in me'.done {
      if !Saves(me, k, t) {
        SavedIsDone(me, i);
      }
    }
  }

  /** Reading the next announcement: it is not above the ticket it stands for. */
  lemma ReadingFinds(side: Side, min: nat, j: nat)
    requires TicketsOk(side) && FoundOk(side, min, j) && j < |side.ann|
    ensures FoundOk(side, MinPos(min, side.ann[j]), j + 1)
  {
    assert AnnouncedOk(side, side.actors[j], side.ann[j]);
  }

  lemma StoringFinds(side: Side, min: nat)
    requires KeptOk(side) && FoundOk(side, min, |side.actors|)
    ensures KeptOk(side.(last := min))
  {
    var side' := side.(last := min);
    forall k: nat, t: nat | KeepsTicket(side', k, t) ensures min <= t < side'.next {
      assert KeepsTicket(side, k, t);
    }
    forall k: nat, l: nat, t: nat | KeepsTicket(side', k, t) && KeepsTicket(side', l, t) ensures k == l {
      assert KeepsTicket(side, k, t) && KeepsTicket(side, l, t);
    }
  }

  lemma LastIsIrrelevant(side: Side, last: nat)
    ensures forall k: nat, t: nat :: KeepsTicket(side.(last := last), k, t) == KeepsTicket(side, k, t)
    ensures forall k: nat, t: nat :: Saves(side.(last := last), k, t) == Saves(side, k, t)
    ensures forall t: nat {:trigger Released(side, t)} :: Released(side.(last := last), t) == Released(side, t)
  {
    forall t: nat ensures Released(side.(last := last), t) == Released(side, t) {
      assert forall k: nat :: KeepsTicket(side.(last := last), k, t) == KeepsTicket(side, k, t);
    }
  }

  lemma MineAfterStep(c: Config, s: State, r: Role, i: nat, v: seq<int>)
    requires CrashInv(c, s) && i < |SideOf(s, r).actors|
    ensures var me' := SideOf(Next(c, s, r, i, v), r);
            KeptOk(me') && SavedOk(me') && AllFoundOk(SideOf(s, Flip(r)), me')
  {
    var me, me', other := SideOf(s, r), SideOf(Next(c, s, r, i, v), r), SideOf(s, Flip(r));
    StepKeepChange(c, s, r, i, v);
    KeptStays(me, me', i);
    SavedStays(me, me', i);
    forall k | 0 <= k < |other.actors| && other.actors[k].pc == Scan
      ensures FoundOk(me', other.actors[k].min, other.actors[k].j)
    {
      FoundStays(me, me', i, other.actors[k].min, other.actors[k].j);
    }
  }

  lemma MoveFinds(c: Config, r: Role, me: Side, other: Side, i: nat, v: seq<int>)
    requires i < |me.actors| == |me.ann| == |me.pos| && TicketsOk(other) && AllFoundOk(me, other)
    ensures var a, a' := me.actors[i], MoveMine(c, r, me, other, i, v).actors[i];
            a'.pc == Scan ==> FoundOk(other, a'.min, a'.j) && MoveOther(a, other) == other
  {
    MoveScans(c, r, me, other, i, v);
    var a := me.actors[i];
    if a.pc == Scan && a.j < |other.ann| {
      ReadingFinds(other, a.min, a.j);
    }
  }

  /** What a thread's scan knows after its step. */
  lemma ScanAfterStep(c: Config, s: State, r: Role, i: nat, v: seq<int>)
    requires CrashInv(c, s) && i < |SideOf(s, r).actors|
    ensures var s' := Next(c, s, r, i, v);
            |SideOf(s', r).actors| == |SideOf(s, r).actors| &&
            (SideOf(s', r).actors[i].pc == Scan ==>
               FoundOk(SideOf(s', Flip(r)), SideOf(s', r).actors[i].min, SideOf(s', r).actors[i].j))
  {
    if SideOf(s, r).actors[i].pc == Copy {
      NextCopies(c, s, r, i, v);
    } else {
      NextMoves(c, s, r, i, v);
      MoveFinds(c, r, SideOf(s, r), SideOf(s, Flip(r)), i, v);
    }
  }

  lemma OtherAfterStep(c: Config, s: State, r: Role, i: nat, v: seq<int>)
    requires CrashInv(c, s) && i < |SideOf(s, r).actors|
    ensures KeptOk(SideOf(Next(c, s, r, i, v), Flip(r)))
  {
    var a, other := SideOf(s, r).actors[i], SideOf(s, Flip(r));
    StepKeepChange(c, s, r, i, v);
    if SideOf(Next(c, s, r, i, v), Flip(r)) != other {
      StoringFinds(other, a.min);
    }
  }

  lemma OtherFoundAfterStep(c: Config, s: State, r: Role, i: nat, v: seq<int>)
    requires CrashInv(c, s) && i < |SideOf(s, r).actors|
    ensures AllFoundOk(SideOf(Next(c, s, r, i, v), r), SideOf(Next(c, s, r, i, v), Flip(r)))
    ensures SavedOk(SideOf(Next(c, s, r, i, v), Flip(r)))
  {
    var s' := Next(c, s, r, i, v);
    var me, me', other, other' := SideOf(s, r), SideOf(s', r), SideOf(s, Flip(r)), SideOf(s', Flip(r));
    StepKinds(c, s, r, i, v) by {
      assert AnnouncedOk(me, me.actors[i], me.ann[i]);
    }
    ScanAfterStep(c, s, r, i, v);
    LastIsIrrelevant(other, me.actors[i].min);
    forall k | 0 <= k < |me'.actors| && me'.actors[k].pc == Scan ensures FoundOk(other', me'.actors[k].min, me'.actors[k].j) {
      if k != i {
        assert me'.actors[k] == me.actors[k] && FoundOk(other, me.actors[k].min, me.actors[k].j);
      }
    }
  }

  lemma WayStaysFree(c: Config, r: Role, other: Side, other': Side, t: nat)
    requires WayIsFree(c, r, other, t) && forall u: nat :: Released(other, u) ==> Released(other', u)
    ensures WayIsFree(c, r, other', t)
  {}

  /** A thread may copy once its ticket is below the stored position plus the distance: whatever it had to
      wait for is below the stored position, and nobody keeps that. */
  lemma PassingIsFree(c: Config, r: Role, other: Side, t: nat)
    requires KeptOk(other) && t < other.last + Distance(c, r)
    ensures WayIsFree(c, r, other, t)
  {
    forall u: nat | u + Distance(c, r) <= t ensures Released(other, u) {
      assert forall k: nat :: KeepsTicket(other, k, u) ==> other.last <= u;
    }
  }

  lemma MovePasses(c: Config, r: Role, me: Side, other: Side, i: nat, v: seq<int>)
    requires i < |me.actors| == |me.ann| == |me.pos| && me.actors[i].pc != Copy
    ensures var a' := MoveMine(c, r, me, other, i, v).actors[i];
            a'.pc == Copy ==> a'.ticket < other.last + Distance(c, r)
  {}

  /** A thread reaches its copy phase only past its gate. */
  lemma CopyIsFree(c: Config, s: State, r: Role, i: nat, v: seq<int>)
    requires CrashInv(c, s) && i < |SideOf(s, r).actors|
    ensures |SideOf(Next(c, s, r, i, v), r).actors| == |SideOf(s, r).actors|
    ensures var a := SideOf(Next(c, s, r, i, v), r).actors[i];
            a.pc == Copy ==> WayIsFree(c, r, SideOf(s, Flip(r)), a.ticket)
  {
    var a, me, other := SideOf(Next(c, s, r, i, v), r).actors[i], SideOf(s, r), SideOf(s, Flip(r));
    if me.actors[i].pc == Copy {
      NextCopies(c, s, r, i, v);
    } else if a.pc == Copy {
      NextMoves(c, s, r, i, v);
      MovePasses(c, r, me, other, i, v);
      PassingIsFree(c, r, other, a.ticket);
    }
  }

  lemma MyWaysAfterStep(c: Config, s: State, r: Role, i: nat, v: seq<int>)
    requires CrashInv(c, s) && i < |SideOf(s, r).actors|
    ensures WaysOk(c, r, SideOf(Next(c, s, r, i, v), r), SideOf(s, Flip(r)))
  {
    var me, me', other := SideOf(s, r), SideOf(Next(c, s, r, i, v), r), SideOf(s, Flip(r));
    assert AnnouncedOk(me, me.actors[i], me.ann[i]);
    StepKinds(c, s, r, i, v);
    CopyIsFree(c, s, r, i, v);
    forall k | 0 <= k < |me'.actors| && me'.actors[k].pc == Copy ensures WayIsFree(c, r, other, me'.actors[k].ticket) {
      assert k != i ==> me'.actors[k] == me.actors[k];
    }
    assert WaysOk(c, r, me, other);
  }

  lemma WaysIgnoreLast(c: Config, r: Role, me: Side, other: Side, last: nat)
    requires WaysOk(c, r, me, other)
    ensures WaysOk(c, r, me, other.(last := last))
    ensures WaysOk(c, Flip(r), other, me) ==> WaysOk(c, Flip(r), other.(last := last), me)
  {
    LastIsIrrelevant(other, last);
    forall t: nat | WayIsFree(c, r, other, t) ensures WayIsFree(c, r, other.(last := last), t) {
      WayStaysFree(c, r, other, other.(last := last), t);
    }
  }

  lemma OtherWaysAfterStep(c: Config, s: State, r: Role, i: nat, v: seq<int>)
    requires CrashInv(c, s) && i < |SideOf(s, r).actors|
    ensures WaysOk(c, Flip(r), SideOf(s, Flip(r)), SideOf(Next(c, s, r, i, v), r))
  {
    var me, me', other := SideOf(s, r), SideOf(Next(c, s, r, i, v), r), SideOf(s, Flip(r));
    StepKeepChange(c, s, r, i, v);
    forall u: nat | Released(me, u) ensures Released(me', u) {
      ReleasedStays(me, me', i, u);
    }
    forall t: nat | WayIsFree(c, Flip(r), me, t) ensures WayIsFree(c, Flip(r), me', t) {
      WayStaysFree(c, Flip(r), me, me', t);
    }
    assert WaysOk(c, Flip(r), other, me);
  }

  lemma WaysAfterStep(c: Config, s: State, r: Role, i: nat, v: seq<int>)
    requires CrashInv(c, s) && i < |SideOf(s, r).actors|
    ensures var s' := Next(c, s, r, i, v);
            WaysOk(c, r, SideOf(s', r), SideOf(s', Flip(r))) && WaysOk(c, Flip(r), SideOf(s', Flip(r)), SideOf(s', r))
  {
    var s' := Next(c, s, r, i, v);
    MyWaysAfterStep(c, s, r, i, v);
    OtherWaysAfterStep(c, s, r, i, v);
    StepKeepChange(c, s, r, i, v);
    WaysIgnoreLast(c, r, SideOf(s', r), SideOf(s, Flip(r)), SideOf(s', Flip(r)).last);
    assert SideOf(s', Flip(r)) == SideOf(s, Flip(r)).(last := SideOf(s', Flip(r)).last);
  }

  lemma StepKeepsCrashInv(c: Config, s: State, r: Role, i: nat, v: seq<int>)
    requires CrashInv(c, s) && i < |SideOf(s, r).actors| && (r.Push? ==> |v| == c.words)
    ensures CrashInv(c, Next(c, s, r, i, v))
  {
    StepKeepsInv(c, s, r, i, v);
    MineAfterStep(c, s, r, i, v);
    OtherAfterStep(c, s, r, i, v);
    OtherFoundAfterStep(c, s, r, i, v);
    WaysAfterStep(c, s, r, i, v);
    FoundByOthers(c, s, r, i, v);
  }

  /** The scans of the other side's threads go on as they are. */
  lemma FoundByOthers(c: Config, s: State, r: Role, i: nat, v: seq<int>)
    requires CrashInv(c, s) && i < |SideOf(s, r).actors|
    requires AllFoundOk(SideOf(s, Flip(r)), SideOf(Next(c, s, r, i, v), r))
    ensures AllFoundOk(SideOf(Next(c, s, r, i, v), Flip(r)), SideOf(Next(c, s, r, i, v), r))
  {
    StepKeepChange(c, s, r, i, v);
  }

  lemma {:induction false} RunsKeepCrashInv(c: Config, run: seq<State>, n: nat)
    requires Run(c, run) && n < |run|
    ensures CrashInv(c, run[n])
  {
    if n == 0 {
      InitIsInv(c, run[0]);
    } else {
      RunsKeepCrashInv(c, run, n - 1);
      assert StepAt(c, run, n);
      var r, i: nat, v :| StepBy(c, run[n - 1], r, i, v, run[n]);
      StepKeepsCrashInv(c, run[n - 1], r, i, v);
    }
  }

  // What a crash leaves.

  /** Thread k stands between announcing position m and announcing the ticket it draws, or has drawn. */
  predicate StaleAt(side: Side, k: nat, m: nat) {
    && k < |side.actors| && k < |side.ann|
    && (side.actors[k].pc == Draw || side.actors[k].pc == Publish) && side.ann[k] == At(m)
  }

  function LowestOf(side: Side): nat { Lowest(side.next, side.ann) }

  /** The recomputed position is the counter, a ticket kept, or a stale announcement. */
  lemma LowestIs(side: Side)
    requires TicketsOk(side)
    ensures LowestOf(side) == side.next || (exists k: nat :: KeepsTicket(side, k, LowestOf(side)))
            || (exists k: nat :: StaleAt(side, k, LowestOf(side)))
  {
    var m := LowestOf(side);
    if m != side.next {
      var k: nat :| k < |side.ann| && side.ann[k] == At(m);
      assert AnnouncedOk(side, side.actors[k], side.ann[k]);
      assert KeepsTicket(side, k, m) || StaleAt(side, k, m);
    }
  }

  /** It is above neither. */
  lemma LowestBounds(side: Side)
    requires TicketsOk(side)
    ensures forall k: nat, t: nat :: KeepsTicket(side, k, t) ==> LowestOf(side) <= t
    ensures forall k: nat, m: nat :: StaleAt(side, k, m) ==> LowestOf(side) <= m
  {
    forall k: nat, t: nat | KeepsTicket(side, k, t) ensures LowestOf(side) <= t {
      assert AnnouncedOk(side, side.actors[k], side.ann[k]);
    }
  }

  lemma BelowIsDone(side: Side, t: nat)
    requires TicketsOk(side) && t < LowestOf(side)
    ensures t in side.done
  {
    LowestBounds(side);
    if t !in side.done {
      assert HeldFrom(side, 0, t);
      var k :| 0 <= k < |side.actors| && RingSafety.Holds(side.actors[k], t);
      assert KeepsTicket(side, k, t);
    }
  }

  /** A released ticket is the recomputed position only if a stale announcement makes it so. */
  lemma ReleasedIsStale(side: Side)
    requires TicketsOk(side) && Released(side, LowestOf(side))
    ensures exists k: nat :: StaleAt(side, k, LowestOf(side))
  {
    LowestIs(side);
  }

  /** If ticket t of one side is finished, everything that stood in its way is below the other side's
      recomputed position, unless a stale announcement says otherwise. */
  lemma DoneIsNear(c: Config, r: Role, me: Side, other: Side, t: nat)
    requires WaysOk(c, r, me, other) && TicketsOk(other) && t in me.done
    requires forall k: nat, m: nat :: StaleAt(other, k, m) ==> t < m + Distance(c, r)
    ensures t < LowestOf(other) + Distance(c, r)
  {
    if LowestOf(other) + Distance(c, r) <= t {
      assert WayIsFree(c, r, other, t) && Released(other, LowestOf(other));
      ReleasedIsStale(other);
    }
  }

  /** No stale announcement of a push is below the recomputed tail. */
  ghost predicate StaleInOrder(s: State) {
    forall k: nat, m: nat :: StaleAt(s.push, k, m) ==> LowestOf(s.pop) <= m
  }

  /** No stale announcement of a pop is a round or more below a push that is to be moved. */
  ghost predicate StaleNearPushes(c: Config, s: State)
    requires |s.push.ann| == |s.push.pos|
  {
    forall k: nat, m: nat :: StaleAt(s.pop, k, m) ==>
      forall i :: 0 <= i < |s.push.pos| && s.push.ann[i] == Max && s.push.pos[i].At? && LowestOf(s.push) < s.push.pos[i].n ==>
        s.push.pos[i].n < m + c.size
  }

  /** No stale announcement of a pop is more than a round below the recomputed head. */
  ghost predicate StaleNearHead(c: Config, s: State) {
    forall k: nat, m: nat :: StaleAt(s.pop, k, m) ==> LowestOf(s.push) <= m + c.size
  }

  lemma InOrderIff(c: Config, s: State)
    requires CrashInv(c, s)
    ensures LowestOf(s.pop) <= LowestOf(s.push) <==> StaleInOrder(s)
  {
    LowestBounds(s.push);
    var last := LowestOf(s.push);
    if StaleInOrder(s) && last < LowestOf(s.pop) {
      BelowIsDone(s.pop, last);
      assert WayIsFree(c, Pop, s.push, last) && Released(s.push, last);
      ReleasedIsStale(s.push);
    }
  }

  lemma NearHeadIff(c: Config, s: State)
    requires CrashInv(c, s)
    ensures LowestOf(s.push) <= LowestOf(s.pop) + c.size <==> StaleNearHead(c, s)
  {
    LowestBounds(s.pop);
    var far := LowestOf(s.pop) + c.size;
    if StaleNearHead(c, s) && far < LowestOf(s.push) {
      BelowIsDone(s.push, far);
      DoneIsNear(c, Push, s.push, s.pop, far);
    }
  }

  /** The pushes to move are less than a round after the recomputed tail. */
  ghost predicate PushesNear(c: Config, s: State)
    requires |s.push.ann| == |s.push.pos|
  {
    forall i :: 0 <= i < |s.push.pos| && s.push.ann[i] == Max && s.push.pos[i].At? && LowestOf(s.push) < s.push.pos[i].n ==>
      s.push.pos[i].n < LowestOf(s.pop) + c.size
  }

  lemma NearPushesIff(c: Config, s: State)
    requires CrashInv(c, s)
    ensures PushesNear(c, s) <==> StaleNearPushes(c, s)
  {
    LowestBounds(s.pop);
    if StaleNearPushes(c, s) {
      forall i | 0 <= i < |s.push.pos| && s.push.ann[i] == Max && s.push.pos[i].At? && LowestOf(s.push) < s.push.pos[i].n
        ensures s.push.pos[i].n < LowestOf(s.pop) + c.size
      {
        assert Saves(s.push, i, s.push.pos[i].n);
        DoneIsNear(c, Push, s.push, s.pop, s.push.pos[i].n);
      }
    }
  }

  /** Exactly which crashes leave the pushes as recovery needs them, in every state of every run: those in
      which no stale announcement of a push is below the recomputed tail, and none of a pop a round or more
      below a push that is to be moved. */
  lemma CrashIsRecoverableIff(c: Config, run: seq<State>, n: nat)
    requires Run(c, run) && n < |run|
    ensures var s := run[n];
            && |s.push.ann| == |s.push.pos|
            && (Recoverable(c.size, LowestOf(s.push), LowestOf(s.pop), s.push.ann, s.push.pos)
                <==> StaleInOrder(s) && StaleNearPushes(c, s))
  {
    RunsKeepCrashInv(c, run, n);
    InOrderIff(c, run[n]);
    NearPushesIff(c, run[n]);
    SavedDiffer(run[n].push, LowestOf(run[n].push), Max);
  }

  /** And exactly which leave the recomputed positions, and with them the pops to move, in order and within a
      round. */
  lemma PopsAreMovableIff(c: Config, run: seq<State>, n: nat)
    requires Run(c, run) && n < |run|
    ensures var s := run[n];
            && |s.pop.ann| == |s.pop.pos|
            && (PopsMovable(c.size, LowestOf(s.pop), LowestOf(s.push),
                            Chosen(LowestOf(s.pop), At(LowestOf(s.push)), s.pop.ann, s.pop.pos))
                <==> StaleInOrder(s) && StaleNearHead(c, s))
  {
    RunsKeepCrashInv(c, run, n);
    InOrderIff(c, run[n]);
    NearHeadIff(c, run[n]);
    SavedDiffer(run[n].pop, LowestOf(run[n].pop), At(LowestOf(run[n].push)));
    ChosenPopsMovable(c, LowestOf(run[n].pop), LowestOf(run[n].push), run[n].pop.ann, run[n].pop.pos);
  }

  predicate NothingStale(side: Side) {
    forall k :: 0 <= k < |side.actors| ==> side.actors[k].pc != Draw && side.actors[k].pc != Publish
  }

  /** In particular those in which no announcement is stale. */
  lemma SteadyCrashIsRecoverable(c: Config, run: seq<State>, n: nat)
    requires Run(c, run) && n < |run| && NothingStale(run[n].push) && NothingStale(run[n].pop)
    ensures var push, pop := run[n].push, run[n].pop;
            && |push.ann| == |push.pos| && |pop.ann| == |pop.pos|
            && Recoverable(c.size, LowestOf(push), LowestOf(pop), push.ann, push.pos)
            && PopsMovable(c.size, LowestOf(pop), LowestOf(push), Chosen(LowestOf(pop), At(LowestOf(push)), pop.ann, pop.pos))
  {
    CrashIsRecoverableIff(c, run, n);
    PopsAreMovableIff(c, run, n);
  }

  /** Two threads never have the same ticket saved. */
  lemma SavedDiffer(side: Side, low: nat, high: Pos)
    requires SavedOk(side) && |side.ann| == |side.pos|
    ensures TicketsDiffer(low, high, side.ann, side.pos)
  {
    forall i, k | 0 <= i < k < |side.pos| && side.pos[i].At? && side.pos[k].At? ensures side.pos[i].n != side.pos[k].n {
      assert Saves(side, i, side.pos[i].n) && Saves(side, k, side.pos[k].n);
    }
  }

  lemma ChosenPopsMovable(c: Config, tail: nat, last: nat, announced: seq<Pos>, saved: seq<Pos>)
    requires |announced| == |saved| && TicketsDiffer(tail, At(last), announced, saved)
    ensures PopsMovable(c.size, tail, last, Chosen(tail, At(last), announced, saved)) <==> tail <= last <= tail + c.size
  {
    var list := Chosen(tail, At(last), announced, saved);
    forall k | 0 <= k < |list| ensures tail < list[k].ticket < last {
      ChosenQualify(tail, At(last), announced, saved, k);
    }
    forall i, j | 0 <= i < j < |list| ensures list[i].ticket < list[j].ticket {
      ChosenGoUp(tail, At(last), announced, saved, i, j);
    }
  }

  /** In every state of every run, whatever is announced, two threads of a side never have the same ticket
      saved, and every saved ticket is finished. */
  lemma SavedTicketsDiffer(c: Config, run: seq<State>, n: nat, r: Role)
    requires Run(c, run) && n < |run|
    ensures var side := SideOf(run[n], r);
            && (forall i, k :: 0 <= i < k < |side.pos| && side.pos[i].At? ==> side.pos[i] != side.pos[k])
            && (forall i :: 0 <= i < |side.pos| && side.pos[i].At? ==> side.pos[i].n in side.done)
  {
    RunsKeepCrashInv(c, run, n);
    var side := SideOf(run[n], r);
    forall i | 0 <= i < |side.pos| && side.pos[i].At? ensures side.pos[i].n in side.done {
      assert Saves(side, i, side.pos[i].n);
    }
    forall i, k | 0 <= i < k < |side.pos| && side.pos[i].At? ensures side.pos[i] != side.pos[k] {
      assert Saves(side, i, side.pos[i].n);
      assert !Saves(side, k, side.pos[i].n);
    }
  }
}
