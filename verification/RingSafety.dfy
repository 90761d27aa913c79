/** Safety of the ring over every run: tickets are sound, slots are never shared, and the pop that draws
    a ticket returns the value of the push that drew it. */
module RingSafety {
  import opened Masking
  import opened Ring

  /** The thread has drawn ticket t and not finished copying. */
  predicate Holds(a: Actor, t: nat) {
    Active(a) && a.ticket == t
  }

  predicate Active(a: Actor) {
    !(a.pc == Idle || a.pc == Read || a.pc == Announce || a.pc == Draw || a.pc == Save || a.pc == Clear)
  }

  ghost predicate HeldFrom(side: Side, j: nat, t: nat) {
    exists i :: j <= i < |side.actors| && Holds(side.actors[i], t)
  }

  /** Some time after the copy is finished the thread withdraws the announcement. Until then it keeps its
      ticket. */
  predicate Keeps(a: Actor) {
    !(a.pc == Idle || a.pc == Read || a.pc == Announce || a.pc == Draw)
  }

  predicate KeepsTicket(side: Side, k: nat, t: nat) {
    k < |side.actors| && Keeps(side.actors[k]) && side.actors[k].ticket == t
  }

  /** What the announced position says about the ticket, at each point of the protocol. */
  ghost predicate AnnouncedOk(side: Side, a: Actor, p: Pos) {
    match a.pc
    case Idle => p == Max
    case Read => p == Max
    case Announce => p == Max && a.low <= side.next
    case Draw => p == At(a.low) && a.low <= side.next
    case Publish => p.At? && p.n <= a.ticket < side.next
    case _ => p == At(a.ticket) && a.ticket < side.next
  }

  /** Every drawn ticket is finished or held by exactly one thread, every ticket below `last` is
      finished, and announced positions never exceed the ticket they stand for. */
  ghost predicate TicketsOk(side: Side) {
    && |side.ann| == |side.actors|
    && (forall t <- side.done :: t < side.next)
    && (forall t: nat :: t < side.next ==> t in side.done || HeldFrom(side, 0, t))
    && (forall i :: 0 <= i < |side.actors| ==> AnnouncedOk(side, side.actors[i], side.ann[i]))
    && (forall i, t :: 0 <= i < |side.actors| && t in side.done ==> !Holds(side.actors[i], t))
    && (forall i, j, t {:trigger Holds(side.actors[i], t), Holds(side.actors[j], t)} ::
          0 <= i < j < |side.actors| ==> !(Holds(side.actors[i], t) && Holds(side.actors[j], t)))
    && side.last <= side.next
    && (forall t: nat :: t < side.last ==> t in side.done)
  }

  /** A scan that has read the first j announcements of `side` and found minimum `min`: every ticket
      below it is finished, or held by a thread still to be read. */
  ghost predicate ScanOk(side: Side, min: nat, j: nat) {
    && j <= |side.actors|
    && min <= side.next
    && (forall t: nat :: t < min ==> t in side.done || HeldFrom(side, j, t))
  }

  ghost predicate ScansOk(scanning: Side, scanned: Side) {
    forall i :: 0 <= i < |scanning.actors| && scanning.actors[i].pc == Scan ==>
      ScanOk(scanned, scanning.actors[i].min, scanning.actors[i].j)
  }

  /** Every ticket of the other side that had to be finished before ticket t may be served is. */
  ghost predicate Served(c: Config, r: Role, other: Side, t: nat) {
    forall u: nat :: u + Distance(c, r) <= t ==> u in other.done
  }

  ghost predicate GatesOk(c: Config, r: Role, me: Side, other: Side) {
    && (forall i :: 0 <= i < |me.actors| && me.actors[i].pc == Copy ==> Served(c, r, other, me.actors[i].ticket))
    && (forall t: nat :: t in me.done ==> Served(c, r, other, t))
  }

  /** The words a pushing thread has written, and those a popping thread has read, agree with the value
      pushed with the ticket; a finished push stays in its slot until its pop is finished. */
  ghost predicate DataOk(c: Config, s: State) {
    && Shape(c, s)
    && (forall t: nat :: t in s.pushed <==> t < s.push.next)
    && (forall t: nat :: t in s.pushed ==> |s.pushed[t]| == c.words)
    && (forall i :: 0 <= i < c.producers ==> WriterOk(c, s, s.push.actors[i]))
    && (forall i :: 0 <= i < c.consumers ==> ReaderOk(c, s, s.pop.actors[i]))
    && (forall t: nat :: t in s.push.done && t !in s.pop.done && t in s.pushed ==> Stored(c, s, t))
    && (forall t: nat :: t in s.popped <==> t in s.pop.done)
    && (forall t: nat :: t in s.popped ==> t in s.pushed && s.popped[t] == s.pushed[t])
  }

  ghost predicate Stored(c: Config, s: State, t: nat)
    requires Shape(c, s) && t in s.pushed
  {
    s.slots[SlotOf(c, t)] == s.pushed[t]
  }

  ghost predicate WriterOk(c: Config, s: State, a: Actor)
    requires Shape(c, s)
  {
    && (Active(a) ==> a.ticket in s.pushed && a.buf == s.pushed[a.ticket])
    && (a.pc == Copy ==>
          a.k < |a.buf| == c.words && s.slots[SlotOf(c, a.ticket)][..a.k] == a.buf[..a.k])
  }

  ghost predicate ReaderOk(c: Config, s: State, a: Actor)
    requires Shape(c, s)
  {
    && (a.pc == Copy ==>
          && a.ticket in s.pushed && a.k <= |s.pushed[a.ticket]|
          && a.buf == s.pushed[a.ticket][..a.k])
    && (a.pc !in {Idle, Copy, Save, Clear} ==> a.buf == [])
    && (a.pc in {Save, Clear} ==> a.ticket in s.popped && a.buf == s.popped[a.ticket])
  }

  ghost predicate Inv(c: Config, s: State) {
    && Shape(c, s)
    && TicketsOk(s.push) && TicketsOk(s.pop)
    && ScansOk(s.push, s.pop) && ScansOk(s.pop, s.push)
    && GatesOk(c, Push, s.push, s.pop) && GatesOk(c, Pop, s.pop, s.push)
    && DataOk(c, s)
  }

  /** An update of one thread of a side that neither draws nor finishes a ticket. */
  ghost predicate Quiet(side: Side, side': Side, i: nat) {
    && |side'.actors| == |side.actors| == |side.ann| == |side'.ann|
    && i < |side.actors|
    && side'.actors == side.actors[i := side'.actors[i]]
    && side'.ann == side.ann[i := side'.ann[i]]
    && side'.next == side.next && side'.last == side.last && side'.done == side.done
    && Active(side'.actors[i]) == Active(side.actors[i])
    && (Active(side.actors[i]) ==> side'.actors[i].ticket == side.actors[i].ticket)
    && AnnouncedOk(side', side'.actors[i], side'.ann[i])
  }

  lemma QuietHolds(side: Side, side': Side, i: nat, j: nat, t: nat)
    requires Quiet(side, side', i) && HeldFrom(side, j, t)
    ensures HeldFrom(side', j, t)
  {
    var k :| j <= k < |side.actors| && Holds(side.actors[k], t);
    assert Holds(side'.actors[k], t);
  }

  lemma QuietKeepsTickets(side: Side, side': Side, i: nat)
    requires TicketsOk(side) && Quiet(side, side', i)
    ensures TicketsOk(side')
  {
    forall t: nat | t < side'.next && t !in side'.done ensures HeldFrom(side', 0, t) {
      QuietHolds(side, side', i, 0, t);
    }
    forall k, t | 0 <= k < |side'.actors| && t in side'.done ensures !Holds(side'.actors[k], t) {
      assert !Holds(side.actors[k], t);
    }
    forall k, l, t | 0 <= k < l < |side'.actors|
      ensures !(Holds(side'.actors[k], t) && Holds(side'.actors[l], t))
    {
      assert !(Holds(side.actors[k], t) && Holds(side.actors[l], t));
    }
  }

  lemma QuietKeepsScan(side: Side, side': Side, i: nat, min: nat, j: nat)
    requires Quiet(side, side', i) && ScanOk(side, min, j)
    ensures ScanOk(side', min, j)
  {
    forall t: nat | t < min && t !in side'.done ensures HeldFrom(side', j, t) {
      QuietHolds(side, side', i, j, t);
    }
  }

  /** Drawing a ticket. */
  ghost predicate Drawn(side: Side, side': Side, i: nat) {
    && i < |side.actors| == |side.ann|
    && side.actors[i].pc == Draw
    && side' == SetActor(side, i, side.actors[i].(pc := Publish, ticket := side.next)).(next := side.next + 1)
  }

  lemma DrawnHolds(side: Side, side': Side, i: nat, j: nat, t: nat)
    requires Drawn(side, side', i) && HeldFrom(side, j, t)
    ensures HeldFrom(side', j, t)
  {
    var k :| j <= k < |side.actors| && Holds(side.actors[k], t);
    assert Holds(side'.actors[k], t);
  }

  lemma DrawKeepsTickets(side: Side, side': Side, i: nat)
    requires TicketsOk(side) && Drawn(side, side', i)
    ensures TicketsOk(side')
  {
    forall t: nat | t < side'.next && t !in side'.done ensures HeldFrom(side', 0, t) {
      if t == side.next {
        assert Holds(side'.actors[i], t);
      } else {
        DrawnHolds(side, side', i, 0, t);
      }
    }
    forall k, t: nat | 0 <= k < |side'.actors| && Holds(side'.actors[k], t)
      ensures t !in side'.done && (k != i ==> t < side.next)
    {
      if k != i {
        assert Holds(side.actors[k], t);
        assert AnnouncedOk(side, side.actors[k], side.ann[k]);
      }
    }
    forall k, l, t | 0 <= k < l < |side'.actors|
      ensures !(Holds(side'.actors[k], t) && Holds(side'.actors[l], t))
    {
      assert !(Holds(side.actors[k], t) && Holds(side.actors[l], t));
    }
    forall k | 0 <= k < |side'.actors| ensures AnnouncedOk(side', side'.actors[k], side'.ann[k]) {
      assert AnnouncedOk(side, side.actors[k], side.ann[k]);
    }
  }

  lemma DrawKeepsScan(side: Side, side': Side, i: nat, min: nat, j: nat)
    requires Drawn(side, side', i) && ScanOk(side, min, j)
    ensures ScanOk(side', min, j)
  {
    forall t: nat | t < min && t !in side'.done ensures HeldFrom(side', j, t) {
      DrawnHolds(side, side', i, j, t);
    }
  }

  /** Copying the last word of a ticket. */
  ghost predicate Finished(side: Side, side': Side, i: nat) {
    && i < |side.actors| == |side.ann|
    && side.actors[i].pc == Copy
    && |side'.actors| == |side.actors|
    && side'.actors == side.actors[i := side'.actors[i]]
    && side'.actors[i].pc == Save && side'.actors[i].ticket == side.actors[i].ticket
    && side' == side.(actors := side'.actors, done := side.done + {side.actors[i].ticket})
  }

  lemma FinishedHolds(side: Side, side': Side, i: nat, j: nat, t: nat)
    requires Finished(side, side', i) && HeldFrom(side, j, t) && t !in side'.done
    ensures HeldFrom(side', j, t)
  {
    var k :| j <= k < |side.actors| && Holds(side.actors[k], t);
    assert Holds(side'.actors[k], t);
  }

  lemma FinishKeepsTickets(side: Side, side': Side, i: nat)
    requires TicketsOk(side) && Finished(side, side', i)
    ensures TicketsOk(side')
  {
    var ticket := side.actors[i].ticket;
    assert Holds(side.actors[i], ticket);
    assert AnnouncedOk(side, side.actors[i], side.ann[i]);
    forall t: nat | t < side'.next && t !in side'.done ensures HeldFrom(side', 0, t) {
      FinishedHolds(side, side', i, 0, t);
    }
    forall k, t: nat | 0 <= k < |side'.actors| && Holds(side'.actors[k], t) ensures t !in side'.done {
      assert Holds(side.actors[k], t);
    }
    forall k, l, t | 0 <= k < l < |side'.actors|
      ensures !(Holds(side'.actors[k], t) && Holds(side'.actors[l], t))
    {
      assert !(Holds(side.actors[k], t) && Holds(side.actors[l], t));
    }
    forall k | 0 <= k < |side'.actors| ensures AnnouncedOk(side', side'.actors[k], side'.ann[k]) {
      assert AnnouncedOk(side, side.actors[k], side.ann[k]);
    }
  }

  lemma FinishKeepsScan(side: Side, side': Side, i: nat, min: nat, j: nat)
    requires Finished(side, side', i) && ScanOk(side, min, j)
    ensures ScanOk(side', min, j)
  {
    forall t: nat | t < min && t !in side'.done ensures HeldFrom(side', j, t) {
      FinishedHolds(side, side', i, j, t);
    }
  }

  /** Reading the next announcement keeps the meaning of the running minimum: a ticket it might have
      missed is announced by its holder, at or below the ticket. */
  lemma ScanReads(side: Side, min: nat, j: nat)
    requires TicketsOk(side) && ScanOk(side, min, j) && j < |side.ann|
    ensures ScanOk(side, MinPos(min, side.ann[j]), j + 1)
  {
    forall t: nat | t < MinPos(min, side.ann[j]) && t !in side.done ensures HeldFrom(side, j + 1, t) {
      var k :| j <= k < |side.actors| && Holds(side.actors[k], t);
      assert AnnouncedOk(side, side.actors[k], side.ann[k]);
    }
  }

  /** The result of a scan may overwrite `last`, however stale: all tickets below it are finished. */
  lemma ScanStores(side: Side, min: nat)
    requires TicketsOk(side) && ScanOk(side, min, |side.actors|)
    ensures TicketsOk(side.(last := min))
  {
    var side' := side.(last := min);
    forall t: nat | t < side'.next && t !in side'.done ensures HeldFrom(side', 0, t) {
      assert HeldFrom(side, 0, t);
      var k :| 0 <= k < |side.actors| && Holds(side.actors[k], t);
      assert Holds(side'.actors[k], t);
    }
    forall k | 0 <= k < |side'.actors| ensures AnnouncedOk(side', side'.actors[k], side'.ann[k]) {
      assert AnnouncedOk(side, side.actors[k], side.ann[k]);
    }
  }

  ghost predicate MineChange(me: Side, me': Side, i: nat) {
    Quiet(me, me', i) || Drawn(me, me', i) || Finished(me, me', i)
  }

  ghost predicate OtherChange(other: Side, other': Side, a: Actor) {
    other' == other || (a.pc == Scan && a.j >= |other.ann| && other' == other.(last := a.min))
  }

  lemma CopyChange(c: Config, s: State, r: Role, i: nat)
    requires Shape(c, s) && i < |SideOf(s, r).actors| && SideOf(s, r).actors[i].pc == Copy
    requires AnnouncedOk(SideOf(s, r), SideOf(s, r).actors[i], SideOf(s, r).ann[i])
    ensures MineChange(SideOf(s, r), SideOf(CopyWord(c, s, r, i), r), i)
    ensures SideOf(CopyWord(c, s, r, i), Flip(r)) == SideOf(s, Flip(r))
  {
    var me, me' := SideOf(s, r), SideOf(CopyWord(c, s, r, i), r);
    if me.actors[i].k + 1 == c.words {
      assert Finished(me, me', i);
    } else {
      assert Quiet(me, me', i);
    }
  }

  lemma MoveChange(c: Config, r: Role, me: Side, other: Side, i: nat, v: seq<int>)
    requires i < |me.actors| == |me.ann| == |me.pos| && me.actors[i].pc != Copy
    requires AnnouncedOk(me, me.actors[i], me.ann[i])
    ensures MineChange(me, MoveMine(c, r, me, other, i, v), i)
  {
    var me' := MoveMine(c, r, me, other, i, v);
    if me.actors[i].pc == Draw {
      assert Drawn(me, me', i);
    } else {
      assert Quiet(me, me', i);
    }
  }

  /** How a step changes the two sides. */
  lemma StepKinds(c: Config, s: State, r: Role, i: nat, v: seq<int>)
    requires Shape(c, s) && i < |SideOf(s, r).actors|
    requires AnnouncedOk(SideOf(s, r), SideOf(s, r).actors[i], SideOf(s, r).ann[i])
    ensures MineChange(SideOf(s, r), SideOf(Next(c, s, r, i, v), r), i)
    ensures OtherChange(SideOf(s, Flip(r)), SideOf(Next(c, s, r, i, v), Flip(r)), SideOf(s, r).actors[i])
  {
    if SideOf(s, r).actors[i].pc == Copy {
      CopyChange(c, s, r, i);
    } else {
      MoveChange(c, r, SideOf(s, r), SideOf(s, Flip(r)), i, v);
    }
  }

  lemma StepKeepsMine(c: Config, s: State, r: Role, i: nat, v: seq<int>)
    requires Inv(c, s) && i < |SideOf(s, r).actors| && (r.Push? ==> |v| == c.words)
    ensures TicketsOk(SideOf(Next(c, s, r, i, v), r))
    ensures ScansOk(SideOf(s, Flip(r)), SideOf(Next(c, s, r, i, v), r))
  {
    var me, me', other := SideOf(s, r), SideOf(Next(c, s, r, i, v), r), SideOf(s, Flip(r));
    assert AnnouncedOk(me, me.actors[i], me.ann[i]);
    StepKinds(c, s, r, i, v);
    if Quiet(me, me', i) {
      QuietKeepsTickets(me, me', i);
    } else if Drawn(me, me', i) {
      DrawKeepsTickets(me, me', i);
    } else {
      FinishKeepsTickets(me, me', i);
    }
    forall k | 0 <= k < |other.actors| && other.actors[k].pc == Scan
      ensures ScanOk(me', other.actors[k].min, other.actors[k].j)
    {
      var min, j := other.actors[k].min, other.actors[k].j;
      if Quiet(me, me', i) {
        QuietKeepsScan(me, me', i, min, j);
      } else if Drawn(me, me', i) {
        DrawKeepsScan(me, me', i, min, j);
      } else {
        FinishKeepsScan(me, me', i, min, j);
      }
    }
  }

  /** How a scan begins and goes on. */
  lemma MoveScans(c: Config, r: Role, me: Side, other: Side, i: nat, v: seq<int>)
    requires i < |me.actors| == |me.ann| == |me.pos|
    ensures var a, a' := me.actors[i], MoveMine(c, r, me, other, i, v).actors[i];
            a'.pc == Scan ==>
              if a.pc == ScanInit then a'.min == other.next && a'.j == 0
              else a.pc == Scan && a.j < |other.ann| && a'.min == MinPos(a.min, other.ann[a.j]) && a'.j == a.j + 1
  {}

  /** The two sides after a step outside the copy phase. */
  lemma NextMoves(c: Config, s: State, r: Role, i: nat, v: seq<int>)
    requires Shape(c, s) && i < |SideOf(s, r).actors| && SideOf(s, r).actors[i].pc != Copy
    ensures var s', me, other := Next(c, s, r, i, v), SideOf(s, r), SideOf(s, Flip(r));
            (SideOf(s', r), SideOf(s', Flip(r))) == (MoveMine(c, r, me, other, i, v), MoveOther(me.actors[i], other))
  {}

  lemma NextCopies(c: Config, s: State, r: Role, i: nat, v: seq<int>)
    requires Shape(c, s) && i < |SideOf(s, r).actors| && SideOf(s, r).actors[i].pc == Copy
    ensures var s', me := Next(c, s, r, i, v), SideOf(s, r);
            |SideOf(s', r).actors| == |me.actors| && SideOf(s', r).actors[i].pc != Scan
            && (SideOf(s', r).actors[i].pc == Copy ==> SideOf(s', r).actors[i].ticket == me.actors[i].ticket)
    ensures SideOf(Next(c, s, r, i, v), Flip(r)) == SideOf(s, Flip(r))
  {}

  lemma StepKeepsOther(c: Config, s: State, r: Role, i: nat, v: seq<int>)
    requires Inv(c, s) && i < |SideOf(s, r).actors| && (r.Push? ==> |v| == c.words)
    ensures TicketsOk(SideOf(Next(c, s, r, i, v), Flip(r)))
    ensures ScansOk(SideOf(Next(c, s, r, i, v), r), SideOf(Next(c, s, r, i, v), Flip(r)))
  {
    var s' := Next(c, s, r, i, v);
    var me, me', other, other' := SideOf(s, r), SideOf(s', r), SideOf(s, Flip(r)), SideOf(s', Flip(r));
    assert AnnouncedOk(me, me.actors[i], me.ann[i]);
    StepKinds(c, s, r, i, v);
    OwnScanGoesOn(c, s, r, i, v);
    forall k | 0 <= k < |me'.actors| && me'.actors[k].pc == Scan
      ensures ScanOk(other', me'.actors[k].min, me'.actors[k].j)
    {
      if k != i {
        assert me'.actors[k] == me.actors[k];
        ScanIgnoresLast(other, me.actors[i].min, me.actors[k].min, me.actors[k].j);
      }
    }
  }

  lemma MoveGoesOn(c: Config, r: Role, me: Side, other: Side, i: nat, v: seq<int>)
    requires i < |me.actors| == |me.ann| == |me.pos| && TicketsOk(other) && ScansOk(me, other)
    ensures var a, a' := me.actors[i], MoveMine(c, r, me, other, i, v).actors[i];
            TicketsOk(MoveOther(a, other)) && (a'.pc == Scan ==> ScanOk(MoveOther(a, other), a'.min, a'.j))
  {
    MoveScans(c, r, me, other, i, v);
    var a := me.actors[i];
    if a.pc == Scan {
      if a.j < |other.ann| {
        ScanReads(other, a.min, a.j);
      } else {
        ScanStores(other, a.min);
      }
    }
  }

  /** The scan of the thread that takes the step, if it scans, and what it stores. */
  lemma OwnScanGoesOn(c: Config, s: State, r: Role, i: nat, v: seq<int>)
    requires Inv(c, s) && i < |SideOf(s, r).actors|
    ensures var s' := Next(c, s, r, i, v);
            var other', a' := SideOf(s', Flip(r)), SideOf(s', r).actors;
            TicketsOk(other') && |a'| == |SideOf(s, r).actors| && (a'[i].pc == Scan ==> ScanOk(other', a'[i].min, a'[i].j))
  {
    if SideOf(s, r).actors[i].pc == Copy {
      NextCopies(c, s, r, i, v);
    } else {
      NextMoves(c, s, r, i, v);
      MoveGoesOn(c, r, SideOf(s, r), SideOf(s, Flip(r)), i, v);
    }
  }

  lemma ScanIgnoresLast(side: Side, last: nat, min: nat, j: nat)
    requires ScanOk(side, min, j)
    ensures ScanOk(side.(last := last), min, j)
  {
    forall t: nat | t < min && t !in side.done ensures HeldFrom(side.(last := last), j, t) {
      var k :| j <= k < |side.actors| && Holds(side.actors[k], t);
      assert Holds(side.(last := last).actors[k], t);
    }
  }

  lemma GatesOfMine(c: Config, r: Role, me: Side, me': Side, other: Side, i: nat)
    requires GatesOk(c, r, me, other) && MineChange(me, me', i)
    requires me'.actors[i].pc == Copy && me.actors[i].pc != Copy ==> Served(c, r, other, me'.actors[i].ticket)
    ensures GatesOk(c, r, me', other)
  {
    forall k | 0 <= k < |me'.actors| && me'.actors[k].pc == Copy
      ensures Served(c, r, other, me'.actors[k].ticket)
    {
      if k != i {
        assert me'.actors[k] == me.actors[k];
      }
    }
  }

  lemma GatesOfOther(c: Config, r: Role, me: Side, other: Side, other': Side)
    requires GatesOk(c, r, me, other) && other.done <= other'.done
    ensures GatesOk(c, r, me, other')
  {
    forall t: nat | Served(c, r, other, t) ensures Served(c, r, other', t) {}
  }

  /** A thread that leaves its wait loop has seen every ticket it must wait for finished. */
  lemma PassingIsServed(c: Config, s: State, r: Role, i: nat, v: seq<int>)
    requires Inv(c, s) && i < |SideOf(s, r).actors|
    requires SideOf(s, r).actors[i].pc != Copy && SideOf(Next(c, s, r, i, v), r).actors[i].pc == Copy
    ensures Served(c, r, SideOf(s, Flip(r)), SideOf(Next(c, s, r, i, v), r).actors[i].ticket)
  {
    var a, other := SideOf(s, r).actors[i], SideOf(s, Flip(r));
    assert a.ticket < other.last + Distance(c, r);
  }

  lemma StepKeepsGates(c: Config, s: State, r: Role, i: nat, v: seq<int>)
    requires Inv(c, s) && i < |SideOf(s, r).actors|
    ensures var s' := Next(c, s, r, i, v);
            GatesOk(c, r, SideOf(s', r), SideOf(s', Flip(r))) && GatesOk(c, Flip(r), SideOf(s', Flip(r)), SideOf(s', r))
  {
    var s' := Next(c, s, r, i, v);
    var me, me', other, other' := SideOf(s, r), SideOf(s', r), SideOf(s, Flip(r)), SideOf(s', Flip(r));
    assert AnnouncedOk(me, me.actors[i], me.ann[i]);
    StepKinds(c, s, r, i, v);
    if me'.actors[i].pc == Copy && me.actors[i].pc != Copy {
      PassingIsServed(c, s, r, i, v);
    }
    GatesOfMine(c, r, me, me', other, i);
    GatesOfOther(c, r, me', other, other');
    GatesOfOther(c, Flip(r), other, me, me');
    assert GatesOk(c, Flip(r), other', me');
  }

  lemma HoldersDiffer(side: Side, i: nat, k: nat)
    requires TicketsOk(side) && i < |side.actors| && k < |side.actors| && i != k
    requires Active(side.actors[i]) && Active(side.actors[k])
    ensures side.actors[i].ticket != side.actors[k].ticket
    ensures side.actors[i].ticket !in side.done
  {
    var t := side.actors[i].ticket;
    assert Holds(side.actors[i], t);
    if side.actors[k].ticket == t {
      assert Holds(side.actors[k], t);
    }
  }

  /** Two tickets that passed their gates share a slot only if the later one's gate saw the earlier one
      popped. */
  lemma SameSlotMeansPopped(c: Config, t: nat, u: nat, push: Side, pop: Side)
    requires ValidConfig(c) && t < u && SlotOf(c, t) == SlotOf(c, u)
    requires Served(c, Push, pop, u) && GatesOk(c, Pop, pop, push)
    ensures t in pop.done && t in push.done
  {
    SameSlotFarApart(t, u, c.size);
    assert Served(c, Pop, push, t);
  }

  /** A ticket being written shares its slot with no other ticket in its copy phase and with no stored
      one. */
  lemma SlotsExclusive(c: Config, s: State, i: nat, u: nat)
    requires Shape(c, s) && TicketsOk(s.push) && GatesOk(c, Push, s.push, s.pop) && GatesOk(c, Pop, s.pop, s.push)
    requires i < c.producers && s.push.actors[i].pc == Copy
    requires u != s.push.actors[i].ticket && u !in s.pop.done && Served(c, Push, s.pop, u)
    ensures SlotOf(c, u) != SlotOf(c, s.push.actors[i].ticket)
  {
    var t := s.push.actors[i].ticket;
    assert Holds(s.push.actors[i], t) && t !in s.push.done;
    if SlotOf(c, u) == SlotOf(c, t) {
      if u < t {
        SameSlotMeansPopped(c, u, t, s.push, s.pop);
      } else {
        SameSlotMeansPopped(c, t, u, s.push, s.pop);
      }
    }
  }

  /** A step outside the copy phase, as far as words are concerned. */
  ghost predicate NoWordMoves(c: Config, s: State, s': State, r: Role, i: nat) {
    && Shape(c, s) && Shape(c, s')
    && i < |SideOf(s, r).actors|
    && s'.slots == s.slots && s'.popped == s.popped
    && s'.push.done == s.push.done && s'.pop.done == s.pop.done
    && (forall t: nat :: t in s'.pushed <==> t < s'.push.next)
    && (forall t: nat :: t in s.pushed ==> t in s'.pushed && s'.pushed[t] == s.pushed[t])
    && (forall t: nat :: t in s'.pushed ==> |s'.pushed[t]| == c.words)
    && (forall k :: 0 <= k < c.producers && (r.Push? ==> k != i) ==> s'.push.actors[k] == s.push.actors[k])
    && (forall k :: 0 <= k < c.consumers && (r.Pop? ==> k != i) ==> s'.pop.actors[k] == s.pop.actors[k])
  }

  lemma NoWordMovesKeepsData(c: Config, s: State, s': State, r: Role, i: nat)
    requires DataOk(c, s) && NoWordMoves(c, s, s', r, i)
    requires r.Push? ==> WriterOk(c, s', s'.push.actors[i])
    requires r.Pop? ==> ReaderOk(c, s', s'.pop.actors[i])
    requires forall t :: t in s.push.done ==> t in s.pushed
    ensures DataOk(c, s')
  {
    forall k | 0 <= k < c.producers ensures WriterOk(c, s', s'.push.actors[k]) {
      assert WriterOk(c, s, s.push.actors[k]);
    }
    forall k | 0 <= k < c.consumers ensures ReaderOk(c, s', s'.pop.actors[k]) {
      assert ReaderOk(c, s, s.pop.actors[k]);
    }
    forall t: nat | t in s'.push.done && t !in s'.pop.done && t in s'.pushed ensures Stored(c, s', t) {
      assert Stored(c, s, t);
    }
  }

  lemma MoveKeepsShape(c: Config, s: State, r: Role, i: nat, v: seq<int>)
    requires Shape(c, s) && i < |SideOf(s, r).actors| && (r.Push? ==> |v| == c.words)
    requires SideOf(s, r).actors[i].pc != Copy
    ensures Shape(c, Next(c, s, r, i, v))
    ensures |SideOf(Next(c, s, r, i, v), r).actors| == |SideOf(s, r).actors|
  {
    var me, me' := SideOf(s, r), MoveMine(c, r, SideOf(s, r), SideOf(s, Flip(r)), i, v);
    assert ActorShape(c, r, me.actors[i]);
    assert ActorShape(c, r, me'.actors[i]);
  }

  lemma MoveIsNoWordMoves(c: Config, s: State, r: Role, i: nat, v: seq<int>)
    requires Shape(c, s) && i < |SideOf(s, r).actors| && (r.Push? ==> |v| == c.words)
    requires SideOf(s, r).actors[i].pc != Copy
    requires forall t: nat :: t in s.pushed <==> t < s.push.next
    requires forall t: nat :: t in s.pushed ==> |s.pushed[t]| == c.words
    ensures NoWordMoves(c, s, Next(c, s, r, i, v), r, i)
  {
    MoveKeepsShape(c, s, r, i, v);
    var me, me' := SideOf(s, r), MoveMine(c, r, SideOf(s, r), SideOf(s, Flip(r)), i, v);
    assert ActorShape(c, r, me.actors[i]);
    assert me'.actors == me.actors[i := me'.actors[i]];
  }

  lemma MoverStaysOk(c: Config, s: State, r: Role, i: nat, v: seq<int>)
    requires Inv(c, s) && i < |SideOf(s, r).actors| && (r.Push? ==> |v| == c.words)
    requires SideOf(s, r).actors[i].pc != Copy
    requires Shape(c, Next(c, s, r, i, v))
    ensures r.Push? ==> WriterOk(c, Next(c, s, r, i, v), Next(c, s, r, i, v).push.actors[i])
    ensures r.Pop? ==> ReaderOk(c, Next(c, s, r, i, v), Next(c, s, r, i, v).pop.actors[i])
  {
    var a, a' := SideOf(s, r).actors[i], SideOf(Next(c, s, r, i, v), r).actors[i];
    assert ActorShape(c, r, a);
    if r.Push? {
      assert WriterOk(c, s, a);
      assert AnnouncedOk(s.push, a, s.push.ann[i]);
    } else {
      assert ReaderOk(c, s, a);
      if a'.pc == Copy {
        PassingIsServed(c, s, r, i, v);
        assert a.ticket in s.push.done;
      }
    }
  }

  lemma DoneWasPushed(c: Config, s: State)
    requires TicketsOk(s.push) && DataOk(c, s)
    ensures forall t :: t in s.push.done ==> t in s.pushed
  {}

  /** Steps outside the copy phase move no words. */
  lemma MoveKeepsData(c: Config, s: State, r: Role, i: nat, v: seq<int>)
    requires Inv(c, s) && i < |SideOf(s, r).actors| && (r.Push? ==> |v| == c.words)
    requires SideOf(s, r).actors[i].pc != Copy
    ensures DataOk(c, Next(c, s, r, i, v))
  {
    MoveIsNoWordMoves(c, s, r, i, v);
    MoverStaysOk(c, s, r, i, v);
    DoneWasPushed(c, s);
    NoWordMovesKeepsData(c, s, Next(c, s, r, i, v), r, i);
  }

  lemma PoppedWasPushed(c: Config, s: State)
    requires GatesOk(c, Pop, s.pop, s.push)
    ensures forall t :: t in s.pop.done ==> t in s.push.done
  {
    forall t | t in s.pop.done ensures t in s.push.done {
      assert Served(c, Pop, s.push, t);
    }
  }

  /** Writing a word leaves the slots of other tickets alone. */
  lemma PushWordElsewhere(c: Config, s: State, i: nat, u: nat)
    requires Shape(c, s) && TicketsOk(s.push) && GatesOk(c, Push, s.push, s.pop) && GatesOk(c, Pop, s.pop, s.push)
    requires i < c.producers && s.push.actors[i].pc == Copy
    requires u != s.push.actors[i].ticket && u !in s.pop.done && Served(c, Push, s.pop, u)
    ensures CopyWord(c, s, Push, i).slots[SlotOf(c, u)] == s.slots[SlotOf(c, u)]
  {
    SlotsExclusive(c, s, i, u);
  }

  lemma PushWordShape(c: Config, s: State, i: nat)
    requires Shape(c, s) && i < c.producers && s.push.actors[i].pc == Copy
    ensures Shape(c, CopyWord(c, s, Push, i))
  {
    assert ActorShape(c, Push, s.push.actors[i]);
    assert ActorShape(c, Push, CopyWord(c, s, Push, i).push.actors[i]);
  }

  lemma PushWordWritten(c: Config, s: State, i: nat)
    requires DataOk(c, s) && i < c.producers && s.push.actors[i].pc == Copy
    ensures var a, s' := s.push.actors[i], CopyWord(c, s, Push, i);
            && a.k < |a.buf| == c.words && a.ticket in s.pushed && a.buf == s.pushed[a.ticket]
            && s'.slots[SlotOf(c, a.ticket)][..a.k + 1] == a.buf[..a.k + 1]
  {
    var a, s' := s.push.actors[i], CopyWord(c, s, Push, i);
    var x := SlotOf(c, a.ticket);
    assert WriterOk(c, s, a);
    assert s'.slots[x][..a.k + 1] == s.slots[x][..a.k] + [a.buf[a.k]];
    assert a.buf[..a.k + 1] == a.buf[..a.k] + [a.buf[a.k]];
  }

  lemma PushWordKeepsWriter(c: Config, s: State, i: nat, k: nat)
    requires Inv(c, s) && i < c.producers && s.push.actors[i].pc == Copy && k < c.producers
    requires Shape(c, CopyWord(c, s, Push, i))
    ensures WriterOk(c, CopyWord(c, s, Push, i), CopyWord(c, s, Push, i).push.actors[k])
  {
    PushWordWritten(c, s, i);
    assert WriterOk(c, s, s.push.actors[k]);
    if k != i && s.push.actors[k].pc == Copy {
      HoldersDiffer(s.push, k, i);
      PoppedWasPushed(c, s);
      PushWordElsewhere(c, s, i, s.push.actors[k].ticket);
    }
  }

  lemma PushWordKeepsStored(c: Config, s: State, i: nat, t: nat)
    requires Inv(c, s) && i < c.producers && s.push.actors[i].pc == Copy
    requires Shape(c, CopyWord(c, s, Push, i))
    requires t in CopyWord(c, s, Push, i).push.done && t !in s.pop.done && t in s.pushed
    ensures Stored(c, CopyWord(c, s, Push, i), t)
  {
    var s', a := CopyWord(c, s, Push, i), s.push.actors[i];
    if t == a.ticket {
      assert Holds(a, t) && t !in s.push.done;
      PushWordWritten(c, s, i);
      var slot := s'.slots[SlotOf(c, t)];
      assert slot[..c.words] == slot && a.buf[..c.words] == a.buf;
    } else {
      assert Stored(c, s, t);
      PushWordElsewhere(c, s, i, t);
    }
  }

  lemma PushWordKeepsData(c: Config, s: State, i: nat)
    requires Inv(c, s) && i < c.producers && s.push.actors[i].pc == Copy
    ensures DataOk(c, CopyWord(c, s, Push, i))
  {
    var s' := CopyWord(c, s, Push, i);
    PushWordShape(c, s, i);
    forall k | 0 <= k < c.producers ensures WriterOk(c, s', s'.push.actors[k]) {
      PushWordKeepsWriter(c, s, i, k);
    }
    forall k | 0 <= k < c.consumers ensures ReaderOk(c, s', s'.pop.actors[k]) {
      assert ReaderOk(c, s, s.pop.actors[k]);
    }
    forall t: nat | t in s'.push.done && t !in s'.pop.done && t in s'.pushed ensures Stored(c, s', t) {
      PushWordKeepsStored(c, s, i, t);
    }
  }

  lemma PopWordShape(c: Config, s: State, i: nat)
    requires Shape(c, s) && i < c.consumers && s.pop.actors[i].pc == Copy
    ensures Shape(c, CopyWord(c, s, Pop, i))
  {
    assert ActorShape(c, Pop, s.pop.actors[i]);
    assert ActorShape(c, Pop, CopyWord(c, s, Pop, i).pop.actors[i]);
  }

  /** The word read is the one pushed. */
  lemma PopWordRead(c: Config, s: State, i: nat)
    requires DataOk(c, s) && TicketsOk(s.pop) && GatesOk(c, Pop, s.pop, s.push)
    requires i < c.consumers && s.pop.actors[i].pc == Copy
    ensures var a, s' := s.pop.actors[i], CopyWord(c, s, Pop, i);
            a.ticket in s.pushed && a.k < |s.pushed[a.ticket]| == c.words &&
            s'.pop.actors[i].buf == s.pushed[a.ticket][..a.k + 1]
  {
    var a, s' := s.pop.actors[i], CopyWord(c, s, Pop, i);
    assert ReaderOk(c, s, a) && Holds(a, a.ticket);
    assert ActorShape(c, Pop, a);
    assert Served(c, Pop, s.push, a.ticket) && Stored(c, s, a.ticket);
    var val := s.pushed[a.ticket];
    assert val[..a.k + 1] == val[..a.k] + [val[a.k]];
  }

  lemma PopWordKeepsData(c: Config, s: State, i: nat)
    requires Inv(c, s) && i < c.consumers && s.pop.actors[i].pc == Copy
    ensures DataOk(c, CopyWord(c, s, Pop, i))
  {
    var s', a := CopyWord(c, s, Pop, i), s.pop.actors[i];
    PopWordShape(c, s, i);
    PopWordRead(c, s, i);
    assert s.pushed[a.ticket][..c.words] == s.pushed[a.ticket];
    forall k | 0 <= k < c.producers ensures WriterOk(c, s', s'.push.actors[k]) {
      assert WriterOk(c, s, s.push.actors[k]);
    }
    forall k | 0 <= k < c.consumers ensures ReaderOk(c, s', s'.pop.actors[k]) {
      assert ReaderOk(c, s, s.pop.actors[k]);
    }
    forall t: nat | t in s'.push.done && t !in s'.pop.done && t in s'.pushed ensures Stored(c, s', t) {
      assert Stored(c, s, t);
    }
  }

  lemma StepKeepsInv(c: Config, s: State, r: Role, i: nat, v: seq<int>)
    requires Inv(c, s) && i < |SideOf(s, r).actors| && (r.Push? ==> |v| == c.words)
    ensures Inv(c, Next(c, s, r, i, v))
  {
    StepKeepsMine(c, s, r, i, v);
    StepKeepsOther(c, s, r, i, v);
    StepKeepsGates(c, s, r, i, v);
    if SideOf(s, r).actors[i].pc != Copy {
      MoveKeepsData(c, s, r, i, v);
    } else if r.Push? {
      PushWordKeepsData(c, s, i);
    } else {
      PopWordKeepsData(c, s, i);
    }
  }

  lemma InitIsInv(c: Config, s: State)
    requires Init(c, s)
    ensures Inv(c, s)
  {}

  lemma InvIsInductive(c: Config, s: State, s': State)
    requires Inv(c, s) && Step(c, s, s')
    ensures Inv(c, s')
  {
    var r, i: nat, v :| StepBy(c, s, r, i, v, s');
    StepKeepsInv(c, s, r, i, v);
  }

  lemma {:induction false} RunsKeepInv(c: Config, run: seq<State>, n: nat)
    requires Run(c, run) && n < |run|
    ensures Inv(c, run[n])
  {
    if n == 0 {
      InitIsInv(c, run[0]);
    } else {
      RunsKeepInv(c, run, n - 1);
      assert StepAt(c, run, n);
      InvIsInductive(c, run[n - 1], run[n]);
    }
  }
}
