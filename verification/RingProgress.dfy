/** The ring cannot wedge: when every call in flight waits and both sides have one, a scan lets one
    through. */
module RingProgress {
  import opened Ring
  import opened RingSafety

  predicate Waiting(a: Actor) {
    a.pc in {Test, ScanInit, Scan, Retest}
  }

  ghost predicate AllWait(side: Side) {
    forall i :: 0 <= i < |side.actors| ==> side.actors[i].pc == Idle || Waiting(side.actors[i])
  }

  ghost predicate SomeWait(side: Side) {
    exists i :: 0 <= i < |side.actors| && Waiting(side.actors[i])
  }

  ghost predicate NoneInside(side: Side) {
    forall i :: 0 <= i < |side.actors| ==> side.actors[i].pc == Idle
  }

  /** What a scan of the first j announcements finds when nothing changes meanwhile. */
  function ScanMin(side: Side, j: nat): nat
    requires j <= |side.ann|
  {
    if j == 0 then side.next else MinPos(ScanMin(side, j - 1), side.ann[j - 1])
  }

  /** The result of a fresh find_last_head or find_last_tail. */
  function Fresh(side: Side): nat { ScanMin(side, |side.ann|) }

  lemma ShapeKept(c: Config, s: State, r: Role, i: nat, v: seq<int>)
    requires Shape(c, s) && i < |SideOf(s, r).actors| && |v| == c.words
    ensures Shape(c, Next(c, s, r, i, v))
    ensures |SideOf(Next(c, s, r, i, v), r).actors| == |SideOf(s, r).actors|
  {
    if SideOf(s, r).actors[i].pc != Copy {
      MoveKeepsShape(c, s, r, i, v);
    } else if r.Push? {
      PushWordShape(c, s, i);
    } else {
      PopWordShape(c, s, i);
    }
  }

  /** Thread i of side r runs alone for n steps. */
  ghost function Solo(c: Config, s: State, r: Role, i: nat, v: seq<int>, n: nat): (s': State)
    requires Shape(c, s) && i < |SideOf(s, r).actors| && |v| == c.words
    ensures Shape(c, s') && |SideOf(s', r).actors| == |SideOf(s, r).actors|
    decreases n
  {
    if n == 0 then s
    else
      ShapeKept(c, s, r, i, v);
      Solo(c, Next(c, s, r, i, v), r, i, v, n - 1)
  }

  ghost predicate CopiesAfter(c: Config, s: State, r: Role, i: nat, v: seq<int>, n: nat)
    requires Shape(c, s) && i < |SideOf(s, r).actors| && |v| == c.words
  {
    SideOf(Solo(c, s, r, i, v, n), r).actors[i].pc == Copy
  }

  /** Thread i of side r, running alone, gets to its copy phase. */
  ghost predicate Proceeds(c: Config, s: State, r: Role, i: nat, v: seq<int>)
    requires Shape(c, s) && i < |SideOf(s, r).actors| && |v| == c.words
  {
    exists n: nat :: CopiesAfter(c, s, r, i, v, n)
  }

  lemma ProceedsAfterStep(c: Config, s: State, s': State, r: Role, i: nat, v: seq<int>)
    requires Shape(c, s) && Shape(c, s') && i < |SideOf(s, r).actors| == |SideOf(s', r).actors| && |v| == c.words
    requires s' == Next(c, s, r, i, v) && Proceeds(c, s', r, i, v)
    ensures Proceeds(c, s, r, i, v)
  {
    var n: nat :| CopiesAfter(c, s', r, i, v, n);
    assert CopiesAfter(c, s, r, i, v, n + 1);
  }

  /** What a step inside the wait loop leaves alone. */
  lemma WaitStep(c: Config, s: State, r: Role, i: nat, v: seq<int>)
    requires Shape(c, s) && i < |SideOf(s, r).actors| && Waiting(SideOf(s, r).actors[i])
    ensures var s' := Next(c, s, r, i, v);
            var me, other, me', other' := SideOf(s, r), SideOf(s, Flip(r)), SideOf(s', r), SideOf(s', Flip(r));
            && me'.actors == me.actors[i := me'.actors[i]]
            && me'.actors[i].ticket == me.actors[i].ticket
            && (Waiting(me'.actors[i]) || me'.actors[i].pc == Copy)
            && other'.ann == other.ann && other'.next == other.next && other'.actors == other.actors
  {}

  /** In the middle of a fresh scan, or with its result just stored. */
  ghost predicate FreshlyScanned(a: Actor, other: Side) {
    && a.pc in {Scan, Retest, Copy}
    && (a.pc == Scan ==> a.j <= |other.ann| && a.min == ScanMin(other, a.j))
    && (a.pc == Retest ==> other.last == Fresh(other))
  }

  lemma FreshScanStep(c: Config, s: State, r: Role, i: nat, v: seq<int>)
    requires Shape(c, s) && i < |SideOf(s, r).actors| && Waiting(SideOf(s, r).actors[i])
    requires SideOf(s, r).actors[i].pc == ScanInit || FreshlyScanned(SideOf(s, r).actors[i], SideOf(s, Flip(r)))
    requires SideOf(s, r).actors[i].ticket < Fresh(SideOf(s, Flip(r))) + Distance(c, r)
    ensures FreshlyScanned(SideOf(Next(c, s, r, i, v), r).actors[i], SideOf(Next(c, s, r, i, v), Flip(r)))
  {
    var a, a' := SideOf(s, r).actors[i], SideOf(Next(c, s, r, i, v), r).actors[i];
    var other, other' := SideOf(s, Flip(r)), SideOf(Next(c, s, r, i, v), Flip(r));
    SameFresh(other, other', |other.ann|);
  }

  /** A pop whose ticket is below the fresh minimum, and a push whose ticket is below it plus Q_SIZE, gets
      through alone, wherever in its wait loop it is: a stale scan still under way only delays the fresh one. */
  lemma {:induction false} FreshScanPasses(c: Config, s: State, r: Role, i: nat, v: seq<int>, exact: bool)
    requires Shape(c, s) && i < |SideOf(s, r).actors| && |v| == c.words
    requires Waiting(SideOf(s, r).actors[i]) || SideOf(s, r).actors[i].pc == Copy
    requires SideOf(s, r).actors[i].ticket < Fresh(SideOf(s, Flip(r))) + if r.Push? then c.size else 0
    requires exact ==> FreshlyScanned(SideOf(s, r).actors[i], SideOf(s, Flip(r)))
    ensures Proceeds(c, s, r, i, v)
    decreases !exact, Rank(SideOf(s, r).actors[i], |SideOf(s, Flip(r)).ann|)
  {
    var a, other := SideOf(s, r).actors[i], SideOf(s, Flip(r));
    if a.pc == Copy {
      assert CopiesAfter(c, s, r, i, v, 0);
    } else {
      ShapeKept(c, s, r, i, v);
      WaitStep(c, s, r, i, v);
      var s' := Next(c, s, r, i, v);
      SameFresh(other, SideOf(s', Flip(r)), |other.ann|);
      if exact || a.pc == ScanInit {
        FreshScanStep(c, s, r, i, v);
      }
      FreshScanPasses(c, s', r, i, v, exact || a.pc == ScanInit);
      ProceedsAfterStep(c, s, s', r, i, v);
    }
  }

  function Rank(a: Actor, n: nat): nat {
    match a.pc
    case Scan => if a.j <= n then 4 + n - a.j else 4
    case Retest => 3
    case Test => 2
    case ScanInit => 1
    case _ => 0
  }

  lemma {:induction false} SameFresh(side: Side, side': Side, j: nat)
    requires j <= |side.ann| && side.ann == side'.ann && side.next == side'.next
    ensures ScanMin(side, j) == ScanMin(side', j)
  {
    if j > 0 {
      SameFresh(side, side', j - 1);
    }
  }

  /** The minimum is a lower bound of the announcements, and is attained. */
  lemma {:induction false} ScanMinIsLowest(side: Side, j: nat)
    requires j <= |side.ann|
    ensures ScanMin(side, j) <= side.next
    ensures forall k :: 0 <= k < j && side.ann[k].At? ==> ScanMin(side, j) <= side.ann[k].n
    ensures ScanMin(side, j) == side.next || exists k :: 0 <= k < j && side.ann[k] == At(ScanMin(side, j))
  {
    if j > 0 {
      ScanMinIsLowest(side, j - 1);
    }
  }

  /** When all calls inside wait, a fresh scan finds the lowest waiting ticket. */
  lemma FreshIsLowestTicket(side: Side) returns (i: nat)
    requires TicketsOk(side) && AllWait(side) && SomeWait(side)
    ensures i < |side.actors| && Waiting(side.actors[i]) && side.actors[i].ticket == Fresh(side)
    ensures forall k :: 0 <= k < |side.actors| && Waiting(side.actors[k]) ==> Fresh(side) <= side.actors[k].ticket
  {
    ScanMinIsLowest(side, |side.ann|);
    forall k | 0 <= k < |side.actors| ensures side.ann[k] == (if side.actors[k].pc == Idle then Max else At(side.actors[k].ticket))
      && (Waiting(side.actors[k]) ==> side.actors[k].ticket < side.next)
    {
      assert AnnouncedOk(side, side.actors[k], side.ann[k]);
    }
    var w :| 0 <= w < |side.actors| && Waiting(side.actors[w]);
    assert Fresh(side) < side.next;
    i :| 0 <= i < |side.ann| && side.ann[i] == At(Fresh(side));
  }

  lemma FreshWhenEmpty(side: Side)
    requires TicketsOk(side) && NoneInside(side)
    ensures Fresh(side) == side.next
  {
    ScanMinIsLowest(side, |side.ann|);
    forall k | 0 <= k < |side.ann| ensures side.ann[k] == Max {
      assert AnnouncedOk(side, side.actors[k], side.ann[k]);
    }
  }

  /** If every call in flight sits in its wait loop and both a push and a pop wait, one of them gets
      through by itself. */
  lemma CannotWedge(c: Config, s: State, v: seq<int>) returns (r: Role, i: nat)
    requires Inv(c, s) && |v| == c.words
    requires AllWait(s.push) && AllWait(s.pop) && SomeWait(s.push) && SomeWait(s.pop)
    ensures i < |SideOf(s, r).actors| && Waiting(SideOf(s, r).actors[i]) && Proceeds(c, s, r, i, v)
  {
    var p := FreshIsLowestTicket(s.push);
    var q := FreshIsLowestTicket(s.pop);
    if s.pop.actors[q].ticket < s.push.actors[p].ticket {
      r, i := Pop, q;
    } else {
      r, i := Push, p;
    }
    FreshScanPasses(c, s, r, i, v, false);
  }

  /** All waiting threads of a side have tickets the other side's counter does not reach. */
  ghost predicate OutOfReach(c: Config, r: Role, me: Side, other: Side) {
    && AllWait(me)
    && (forall i :: 0 <= i < |me.actors| && Waiting(me.actors[i]) ==> me.actors[i].ticket >= other.next + Distance(c, r))
  }

  /** Neither the stored position nor any scan under way exceeds the other side's counter. */
  ghost predicate Capped(me: Side, other: Side) {
    && other.last <= other.next
    && (forall k :: 0 <= k < |me.actors| && me.actors[k].pc == Scan ==> me.actors[k].min <= other.next)
  }

  /** Out of reach, no interleaving of the waiting threads lets anyone through. */
  lemma OutOfReachStays(c: Config, s: State, r: Role, i: nat, v: seq<int>)
    requires Shape(c, s) && i < |SideOf(s, r).actors| && Waiting(SideOf(s, r).actors[i])
    requires OutOfReach(c, r, SideOf(s, r), SideOf(s, Flip(r))) && Capped(SideOf(s, r), SideOf(s, Flip(r)))
    ensures var s' := Next(c, s, r, i, v);
            OutOfReach(c, r, SideOf(s', r), SideOf(s', Flip(r))) && Capped(SideOf(s', r), SideOf(s', Flip(r)))
    ensures Waiting(SideOf(Next(c, s, r, i, v), r).actors[i])
  {
    WaitStep(c, s, r, i, v);
  }

  lemma {:induction false} OutOfReachNeverProceeds(c: Config, s: State, r: Role, i: nat, v: seq<int>, n: nat)
    requires Shape(c, s) && i < |SideOf(s, r).actors| && |v| == c.words && Waiting(SideOf(s, r).actors[i])
    requires OutOfReach(c, r, SideOf(s, r), SideOf(s, Flip(r))) && Capped(SideOf(s, r), SideOf(s, Flip(r)))
    ensures !CopiesAfter(c, s, r, i, v, n)
    decreases n
  {
    if n > 0 {
      ShapeKept(c, s, r, i, v);
      OutOfReachStays(c, s, r, i, v);
      OutOfReachNeverProceeds(c, Next(c, s, r, i, v), r, i, v, n - 1);
    }
  }

  lemma InvIsCapped(c: Config, s: State, r: Role)
    requires Inv(c, s)
    ensures Capped(SideOf(s, r), SideOf(s, Flip(r)))
  {
    var me, other := SideOf(s, r), SideOf(s, Flip(r));
    forall k | 0 <= k < |me.actors| && me.actors[k].pc == Scan ensures me.actors[k].min <= other.next {
      assert ScanOk(other, me.actors[k].min, me.actors[k].j);
    }
  }

  ghost predicate SomeProceeds(c: Config, s: State, r: Role, v: seq<int>)
    requires Shape(c, s) && |v| == c.words
  {
    exists i :: 0 <= i < |SideOf(s, r).actors| && Waiting(SideOf(s, r).actors[i]) && Proceeds(c, s, r, i, v)
  }

  ghost predicate SomeTicketBelow(side: Side, n: nat) {
    exists i :: 0 <= i < |side.actors| && Waiting(side.actors[i]) && side.actors[i].ticket < n
  }

  lemma OneSideWaits(c: Config, s: State, r: Role, v: seq<int>)
    requires Inv(c, s) && |v| == c.words
    requires AllWait(SideOf(s, r)) && NoneInside(SideOf(s, Flip(r)))
    ensures SomeProceeds(c, s, r, v) <==>
              SomeTicketBelow(SideOf(s, r), SideOf(s, Flip(r)).next + if r.Push? then c.size else 0)
  {
    var me, other := SideOf(s, r), SideOf(s, Flip(r));
    FreshWhenEmpty(other);
    if i :| 0 <= i < |me.actors| && Waiting(me.actors[i]) && me.actors[i].ticket < other.next + Distance(c, r) {
      FreshScanPasses(c, s, r, i, v, false);
    } else {
      assert OutOfReach(c, r, me, other);
      forall k | 0 <= k < |me.actors| && Waiting(me.actors[k]) ensures !Proceeds(c, s, r, k, v) {
        InvIsCapped(c, s, r);
        forall n: nat ensures !CopiesAfter(c, s, r, k, v, n) {
          OutOfReachNeverProceeds(c, s, r, k, v, n);
        }
      }
    }
  }

  /** With pushes waiting and nobody popping, one of them gets through by itself exactly if some ticket is
      below tail_ + Q_SIZE; with pops waiting and nobody pushing, exactly if some ticket is below head_. */
  lemma OneSidedWait(c: Config, s: State, v: seq<int>)
    requires Inv(c, s) && |v| == c.words
    ensures AllWait(s.push) && NoneInside(s.pop) ==>
              (SomeProceeds(c, s, Push, v) <==> SomeTicketBelow(s.push, s.pop.next + c.size))
    ensures AllWait(s.pop) && NoneInside(s.push) ==>
              (SomeProceeds(c, s, Pop, v) <==> SomeTicketBelow(s.pop, s.push.next))
  {
    if AllWait(s.push) && NoneInside(s.pop) {
      OneSideWaits(c, s, Push, v);
    }
    if AllWait(s.pop) && NoneInside(s.push) {
      OneSideWaits(c, s, Pop, v);
    }
  }
}
