/** The recovery of the ring-buffer queue on its arrays (ring-buffer/p_rb_q_eadr.cc:128-305). */
module RingQueue {
  import opened Masking
  import opened Ring
  import opened RingRecovery
  import opened RingSurvivors

  class Queue {
    const producers: nat
    const consumers: nat
    const size: nat
    const slots: array<seq<int>>
    // Per thread: the announced positions and the saved ones.
    const heads: array<Pos>
    const tails: array<Pos>
    const posPush: array<Pos>
    const posPop: array<Pos>
    var head: nat
    var tail: nat
    var lastHead: nat
    var lastTail: nat

    ghost predicate Valid() {
      && IsPow2(size) && slots.Length == size > 0
      && heads.Length >= producers && posPush.Length >= producers
      && tails.Length >= consumers && posPop.Length >= consumers
      && heads != tails && heads != posPush && heads != posPop
      && tails != posPush && tails != posPop && posPush != posPop
    }

    method FindLastHead() returns (min: nat)
      requires Valid()
      ensures min == Lowest(head, heads[..producers])
    {
      min := head;
      for i := 0 to producers
        invariant min == Lowest(head, heads[..i])
      {
        assert heads[..i + 1][..i] == heads[..i];
        var announced := heads[i];
        if announced.At? && announced.n < min {
          min := announced.n;
        }
      }
    }

    method FindLastTail() returns (min: nat)
      requires Valid()
      ensures min == Lowest(tail, tails[..consumers])
    {
      min := tail;
      for i := 0 to consumers
        invariant min == Lowest(tail, tails[..i])
      {
        assert tails[..i + 1][..i] == tails[..i];
        var announced := tails[i];
        if announced.At? && announced.n < min {
          min := announced.n;
        }
      }
    }

    /** The pushes to move: those of threads that announce nothing and have saved a ticket above last_head_. The
        saved positions of the others are dropped. */
    method CollectPushed() returns (list: seq<Saved>)
      requires Valid()
      modifies posPush
      ensures forall x: Saved :: x in list <==> x.thread < producers && heads[x.thread] == Max
                                                && lastHead < x.ticket && old(posPush[x.thread]) == At(x.ticket)
      ensures forall i, j :: 0 <= i < j < |list| ==> list[i].thread < list[j].thread
      ensures forall i :: 0 <= i < producers ==>
                posPush[i] == if heads[i] == Max && old(posPush[i]).At? && lastHead < old(posPush[i]).n
                              then old(posPush[i]) else Max
      ensures list == Collect(lastHead, Max, heads[..producers], old(posPush[..producers]), producers)
      ensures posPush[..producers] == Cleared(lastHead, Max, heads[..producers], old(posPush[..producers]))
    {
      list := [];
      ghost var announced, saved := heads[..producers], posPush[..producers];
      for i := 0 to producers
        invariant list == Collect(lastHead, Max, announced, saved, i)
        invariant forall k :: 0 <= k < i ==> posPush[k] == Cleared(lastHead, Max, announced, saved)[k]
        invariant forall k :: i <= k < producers ==> posPush[k] == saved[k]
      {
        if Qualifies(lastHead, Max, heads[i], posPush[i]) {
          list := list + [Saved(posPush[i].n, i)];
        } else {
          posPush[i] := Max;
        }
      }
      CollectHolds(lastHead, Max, announced, saved, producers);
    }

    /** The pops to move: those of threads that announce nothing and have saved a ticket between last_tail_ and
        last_head_. The saved positions of the others are dropped. */
    method CollectPopped() returns (list: seq<Saved>)
      requires Valid()
      modifies posPop
      ensures forall x: Saved :: x in list <==> x.thread < consumers && tails[x.thread] == Max
                                                && lastTail < x.ticket < lastHead && old(posPop[x.thread]) == At(x.ticket)
      ensures forall i, j :: 0 <= i < j < |list| ==> list[i].thread < list[j].thread
      ensures forall i :: 0 <= i < consumers ==>
                posPop[i] == if tails[i] == Max && old(posPop[i]).At? && lastTail < old(posPop[i]).n < lastHead
                             then old(posPop[i]) else Max
      ensures list == Collect(lastTail, At(lastHead), tails[..consumers], old(posPop[..consumers]), consumers)
      ensures posPop[..consumers] == Cleared(lastTail, At(lastHead), tails[..consumers], old(posPop[..consumers]))
    {
      list := [];
      ghost var announced, saved := tails[..consumers], posPop[..consumers];
      for i := 0 to consumers
        invariant list == Collect(lastTail, At(lastHead), announced, saved, i)
        invariant forall k :: 0 <= k < i ==> posPop[k] == Cleared(lastTail, At(lastHead), announced, saved)[k]
        invariant forall k :: i <= k < consumers ==> posPop[k] == saved[k]
      {
        if Qualifies(lastTail, At(lastHead), tails[i], posPop[i]) {
          list := list + [Saved(posPop[i].n, i)];
        } else {
          posPop[i] := Max;
        }
      }
      CollectHolds(lastTail, At(lastHead), announced, saved, consumers);
    }

    /** The tickets from the first saved pop up to the last, one after the other, each with the thread of the
        saved pop that comes after it. */
    method ListUnpopped(pops: seq<Saved>) returns (list: seq<Saved>)
      ensures list == Between(pops, |pops|)
      ensures pops != [] && GoesUp(pops) ==> |list| == pops[|pops| - 1].ticket - pops[0].ticket
                                             && forall k :: 0 <= k < |list| ==> list[k].ticket == pops[0].ticket + k
      ensures forall k :: 0 <= k < |list| ==>
                exists j :: 0 < j < |pops| && pops[j - 1].ticket <= list[k].ticket < pops[j].ticket
                            && list[k].thread == pops[j].thread
    {
      list := [];
      if pops != [] {
        var prev := pops[0].ticket;
        for k := 1 to |pops|
          invariant prev == pops[k - 1].ticket && list == Between(pops, k)
        {
          var cur, i := pops[k].ticket, prev;
          while i < cur
            invariant prev <= i && (i <= cur || i == prev)
            invariant list == Between(pops, k) + Range(prev, i, pops[k].thread)
          {
            list := list + [Saved(i, pops[k].thread)];
            i := i + 1;
          }
          prev := cur;
        }
        if GoesUp(pops) {
          BetweenTickets(pops, |pops|);
        }
      }
      forall k | 0 <= k < |list| ensures ListedFor(pops, list[k]) {
        BetweenThreads(pops, |pops|, k);
      }
    }

    /** `n & Q_MASK` for an int. */
    method Masked(n: int) returns (x: nat)
      requires IsPow2(size)
      ensures size > 0 && x == IntSlot(size, n)
    {
      SlotIsMod(ToLong(n), size);
      x := BitAnd(ToLong(n), size - 1);
    }

    /** One copy, for a thread whose position is saved in `pos`. */
    method MoveSlot(dst: int, src: int, thread: nat, pos: array<Pos>, n: nat)
      requires Valid() && thread < n <= pos.Length
      modifies slots, pos
      ensures Mem(slots[..], pos[..n]) == CopyOne(Mem(old(slots[..]), old(pos[..n])), dst, src, thread)
    {
      ghost var before, saved := slots[..], pos[..n];
      var from := Masked(src);
      var to := Masked(dst);
      slots[to] := slots[from];
      pos[thread] := PosOf(ToLong(dst));
      assert slots[..] == before[to := before[from]];
      assert pos[..n] == saved[thread := PosOf(ToLong(dst))];
    }

    /** The in-place copy loop, of pushes or of pops. */
    method CopyList(r: Role, start: nat, list: seq<Saved>, pos: array<Pos>, n: nat)
      requires Valid() && n <= pos.Length && forall j :: 0 <= j < |list| ==> list[j].thread < n
      modifies slots, pos
      ensures Mem(slots[..], pos[..n]) == CopyFrom(Mem(old(slots[..]), old(pos[..n])), size, r, start, list, 0, 0)
    {
      var i: nat := 0;
      ghost var goal := CopyFrom(Mem(slots[..], pos[..n]), size, r, start, list, 0, 0);
      for j := 0 to |list|
        invariant i <= j && CopyLeadsTo(Mem(slots[..], pos[..n]), size, r, start, list, j, i, goal)
      {
        CopyGoesOn(Mem(slots[..], pos[..n]), size, r, start, list, j, i, goal);
        var dst, src := ToInt(if r.Push? then start + i else start - i), ToInt(list[j].ticket);
        if ToCopy(r, dst, src) {
          MoveSlot(dst, src, list[j].thread, pos, n);
          i := i + 1;
        }
      }
    }

    // What recovery starts from.

    ghost function OldLast(): nat
      reads this, heads
      requires heads.Length >= producers
    {
      Lowest(head, heads[..producers])
    }

    ghost function OldTail(): nat
      reads this, tails
      requires tails.Length >= consumers
    {
      Lowest(tail, tails[..consumers])
    }

    ghost function PushesToMove(): seq<Saved>
      reads this, heads, posPush
      requires Valid()
    {
      Chosen(OldLast(), Max, heads[..producers], posPush[..producers])
    }

    ghost function PopsToMove(): seq<Saved>
      reads this, heads, tails, posPop
      requires Valid()
    {
      Chosen(OldTail(), At(OldLast()), tails[..consumers], posPop[..consumers])
    }

    /** The slots and the saved pushes when the pushes have been moved. */
    ghost function PushesMoved(): Mem<seq<int>>
      reads this, slots, heads, posPush
      requires Valid()
    {
      PushHalf(slots[..], OldLast(), heads[..producers], posPush[..producers])
    }

    /** The slots and the saved pops when the pops have had their turn too. */
    ghost function PopsMoved(): Mem<seq<int>>
      reads this, slots, heads, tails, posPush, posPop
      requires Valid()
    {
      PopHalf(PushesMoved().slots, OldTail(), OldLast(), tails[..consumers], posPop[..consumers])
    }

    /** The push half. */
    method RecoverPushes() returns (n: nat)
      requires Valid() && lastHead == OldLast()
      modifies slots, posPush
      ensures n == |old(PushesToMove())|
      ensures Mem(slots[..], posPush[..producers]) == old(PushesMoved())
    {
      var list := CollectPushed();
      list := Sort(list);
      assert list == old(PushesToMove());
      CopyList(Push, lastHead, list, posPush, producers);
      n := |list|;
    }

    /** The pop half, from the sorted list of pops on. */
    method MovePops(pops: seq<Saved>)
      requires Valid() && forall k :: 0 <= k < |pops| ==> pops[k].thread < consumers
      modifies slots, posPop
      ensures Mem(slots[..], posPop[..consumers]) == AfterPops(Mem(old(slots[..]), old(posPop[..consumers])), size, pops)
    {
      var list := ListUnpopped(pops);
      list := Reversed(Sort(list));
      UnpoppedIsBounded(pops, 0, Highest(pops) + 1, consumers);
      CopyList(Pop, if pops == [] then 0 else pops[|pops| - 1].ticket, list, posPop, consumers);
    }

    /** The pop half. */
    method RecoverPops() returns (n: nat)
      requires Valid() && lastHead == OldLast() && lastTail == OldTail()
      modifies slots, posPop
      ensures n == |old(PopsToMove())|
      ensures Mem(slots[..], posPop[..consumers])
              == old(PopHalf(slots[..], lastTail, lastHead, tails[..consumers], posPop[..consumers]))
    {
      var pops := CollectPopped();
      pops := Sort(pops);
      assert pops == old(PopsToMove());
      MovePops(pops);
      n := |pops|;
    }

    /** The end of recover: n pushes and k pops were to be moved, and nothing is announced any more. */
    method Finish(n: nat, k: nat)
      requires Valid()
      modifies this`head, this`tail, this`lastHead, this`lastTail, heads, tails
      ensures head == lastHead == old(lastHead) + n && tail == lastTail == old(lastTail) + k
      ensures forall i :: 0 <= i < producers ==> heads[i] == Max
      ensures forall i :: 0 <= i < consumers ==> tails[i] == Max
    {
      lastHead := lastHead + n;
      head := lastHead;
      lastTail := lastTail + k;
      tail := lastTail;
      for i := 0 to producers
        invariant forall j :: 0 <= j < i ==> heads[j] == Max
        modifies heads
      {
        heads[i] := Max;
      }
      for i := 0 to consumers
        invariant forall j :: 0 <= j < i ==> tails[j] == Max
        modifies tails
      {
        tails[i] := Max;
      }
    }

    /** recover, from whatever the crash has left. */
    method Recover()
      requires Valid()
      modifies this, slots, heads, tails, posPush, posPop
      ensures Valid()
      ensures head == lastHead == old(OldLast()) + |old(PushesToMove())|
      ensures tail == lastTail == old(OldTail()) + |old(PopsToMove())|
      ensures slots[..] == old(PopsMoved()).slots
      ensures posPush[..producers] == old(PushesMoved()).saved && posPop[..consumers] == old(PopsMoved()).saved
      ensures forall i :: 0 <= i < producers ==> heads[i] == Max
      ensures forall i :: 0 <= i < consumers ==> tails[i] == Max
    {
      lastHead := FindLastHead();
      lastTail := FindLastTail();
      var n := RecoverPushes();
      var k := RecoverPops();
      Finish(n, k);
    }

    /** What makes the push half sound, integers apart, and leaves the pop half nothing to do. */
    ghost predicate CanRecover()
      reads this, heads, tails, posPush, posPop
      requires Valid()
    {
      && Narrow(size) && PopsToMove() == []
      && Recoverable(size, OldLast(), OldTail(), heads[..producers], posPush[..producers])
    }

    /** Nothing is announced, no saved push lies beyond the head, and no saved pop between the positions. */
    ghost predicate Settled()
      reads this, heads, tails, posPush, posPop
    {
      && Valid()
      && (forall i :: 0 <= i < producers ==> heads[i] == Max && (posPush[i].Max? || posPush[i].n <= head))
      && (forall i :: 0 <= i < consumers ==> tails[i] == Max && posPop[i] == Max)
    }

    lemma SettledStays()
      requires Settled()
      ensures PushesToMove() == [] && PopsToMove() == [] && OldLast() == head && OldTail() == tail
    {
      NothingAnnounced(head, heads[..producers]);
      NothingAnnounced(tail, tails[..consumers]);
      NothingQualifies(head, Max, heads[..producers], posPush[..producers], producers);
      NothingQualifies(tail, At(head), tails[..consumers], posPop[..consumers], consumers);
    }

    lemma NoPopMoves()
      requires Valid() && PopsToMove() == []
      ensures PopsMoved() == Mem(PushesMoved().slots, Cleared(OldTail(), At(OldLast()), tails[..consumers], posPop[..consumers]))
    {}

    lemma PushesAreMoved()
      requires Valid() && CanRecover() && InStep(OldLast(), PushesToMove())
      ensures MovedTo(slots[..], PushesMoved().slots, OldLast(), OldTail(), PushesToMove(), |PushesToMove()|)
    {
      RecoverableIsMovable(size, OldLast(), OldTail(), heads[..producers], posPush[..producers]);
      CopyMoves(slots[..], Mem(slots[..], Cleared(OldLast(), Max, heads[..producers], posPush[..producers])),
                size, OldLast(), OldTail(), PushesToMove(), 0);
    }

    lemma PushesAreSaved()
      requires Valid() && CanRecover() && FitInt(OldLast(), PushesToMove())
      ensures SavedTo(PushesMoved().saved, OldLast(), PushesToMove(), |PushesToMove()|)
    {
      var m := Mem(slots[..], Cleared(OldLast(), Max, heads[..producers], posPush[..producers]));
      RecoverableIsMovable(size, OldLast(), OldTail(), heads[..producers], posPush[..producers]);
      SurvivorsAreListed(m, size, OldLast(), OldTail(), heads[..producers], posPush[..producers]);
      FittingIsInStep(size, OldLast(), OldTail(), PushesToMove());
      CopySaves(m, size, OldLast(), PushesToMove(), 0);
    }

    lemma PopsAreDropped()
      requires Valid() && PopsToMove() == []
      ensures forall i :: 0 <= i < consumers ==> PopsMoved().saved[i] == Max
    {
      forall i | 0 <= i < consumers ensures PopsMoved().saved[i] == Max {
        if Qualifies(OldTail(), At(OldLast()), tails[i], posPop[i]) {
          QualifiedAreChosen(OldTail(), At(OldLast()), tails[..consumers], posPop[..consumers], i);
        }
      }
    }

    /** Recovery of the pushes: the tickets from the recomputed tail to the new head hold the old contents up
        to the recomputed head, followed by the values of the surviving pushes in ticket order. */
    method RecoverMoves()
      requires Valid()
      modifies this, slots, heads, tails, posPush, posPop
      ensures head == lastHead == old(OldLast()) + |old(PushesToMove())|
      ensures tail == lastTail == old(OldTail()) + |old(PopsToMove())|
      ensures old(CanRecover() && InStep(OldLast(), PushesToMove())) ==>
                forall t: nat :: tail <= t < old(OldLast()) ==> Carries(old(slots[..]), slots[..], t, t)
      ensures old(CanRecover() && InStep(OldLast(), PushesToMove())) ==>
                forall k: nat :: MovedAt(old(slots[..]), slots[..], old(OldLast()), old(PushesToMove()), k)
      ensures old(CanRecover()) && FitInt(old(OldLast()), old(PushesToMove())) ==> Settled()
    {
      ghost var can, fits := CanRecover(), FitInt(OldLast(), PushesToMove());
      if can {
        if InStep(OldLast(), PushesToMove()) {
          PushesAreMoved();
        }
        NoPopMoves();
        PopsAreDropped();
        if fits {
          PushesAreSaved();
        }
      }
      Recover();
      if can && fits {
        assert forall i :: 0 <= i < producers ==> posPush[i] == posPush[..producers][i];
        assert forall i :: 0 <= i < consumers ==> posPop[i] == posPop[..consumers][i];
      }
    }

    /** What a crash leaves behind: the recomputed positions are in order and at most a round apart, the pushes
        saved above the head by threads that announce nothing are less than a round above the tail, no two
        threads have saved the same ticket, and the positions are below 2^31. */
    ghost predicate LeftInOrder()
      reads this, heads, tails, posPush, posPop
      requires Valid()
    {
      && size <= 0x1_0000_0000
      && Recoverable(size, OldLast(), OldTail(), heads[..producers], posPush[..producers])
      && Below31(OldLast(), heads[..producers], posPush[..producers])
      && PopsOk(size, OldTail(), OldLast(), tails[..consumers], posPop[..consumers])
    }

    /** Recovery in terms of what each thread has announced and saved, whatever the pops. The pushes saved above
        the recomputed head by threads that announce nothing are carried over, and no others: they get the
        places from there on in the order of their tickets, and head ends behind them. The pops saved between
        the recomputed positions by threads that announce nothing are counted at the tail, and the contents of
        the slots from the lowest of them up to the highest are moved up by one place. */
    method RecoverSurvivors()
      requires Valid()
      modifies this, slots, heads, tails, posPush, posPop
      ensures Valid()
      ensures old(LeftInOrder()) ==>
                && head == lastHead
                   == old(OldLast() + |SavedBetween(heads[..producers], posPush[..producers], OldLast(), Max)|)
                && tail == lastTail
                   == old(OldTail() + |SavedBetween(tails[..consumers], posPop[..consumers], OldTail(), At(OldLast()))|)
                   <= old(OldLast())
      ensures old(LeftInOrder()) ==> forall i: nat :: i < producers ==>
                PushOutcome(old(slots[..]), size, slots[..], posPush[..producers],
                            old(heads[..producers]), old(posPush[..producers]), old(OldLast()), head, i)
      ensures old(LeftInOrder()) ==> forall t: nat :: old(OldTail()) <= t < old(OldLast()) ==>
                SlotOutcome(old(slots[..]), size, slots[..],
                            old(tails[..consumers]), old(posPop[..consumers]), old(OldTail()), old(OldLast()), t)
    {
      ghost var ok, sl, h, p, last := LeftInOrder(), slots[..], heads[..producers], posPush[..producers], OldLast();
      ghost var tl, q, first := tails[..consumers], posPop[..consumers], OldTail();
      ghost var now := PopHalf(PushHalf(sl, last, h, p).slots, first, last, tl, q).slots;
      ghost var saved := PushHalf(sl, last, h, p).saved;
      ghost var end := last + |SavedBetween(h, p, last, Max)|;
      if ok {
        RecoveryOutcome(sl, last, first, h, p, tl, q, now, saved, end);
      }
      Recover();
      assert slots[..] == now && posPush[..producers] == saved;
      if ok {
        forall i: nat | i < producers ensures PushOutcome(sl, size, slots[..], posPush[..producers], h, p, last, head, i) {
          assert PushOutcome(sl, size, now, saved, h, p, last, end, i);
        }
        forall t: nat | first <= t < last ensures SlotOutcome(sl, size, slots[..], tl, q, first, last, t) {
          assert SlotOutcome(sl, size, now, tl, q, first, last, t);
        }
      }
    }

    /** Recovering again changes neither the bounds of the queue nor its contents. */
    method RecoverAgain()
      requires Settled()
      modifies this, slots, heads, tails, posPush, posPop
      ensures head == lastHead == old(head) && tail == lastTail == old(tail) && slots[..] == old(slots[..])
    {
      SettledStays();
      Recover();
    }
  }
}
