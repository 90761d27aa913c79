/** Which calls recovery of the queue carries over a crash, and where their values are afterwards, in terms of
    what each thread has announced and saved. */
module RingSurvivors {
  import opened Masking
  import opened Ring
  import opened RingRecovery

  // How many calls are to be moved, and which place each of them gets.

  /** The threads whose calls are to be moved, with tickets below `bound`. */
  ghost function Movers(low: nat, high: Pos, announced: seq<Pos>, saved: seq<Pos>, n: nat, bound: Pos): set<nat>
    requires n <= |announced| == |saved|
  {
    set i: nat | i < n && Qualifies(low, high, announced[i], saved[i]) && (bound.At? ==> saved[i].n < bound.n)
  }

  lemma {:induction false} CollectHolds(low: nat, high: Pos, announced: seq<Pos>, saved: seq<Pos>, n: nat)
    requires n <= |announced| == |saved|
    ensures forall x: Saved :: x in Collect(low, high, announced, saved, n) <==>
              x.thread < n && Qualifies(low, high, announced[x.thread], saved[x.thread]) && saved[x.thread] == At(x.ticket)
    ensures forall i, j :: 0 <= i < j < |Collect(low, high, announced, saved, n)| ==>
              Collect(low, high, announced, saved, n)[i].thread < Collect(low, high, announced, saved, n)[j].thread
  {
    if n > 0 {
      CollectHolds(low, high, announced, saved, n - 1);
    }
  }

  lemma {:induction false} CollectCounts(low: nat, high: Pos, announced: seq<Pos>, saved: seq<Pos>, n: nat)
    requires n <= |announced| == |saved|
    ensures |Collect(low, high, announced, saved, n)| == |Movers(low, high, announced, saved, n, Max)|
  {
    if n > 0 {
      CollectCounts(low, high, announced, saved, n - 1);
      var rest := Movers(low, high, announced, saved, n - 1, Max);
      assert Movers(low, high, announced, saved, n, Max)
          == if Qualifies(low, high, announced[n - 1], saved[n - 1]) then rest + {n - 1} else rest;
    }
  }

  lemma ChosenCounts(low: nat, high: Pos, announced: seq<Pos>, saved: seq<Pos>)
    requires |announced| == |saved|
    ensures |Chosen(low, high, announced, saved)| == |Movers(low, high, announced, saved, |saved|, Max)|
  {
    CollectCounts(low, high, announced, saved, |saved|);
    var found := Collect(low, high, announced, saved, |saved|);
    assert |multiset(found)| == |found| && |multiset(Sort(found))| == |Sort(found)|;
  }

  ghost function FirstThreads(list: seq<Saved>, k: nat): set<nat>
    requires k <= |list|
  {
    set j: nat | j < k :: list[j].thread
  }

  lemma OneMoreThread(list: seq<Saved>, k: nat)
    requires 0 < k <= |list|
    ensures FirstThreads(list, k) == FirstThreads(list, k - 1) + {list[k - 1].thread}
  {
    forall i: nat ensures i in FirstThreads(list, k) <==> i in FirstThreads(list, k - 1) + {list[k - 1].thread} {
      if i in FirstThreads(list, k) {
        var j: nat :| j < k && list[j].thread == i;
      }
    }
  }

  lemma {:induction false} FirstThreadsCount(list: seq<Saved>, k: nat)
    requires k <= |list| && DistinctThreads(list)
    ensures |FirstThreads(list, k)| == k
  {
    if k > 0 {
      FirstThreadsCount(list, k - 1);
      var rest, x := FirstThreads(list, k - 1), list[k - 1].thread;
      assert x !in rest;
      OneMoreThread(list, k);
    }
  }

  /** The list holds the call of each thread once, in the order of tickets. */
  lemma ChosenInOrder(low: nat, high: Pos, announced: seq<Pos>, saved: seq<Pos>)
    requires |announced| == |saved| && TicketsDiffer(low, high, announced, saved)
    ensures var list := Chosen(low, high, announced, saved);
            && (forall k :: 0 <= k < |list| ==> saved[list[k].thread] == At(list[k].ticket))
            && (forall i, j :: 0 <= i < j < |list| ==> list[i].ticket < list[j].ticket)
            && DistinctThreads(list)
  {
    var list := Chosen(low, high, announced, saved);
    forall k | 0 <= k < |list| ensures saved[list[k].thread] == At(list[k].ticket) {
      ChosenQualify(low, high, announced, saved, k);
    }
    forall i, j | 0 <= i < j < |list| ensures list[i].ticket < list[j].ticket {
      ChosenGoUp(low, high, announced, saved, i, j);
    }
    TicketsMakeThreads(saved, list);
  }

  /** A call's place in the list is the number of calls with lower tickets. */
  lemma ChosenHasRank(low: nat, high: Pos, announced: seq<Pos>, saved: seq<Pos>, k: nat)
    requires |announced| == |saved| && TicketsDiffer(low, high, announced, saved)
    requires k < |Chosen(low, high, announced, saved)|
    ensures k == |Movers(low, high, announced, saved, |saved|, At(Chosen(low, high, announced, saved)[k].ticket))|
  {
    var list := Chosen(low, high, announced, saved);
    ChosenInOrder(low, high, announced, saved);
    FirstThreadsCount(list, k);
    var below := Movers(low, high, announced, saved, |saved|, At(list[k].ticket));
    forall i: nat ensures i in below <==> i in FirstThreads(list, k) {
      if i in below {
        QualifiedAreChosen(low, high, announced, saved, i);
        var j :| 0 <= j < |list| && list[j].thread == i;
        assert j < k;
      }
      if i in FirstThreads(list, k) {
        var j: nat :| j < k && list[j].thread == i;
        ChosenQualify(low, high, announced, saved, j);
      }
    }
    assert below == FirstThreads(list, k);
  }

  lemma PlaceOf(low: nat, high: Pos, announced: seq<Pos>, saved: seq<Pos>, i: nat) returns (k: nat)
    requires |announced| == |saved| && TicketsDiffer(low, high, announced, saved)
    requires i < |saved| && Qualifies(low, high, announced[i], saved[i])
    ensures k == |Movers(low, high, announced, saved, |saved|, saved[i])|
    ensures k < |Chosen(low, high, announced, saved)| && Chosen(low, high, announced, saved)[k] == Saved(saved[i].n, i)
  {
    QualifiedAreChosen(low, high, announced, saved, i);
    k :| 0 <= k < |Chosen(low, high, announced, saved)| && Chosen(low, high, announced, saved)[k].thread == i;
    ChosenQualify(low, high, announced, saved, k);
    ChosenHasRank(low, high, announced, saved, k);
  }

  // The pops: the list of unpopped tickets is the descending interval in front of the last saved pop.

  lemma {:induction false} RangeTickets(lo: nat, hi: nat, thread: nat)
    requires lo <= hi
    ensures |Range(lo, hi, thread)| == hi - lo
    ensures forall k :: 0 <= k < hi - lo ==> Range(lo, hi, thread)[k] == Saved(lo + k, thread)
    decreases hi
  {
    if lo < hi {
      RangeTickets(lo, hi - 1, thread);
    }
  }

  ghost predicate GoesUp(list: seq<Saved>) {
    forall i, j :: 0 <= i < j < |list| ==> list[i].ticket < list[j].ticket
  }

  /** Tickets from lo on, one after the other. */
  ghost predicate CountsUp(list: seq<Saved>, lo: nat) {
    forall k :: 0 <= k < |list| ==> list[k].ticket == lo + k
  }

  lemma {:induction false} BetweenTickets(pops: seq<Saved>, n: nat)
    requires 0 < n <= |pops| && GoesUp(pops)
    ensures |Between(pops, n)| == pops[n - 1].ticket - pops[0].ticket
    ensures CountsUp(Between(pops, n), pops[0].ticket)
    decreases n
  {
    if n > 1 {
      BetweenTickets(pops, n - 1);
      RangeTickets(pops[n - 2].ticket, pops[n - 1].ticket, pops[n - 1].thread);
    }
  }

  /** Ticket t between two saved pops is listed for the thread of the later one. */
  predicate ListedFor(pops: seq<Saved>, x: Saved) {
    exists j :: 0 < j < |pops| && pops[j - 1].ticket <= x.ticket < pops[j].ticket && x.thread == pops[j].thread
  }

  lemma {:induction false} BetweenThreads(pops: seq<Saved>, n: nat, k: nat)
    requires n <= |pops| && k < |Between(pops, n)|
    ensures ListedFor(pops, Between(pops, n)[k])
    decreases n
  {
    if k < |Between(pops, n - 1)| {
      BetweenThreads(pops, n - 1, k);
    } else {
      assert Between(pops, n)[k]
          == Range(pops[n - 2].ticket, pops[n - 1].ticket, pops[n - 1].thread)[k - |Between(pops, n - 1)|];
    }
  }

  lemma {:induction false} InsertLast(x: Saved, s: seq<Saved>)
    requires forall y :: y in s ==> y.ticket < x.ticket
    ensures Insert(x, s) == s + [x]
  {
    if s != [] {
      assert s[0] in s;
      InsertLast(x, s[1..]);
      assert s == [s[0]] + s[1..];
    }
  }

  lemma {:induction false} SortOfSorted(s: seq<Saved>)
    requires GoesUp(s)
    ensures Sort(s) == s
  {
    if s != [] {
      var rest, x := s[..|s| - 1], s[|s| - 1];
      assert s == rest + [x];
      SortOfSorted(rest);
      assert forall y :: y in rest ==> y.ticket < x.ticket;
      InsertLast(x, rest);
    }
  }

  lemma {:induction false} ReversedAt(s: seq<Saved>, k: nat)
    requires k < |s|
    ensures |Reversed(s)| == |s| && Reversed(s)[k] == s[|s| - 1 - k]
  {
    assert |multiset(Reversed(s))| == |multiset(s)|;
    if |s| > 1 {
      ReversedAt(s[1..], if k < |s| - 1 then k else 0);
    }
  }

  /** Tickets from hi - 1 down. */
  ghost predicate CountsDown(list: seq<Saved>, hi: nat) {
    |list| <= hi && forall k :: 0 <= k < |list| ==> list[k].ticket == hi - 1 - k
  }

  lemma ReversedCountsDown(list: seq<Saved>, lo: nat)
    requires CountsUp(list, lo)
    ensures |Reversed(list)| == |list| && CountsDown(Reversed(list), lo + |list|)
  {
    assert |multiset(Reversed(list))| == |multiset(list)|;
    forall k: nat | k < |list| ensures Reversed(list)[k].ticket == lo + |list| - 1 - k {
      ReversedAt(list, k);
    }
  }

  lemma ReversedSort(list: seq<Saved>, lo: nat)
    requires CountsUp(list, lo)
    ensures |Reversed(Sort(list))| == |list| && CountsDown(Reversed(Sort(list)), lo + |list|)
  {
    SortOfSorted(list);
    ReversedCountsDown(list, lo);
  }

  lemma UnpoppedTickets(pops: seq<Saved>, lo: nat, hi: nat)
    requires lo <= hi && |Between(pops, |pops|)| == hi - lo && CountsUp(Between(pops, |pops|), lo)
    ensures |Unpopped(pops)| == hi - lo && CountsDown(Unpopped(pops), hi)
  {
    ReversedSort(Between(pops, |pops|), lo);
  }

  ghost predicate ShiftedAt<T>(was: seq<T>, now: seq<T>, t: nat) { Carries(was, now, t + 1, t) }

  ghost predicate KeptAt<T>(was: seq<T>, now: seq<T>, t: nat) { Carries(was, now, t, t) }

  /** After j copies the j slots up to ticket hi hold what the slots before them held; the other slots of the
      round from `first` on are as they were. */
  ghost predicate ShiftedTo<T>(was: seq<T>, now: seq<T>, first: nat, hi: nat, j: nat) {
    && |now| == |was| > 0
    && (forall t: nat {:trigger ShiftedAt(was, now, t)} :: hi <= t + j && t < hi ==> ShiftedAt(was, now, t))
    && (forall t: nat {:trigger KeptAt(was, now, t)} ::
          first <= t < first + |was| && (t + j <= hi || hi < t) ==> KeptAt(was, now, t))
  }

  lemma ShiftOne<T>(was: seq<T>, now: seq<T>, now': seq<T>, first: nat, hi: nat, j: nat)
    requires ShiftedTo(was, now, first, hi, j) && first + j < hi < first + |was|
    requires now' == now[(hi - j) % |now| := now[(hi - 1 - j) % |now|]]
    ensures ShiftedTo(was, now', first, hi, j + 1)
  {
    var d, s := hi - j, hi - 1 - j;
    var v := now[s % |now|];
    assert KeptAt(was, now, s);
    forall t: nat | hi <= t + j + 1 && t < hi ensures ShiftedAt(was, now', t) {
      if t != s {
        assert ShiftedAt(was, now, t);
        WriteElsewhere(was, now, d, v, t + 1, t);
      }
    }
    forall t: nat | first <= t < first + |was| && (t + j + 1 <= hi || hi < t) ensures KeptAt(was, now', t) {
      assert KeptAt(was, now, t);
      WriteElsewhere(was, now, d, v, t, t);
    }
  }

  function CopyPop<T>(m: Mem<T>, hi: nat, list: seq<Saved>, j: nat): Mem<T>
    requires |m.slots| > 0 && j < |list| && list[j].thread < |m.saved|
  {
    CopyOne(m, Target(Pop, hi, j), ToInt(list[j].ticket), list[j].thread)
  }

  lemma PopIsCopied<T>(m: Mem<T>, size: nat, hi: nat, list: seq<Saved>, j: nat)
    requires size > 0 && Listed(m, size, list) && CountsDown(list, hi) && j < |list| && hi < 0x8000_0000
    ensures CopyPop(m, hi, list, j).slots == m.slots[(hi - j) % size := m.slots[(hi - 1 - j) % size]]
    ensures Listed(CopyPop(m, hi, list, j), size, list)
    ensures CopyFrom(m, size, Pop, hi, list, j, j) == CopyFrom(CopyPop(m, hi, list, j), size, Pop, hi, list, j + 1, j + 1)
  {
    FittingInt(hi - j);
    FittingInt(hi - 1 - j);
  }

  lemma {:induction false} CopyShifts<T>(was: seq<T>, m: Mem<T>, size: nat, first: nat, hi: nat, list: seq<Saved>, j: nat)
    requires size > 0 && Listed(m, size, list) && CountsDown(list, hi) && j <= |list| && hi < 0x8000_0000
    requires first + |list| < hi < first + size && |was| == size && ShiftedTo(was, m.slots, first, hi, j)
    ensures ShiftedTo(was, CopyFrom(m, size, Pop, hi, list, j, j).slots, first, hi, |list|)
    decreases |list| - j
  {
    if j < |list| {
      PopIsCopied(m, size, hi, list, j);
      ShiftOne(was, m.slots, CopyPop(m, hi, list, j).slots, first, hi, j);
      CopyShifts(was, CopyPop(m, hi, list, j), size, first, hi, list, j + 1);
    }
  }

  lemma PopsShift<T>(m: Mem<T>, size: nat, first: nat, last: nat, pops: seq<Saved>)
    requires size > 0 && Listed(m, size, pops) && PopsMovable(size, first, last, pops) && last <= 0x8000_0000
    requires pops != []
    ensures var lo, hi := pops[0].ticket, pops[|pops| - 1].ticket;
            lo <= hi && ShiftedTo(m.slots, AfterPops(m, size, pops).slots, first, hi, hi - lo)
  {
    BetweenTickets(pops, |pops|);
    UnpoppedTickets(pops, pops[0].ticket, pops[|pops| - 1].ticket);
    UnpoppedIsBounded(pops, 0, Highest(pops) + 1, |m.saved|);
    CopyShifts(m.slots, m, size, first, pops[|pops| - 1].ticket, Unpopped(pops), 0);
  }

  /** What the pop half does, for every list of pops: it moves the contents of the slots from the first saved
      pop up to the last one by one place, over the value of the last, and leaves the others as they are. */
  lemma PopHalfShifts<T>(m: Mem<T>, size: nat, first: nat, last: nat, pops: seq<Saved>, t: nat)
    requires size > 0 && Listed(m, size, pops) && PopsMovable(size, first, last, pops) && last <= 0x8000_0000
    requires first <= t < first + size
    ensures var r := AfterPops(m, size, pops).slots;
            if exists i, k :: 0 <= i < |pops| && 0 <= k < |pops| && pops[i].ticket < t <= pops[k].ticket
            then Carries(m.slots, r, t, t - 1) else Carries(m.slots, r, t, t)
  {
    if pops == [] {
      assert AfterPops(m, size, pops) == m;
    } else {
      PopsShift(m, size, first, last, pops);
      var r := AfterPops(m, size, pops).slots;
      if pops[0].ticket < t <= pops[|pops| - 1].ticket {
        assert ShiftedAt(m.slots, r, t - 1);
      } else {
        assert KeptAt(m.slots, r, t);
      }
    }
  }

  // Powers of two up to 2^32 divide it.

  lemma {:induction false} Pow2Adds(k: nat, n: nat)
    ensures Pow2(k + n) == Pow2(k) * Pow2(n)
  {
    if k > 0 {
      Pow2Adds(k - 1, n);
      Twice(Pow2(k - 1), Pow2(n));
    }
  }

  lemma Twice(a: nat, b: nat)
    ensures 2 * (a * b) == (2 * a) * b
  {}

  lemma {:induction false} Pow2Grows(k: nat, n: nat)
    requires k < n
    ensures Pow2(k) < Pow2(n)
    decreases n
  {
    if k < n - 1 {
      Pow2Grows(k, n - 1);
    }
  }

  lemma Pow2Of32()
    ensures Pow2(32) == 0x1_0000_0000
  {
    assert Pow2(8) == 0x100;
    Pow2Adds(8, 8);
    Pow2Adds(16, 16);
  }

  lemma SmallIsNarrow(size: nat)
    requires IsPow2(size) && size <= 0x1_0000_0000
    ensures Narrow(size)
  {
    var k: nat :| size == Pow2(k);
    Pow2Of32();
    if k > 32 {
      Pow2Grows(32, k);
    }
    Pow2Adds(k, 32 - k);
    RemainderIsUnique(0x1_0000_0000, size, Pow2(32 - k), 0);
  }

  // Both halves.

  /** The positions of the calls are below 2^31, so that no conversion to int makes a difference. */
  ghost predicate Below31(last: nat, announced: seq<Pos>, saved: seq<Pos>)
    requires |announced| == |saved|
  {
    last < 0x8000_0000
    && forall i :: 0 <= i < |saved| && announced[i] == Max && saved[i].At? && last < saved[i].n ==> saved[i].n < 0x8000_0000
  }

  lemma ChosenFit(size: nat, last: nat, first: nat, announced: seq<Pos>, saved: seq<Pos>)
    requires |announced| == |saved| && Recoverable(size, last, first, announced, saved) && Below31(last, announced, saved)
    ensures var list := Chosen(last, Max, announced, saved);
            FitInt(last, list) && (list != [] ==> last + |list| <= first + size)
  {
    var list := Chosen(last, Max, announced, saved);
    RecoverableIsMovable(size, last, first, announced, saved);
    forall k | 0 <= k < |list| ensures list[k].ticket < 0x8000_0000 {
      ChosenQualify(last, Max, announced, saved, k);
    }
    if list != [] {
      TicketsSpread(size, last, first, list, |list| - 1);
    }
  }

  ghost function PushHalf<T>(slots: seq<T>, last: nat, announced: seq<Pos>, saved: seq<Pos>): (r: Mem<T>)
    requires |slots| > 0 && |announced| == |saved|
    ensures |r.slots| == |slots| && |r.saved| == |saved|
  {
    CopyFrom(Mem(slots, Cleared(last, Max, announced, saved)), |slots|, Push, last, Chosen(last, Max, announced, saved), 0, 0)
  }

  lemma PushHalfMoves<T>(slots: seq<T>, last: nat, first: nat, announced: seq<Pos>, saved: seq<Pos>)
    requires IsPow2(|slots|) && |slots| <= 0x1_0000_0000 && |announced| == |saved|
    requires Recoverable(|slots|, last, first, announced, saved) && Below31(last, announced, saved)
    ensures var list := Chosen(last, Max, announced, saved);
            && MovedTo(slots, PushHalf(slots, last, announced, saved).slots, last, first, list, |list|)
            && SavedTo(PushHalf(slots, last, announced, saved).saved, last, list, |list|)
  {
    var list, m := Chosen(last, Max, announced, saved), Mem(slots, Cleared(last, Max, announced, saved));
    SmallIsNarrow(|slots|);
    RecoverableIsMovable(|slots|, last, first, announced, saved);
    ChosenFit(|slots|, last, first, announced, saved);
    FittingIsInStep(|slots|, last, first, list);
    SurvivorsAreListed(m, |slots|, last, first, announced, saved);
    CopyMoves(slots, m, |slots|, last, first, list, 0);
    CopySaves(m, |slots|, last, list, 0);
  }

  /** Nothing is saved any more by threads that had nothing to move. */
  lemma {:induction false} OthersStayDropped<T>(m: Mem<T>, size: nat, r: Role, start: nat, list: seq<Saved>,
                                                j: nat, i: nat, p: nat)
    requires size > 0 && Listed(m, size, list) && j <= |list| && p < |m.saved|
    requires forall k :: 0 <= k < |list| ==> list[k].thread != p
    ensures CopyFrom(m, size, r, start, list, j, i).saved[p] == m.saved[p]
    decreases |list| - j
  {
    if j < |list| {
      var dst, src := Target(r, start, i), ToInt(list[j].ticket);
      if ToCopy(r, dst, src) {
        OthersStayDropped(CopyOne(m, dst, src, list[j].thread), size, r, start, list, j + 1, i + 1, p);
      } else {
        OthersStayDropped(m, size, r, start, list, j + 1, i, p);
      }
    }
  }

  /** `Carries` of a single ticket, folded: only ever applied to a set of one. */
  ghost predicate AllCarry<T>(was: seq<T>, now: seq<T>, ts: set<nat>, s: nat) {
    forall t: nat {:trigger Carries(was, now, t, s)} :: t in ts ==> Carries(was, now, t, s)
  }

  /** Push i gets the place after the last finished push that its rank among the pushes to move gives it. */
  lemma PushGetsPlace<T>(slots: seq<T>, last: nat, first: nat, announced: seq<Pos>, saved: seq<Pos>, i: nat, u: nat)
    requires IsPow2(|slots|) && |slots| <= 0x1_0000_0000 && |announced| == |saved| && i < |saved|
    requires Recoverable(|slots|, last, first, announced, saved) && Below31(last, announced, saved)
    requires Qualifies(last, Max, announced[i], saved[i])
    requires u == last + |Movers(last, Max, announced, saved, |saved|, saved[i])|
    ensures last <= u < last + |Movers(last, Max, announced, saved, |saved|, Max)| && u < first + |slots|
    ensures AllCarry(slots, PushHalf(slots, last, announced, saved).slots, {u}, saved[i].n)
    ensures PushHalf(slots, last, announced, saved).saved[i] == At(u)
  {
    var list := Chosen(last, Max, announced, saved);
    PushHalfMoves(slots, last, first, announced, saved);
    ChosenFit(|slots|, last, first, announced, saved);
    ChosenCounts(last, Max, announced, saved);
    var k := PlaceOf(last, Max, announced, saved, i);
    assert MovedAt(slots, PushHalf(slots, last, announced, saved).slots, last, list, k);
    assert PosSaved(PushHalf(slots, last, announced, saved).saved, last, list, k);
  }

  lemma OthersAreDropped<T>(slots: seq<T>, last: nat, announced: seq<Pos>, saved: seq<Pos>, i: nat)
    requires |slots| > 0 && |announced| == |saved| && i < |saved| && !Qualifies(last, Max, announced[i], saved[i])
    ensures PushHalf(slots, last, announced, saved).saved[i] == Max
  {
    var list := Chosen(last, Max, announced, saved);
    forall k | 0 <= k < |list| ensures list[k].thread != i {
      ChosenQualify(last, Max, announced, saved, k);
    }
    OthersStayDropped(Mem(slots, Cleared(last, Max, announced, saved)), |slots|, Push, last, list, 0, 0, i);
  }

  ghost function PopHalf<T>(slots: seq<T>, first: nat, last: nat, announced: seq<Pos>, saved: seq<Pos>): (r: Mem<T>)
    requires |slots| > 0 && |announced| == |saved|
    ensures |r.slots| == |slots|
  {
    AfterPops(Mem(slots, Cleared(first, At(last), announced, saved)), |slots|, Chosen(first, At(last), announced, saved))
  }

  /** The pops to move have different tickets, and are less than a round after the recomputed tail. */
  ghost predicate PopsOk(size: nat, first: nat, last: nat, announced: seq<Pos>, saved: seq<Pos>)
    requires |announced| == |saved|
  {
    && first <= last <= first + size && last < 0x8000_0000
    && (forall i, k :: 0 <= i < k < |saved| && announced[i] == announced[k] == Max && saved[i].At? && first < saved[i].n < last ==>
          saved[i] != saved[k])
  }

  lemma ChosenPopsAreMovable(size: nat, first: nat, last: nat, announced: seq<Pos>, saved: seq<Pos>)
    requires |announced| == |saved| && PopsOk(size, first, last, announced, saved)
    ensures PopsMovable(size, first, last, Chosen(first, At(last), announced, saved))
    ensures first + |Movers(first, At(last), announced, saved, |saved|, Max)| <= last
  {
    var pops := Chosen(first, At(last), announced, saved);
    forall k | 0 <= k < |pops| ensures first < pops[k].ticket < last {
      ChosenQualify(first, At(last), announced, saved, k);
    }
    ChosenInOrder(first, At(last), announced, saved);
    ChosenCounts(first, At(last), announced, saved);
    FewPops(size, first, last, pops);
  }

  predicate PopBelow(first: nat, last: nat, announced: Pos, saved: Pos, t: nat) {
    Qualifies(first, At(last), announced, saved) && saved.n < t
  }

  predicate PopFrom(first: nat, last: nat, announced: Pos, saved: Pos, t: nat) {
    Qualifies(first, At(last), announced, saved) && t <= saved.n
  }

  /** A pop to move is below ticket t, and another at t or above it. */
  ghost predicate AmongPops(first: nat, last: nat, announced: seq<Pos>, saved: seq<Pos>, t: nat)
    requires |announced| == |saved|
  {
    && (exists i :: 0 <= i < |saved| && PopBelow(first, last, announced[i], saved[i], t))
    && (exists k :: 0 <= k < |saved| && PopFrom(first, last, announced[k], saved[k], t))
  }

  lemma AmongPopsIff(first: nat, last: nat, announced: seq<Pos>, saved: seq<Pos>, t: nat)
    requires |announced| == |saved|
    ensures var pops := Chosen(first, At(last), announced, saved);
            AmongPops(first, last, announced, saved, t) <==>
              exists i, k :: 0 <= i < |pops| && 0 <= k < |pops| && pops[i].ticket < t <= pops[k].ticket
  {
    var pops := Chosen(first, At(last), announced, saved);
    if AmongPops(first, last, announced, saved, t) {
      var i :| 0 <= i < |saved| && PopBelow(first, last, announced[i], saved[i], t);
      var k :| 0 <= k < |saved| && PopFrom(first, last, announced[k], saved[k], t);
      var j := ChosenAt(first, At(last), announced, saved, i);
      var l := ChosenAt(first, At(last), announced, saved, k);
      assert pops[j].ticket < t <= pops[l].ticket;
    }
    if i, k :| 0 <= i < |pops| && 0 <= k < |pops| && pops[i].ticket < t <= pops[k].ticket {
      ChosenQualify(first, At(last), announced, saved, i);
      ChosenQualify(first, At(last), announced, saved, k);
      assert PopBelow(first, last, announced[pops[i].thread], saved[pops[i].thread], t);
      assert PopFrom(first, last, announced[pops[k].thread], saved[pops[k].thread], t);
    }
  }

  lemma ChosenAt(low: nat, high: Pos, announced: seq<Pos>, saved: seq<Pos>, i: nat) returns (k: nat)
    requires i < |announced| == |saved| && Qualifies(low, high, announced[i], saved[i])
    ensures k < |Chosen(low, high, announced, saved)| && Chosen(low, high, announced, saved)[k].ticket == saved[i].n
  {
    QualifiedAreChosen(low, high, announced, saved, i);
    k :| 0 <= k < |Chosen(low, high, announced, saved)| && Chosen(low, high, announced, saved)[k].thread == i;
    ChosenQualify(low, high, announced, saved, k);
  }

  lemma PopHalfMoves<T>(slots: seq<T>, first: nat, last: nat, announced: seq<Pos>, saved: seq<Pos>, t: nat)
    requires |slots| > 0 && |announced| == |saved| && PopsOk(|slots|, first, last, announced, saved)
    requires first <= t < first + |slots|
    ensures var r := PopHalf(slots, first, last, announced, saved).slots;
            if AmongPops(first, last, announced, saved, t) then Carries(slots, r, t, t - 1) else Carries(slots, r, t, t)
  {
    ChosenPopsAreMovable(|slots|, first, last, announced, saved);
    AmongPopsIff(first, last, announced, saved, t);
    PopHalfShifts(Mem(slots, Cleared(first, At(last), announced, saved)), |slots|, first, last,
                  Chosen(first, At(last), announced, saved), t);
  }

  // What becomes of each call, for the two halves together.

  lemma StaysInPlace<T>(was: seq<T>, slots: seq<T>, first: nat, last: nat, announced: seq<Pos>, saved: seq<Pos>,
                        u: nat, s: nat)
    requires |slots| > 0 && |announced| == |saved| && PopsOk(|slots|, first, last, announced, saved)
    requires last <= u < first + |slots| && AllCarry(was, slots, {u}, s)
    ensures AllCarry(was, PopHalf(slots, first, last, announced, saved).slots, {u}, s)
  {
    PopHalfMoves(slots, first, last, announced, saved, u);
    assert Carries(was, slots, u, s);
  }

  lemma PushSurvives<T>(slots: seq<T>, last: nat, first: nat, heads: seq<Pos>, pushed: seq<Pos>,
                        tails: seq<Pos>, popped: seq<Pos>, i: nat, u: nat)
    requires IsPow2(|slots|) && |slots| <= 0x1_0000_0000 && |heads| == |pushed| && |tails| == |popped| && i < |pushed|
    requires Recoverable(|slots|, last, first, heads, pushed) && Below31(last, heads, pushed)
    requires PopsOk(|slots|, first, last, tails, popped) && Qualifies(last, Max, heads[i], pushed[i])
    requires u == last + |Movers(last, Max, heads, pushed, |pushed|, pushed[i])|
    ensures u < last + |Movers(last, Max, heads, pushed, |pushed|, Max)|
    ensures AllCarry(slots, PopHalf(PushHalf(slots, last, heads, pushed).slots, first, last, tails, popped).slots,
                     {u}, pushed[i].n)
    ensures PushHalf(slots, last, heads, pushed).saved[i] == At(u)
  {
    PushGetsPlace(slots, last, first, heads, pushed, i, u);
    StaysInPlace(slots, PushHalf(slots, last, heads, pushed).slots, first, last, tails, popped, u, pushed[i].n);
  }

  lemma KeptByPushes<T>(slots: seq<T>, last: nat, first: nat, announced: seq<Pos>, saved: seq<Pos>, t: nat)
    requires IsPow2(|slots|) && |slots| <= 0x1_0000_0000 && |announced| == |saved| && first <= t < last
    requires Recoverable(|slots|, last, first, announced, saved) && Below31(last, announced, saved)
    ensures AllCarry(slots, PushHalf(slots, last, announced, saved).slots, {t}, t)
  {
    PushHalfMoves(slots, last, first, announced, saved);
  }

  lemma ChangedByPops<T>(was: seq<T>, slots: seq<T>, first: nat, last: nat, announced: seq<Pos>, saved: seq<Pos>,
                         t: nat, s: nat)
    requires |slots| > 0 && |announced| == |saved| && PopsOk(|slots|, first, last, announced, saved)
    requires first <= t < last && s == (if AmongPops(first, last, announced, saved, t) then t - 1 else t)
    requires AllCarry(was, slots, {s}, s)
    ensures AllCarry(was, PopHalf(slots, first, last, announced, saved).slots, {t}, s)
  {
    PopHalfMoves(slots, first, last, announced, saved, t);
    assert Carries(was, slots, s, s);
  }

  lemma RestSurvives<T>(slots: seq<T>, last: nat, first: nat, heads: seq<Pos>, pushed: seq<Pos>,
                        tails: seq<Pos>, popped: seq<Pos>, t: nat)
    requires IsPow2(|slots|) && |slots| <= 0x1_0000_0000 && |heads| == |pushed| && |tails| == |popped| && first <= t < last
    requires Recoverable(|slots|, last, first, heads, pushed) && Below31(last, heads, pushed)
    requires PopsOk(|slots|, first, last, tails, popped)
    ensures AmongPops(first, last, tails, popped, t) ==> t > first
    ensures AllCarry(slots, PopHalf(PushHalf(slots, last, heads, pushed).slots, first, last, tails, popped).slots, {t},
                     if AmongPops(first, last, tails, popped, t) then t - 1 else t)
  {
    var s := if AmongPops(first, last, tails, popped, t) then t - 1 else t;
    KeptByPushes(slots, last, first, heads, pushed, s);
    ChangedByPops(slots, PushHalf(slots, last, heads, pushed).slots, first, last, tails, popped, t, s);
  }

  // The outcome, written out.

  /** The threads that announce nothing and have saved a ticket above `low` and below `high`. */
  ghost function SavedBetween(announced: seq<Pos>, saved: seq<Pos>, low: nat, high: Pos): set<nat>
    requires |announced| == |saved|
  {
    set i: nat | i < |saved| && announced[i] == Max && saved[i].At? && low < saved[i].n && (high.At? ==> saved[i].n < high.n)
  }

  ghost predicate PushOutcome<T>(slots: seq<T>, size: nat, now: seq<T>, saved': seq<Pos>,
                                 announced: seq<Pos>, saved: seq<Pos>, last: nat, head: nat, i: nat)
    requires |now| == |slots| == size > 0 && i < |announced| == |saved| == |saved'|
  {
    if announced[i] == Max && saved[i].At? && last < saved[i].n then
      var u := last + |SavedBetween(announced, saved, last, saved[i])|;
      u < head && now[u % size] == slots[saved[i].n % size] && saved'[i] == At(u)
    else saved'[i] == Max
  }

  ghost predicate SlotOutcome<T>(slots: seq<T>, size: nat, now: seq<T>, announced: seq<Pos>, saved: seq<Pos>,
                                 first: nat, last: nat, t: nat)
    requires |now| == |slots| == size > 0 && |announced| == |saved|
  {
    if (exists i :: 0 <= i < |saved| && announced[i] == Max && saved[i].At? && first < saved[i].n < t)
       && (exists k :: 0 <= k < |saved| && announced[k] == Max && saved[k].At? && t <= saved[k].n < last)
    then t > first && now[t % size] == slots[(t - 1) % size]
    else now[t % size] == slots[t % size]
  }

  lemma MoversAreSaved(low: nat, high: Pos, announced: seq<Pos>, saved: seq<Pos>)
    requires |announced| == |saved|
    ensures Movers(low, high, announced, saved, |saved|, Max) == SavedBetween(announced, saved, low, high)
    ensures high.Max? ==> forall bound: Pos ::
              Movers(low, high, announced, saved, |saved|, bound) == SavedBetween(announced, saved, low, bound)
  {}

  lemma CarriedIs<T>(was: seq<T>, now: seq<T>, t: nat, s: nat)
    requires AllCarry(was, now, {t}, s)
    ensures |now| == |was| > 0 && now[t % |now|] == was[s % |was|]
  {
    assert Carries(was, now, t, s);
  }

  lemma PlaceIsOutcome<T>(slots: seq<T>, now: seq<T>, saved': seq<Pos>, announced: seq<Pos>, saved: seq<Pos>,
                          last: nat, head: nat, i: nat, u: nat)
    requires i < |announced| == |saved| == |saved'| && Qualifies(last, Max, announced[i], saved[i])
    requires u == last + |SavedBetween(announced, saved, last, saved[i])| < head
    requires AllCarry(slots, now, {u}, saved[i].n) && saved'[i] == At(u)
    ensures |now| == |slots| > 0 && PushOutcome(slots, |slots|, now, saved', announced, saved, last, head, i)
  {
    CarriedIs(slots, now, u, saved[i].n);
  }

  lemma PushEndsUp<T>(slots: seq<T>, last: nat, first: nat, heads: seq<Pos>, pushed: seq<Pos>,
                      tails: seq<Pos>, popped: seq<Pos>, now: seq<T>, saved': seq<Pos>, i: nat)
    requires IsPow2(|slots|) && |slots| <= 0x1_0000_0000 && |heads| == |pushed| && |tails| == |popped| && i < |pushed|
    requires Recoverable(|slots|, last, first, heads, pushed) && Below31(last, heads, pushed)
    requires PopsOk(|slots|, first, last, tails, popped)
    requires now == PopHalf(PushHalf(slots, last, heads, pushed).slots, first, last, tails, popped).slots
    requires saved' == PushHalf(slots, last, heads, pushed).saved
    ensures PushOutcome(slots, |slots|, now, saved', heads, pushed, last, last + |SavedBetween(heads, pushed, last, Max)|, i)
  {
    if Qualifies(last, Max, heads[i], pushed[i]) {
      MoversAreSaved(last, Max, heads, pushed);
      var u := last + |SavedBetween(heads, pushed, last, pushed[i])|;
      PushSurvives(slots, last, first, heads, pushed, tails, popped, i, u);
      PlaceIsOutcome(slots, now, saved', heads, pushed, last, last + |SavedBetween(heads, pushed, last, Max)|, i, u);
    } else {
      OthersAreDropped(slots, last, heads, pushed, i);
    }
  }

  lemma AmongPopsOut(first: nat, last: nat, announced: seq<Pos>, saved: seq<Pos>, t: nat)
    requires |announced| == |saved| && first <= t < last
    ensures AmongPops(first, last, announced, saved, t) <==>
              (exists i :: 0 <= i < |saved| && announced[i] == Max && saved[i].At? && first < saved[i].n < t)
              && (exists k :: 0 <= k < |saved| && announced[k] == Max && saved[k].At? && t <= saved[k].n < last)
  {
    if i :| 0 <= i < |saved| && announced[i] == Max && saved[i].At? && first < saved[i].n < t {
      assert PopBelow(first, last, announced[i], saved[i], t);
      if k :| 0 <= k < |saved| && announced[k] == Max && saved[k].At? && t <= saved[k].n < last {
        assert PopFrom(first, last, announced[k], saved[k], t);
      }
    }
  }

  lemma SlotEndsUp<T>(slots: seq<T>, last: nat, first: nat, heads: seq<Pos>, pushed: seq<Pos>,
                      tails: seq<Pos>, popped: seq<Pos>, now: seq<T>, t: nat)
    requires IsPow2(|slots|) && |slots| <= 0x1_0000_0000 && |heads| == |pushed| && |tails| == |popped| && first <= t < last
    requires Recoverable(|slots|, last, first, heads, pushed) && Below31(last, heads, pushed)
    requires PopsOk(|slots|, first, last, tails, popped)
    requires now == PopHalf(PushHalf(slots, last, heads, pushed).slots, first, last, tails, popped).slots
    ensures SlotOutcome(slots, |slots|, now, tails, popped, first, last, t)
  {
    AmongPopsOut(first, last, tails, popped, t);
    RestSurvives(slots, last, first, heads, pushed, tails, popped, t);
    CarriedIs(slots, now, t, if AmongPops(first, last, tails, popped, t) then t - 1 else t);
  }

  /** Where everything is after recovery. */
  lemma RecoveryOutcome<T>(slots: seq<T>, last: nat, first: nat, heads: seq<Pos>, pushed: seq<Pos>,
                           tails: seq<Pos>, popped: seq<Pos>, now: seq<T>, saved': seq<Pos>, head: nat)
    requires IsPow2(|slots|) && |slots| <= 0x1_0000_0000 && |heads| == |pushed| && |tails| == |popped|
    requires Recoverable(|slots|, last, first, heads, pushed) && Below31(last, heads, pushed)
    requires PopsOk(|slots|, first, last, tails, popped)
    requires now == PopHalf(PushHalf(slots, last, heads, pushed).slots, first, last, tails, popped).slots
    requires saved' == PushHalf(slots, last, heads, pushed).saved
    requires head == last + |SavedBetween(heads, pushed, last, Max)|
    ensures |now| == |slots| && |saved'| == |pushed|
    ensures |Chosen(last, Max, heads, pushed)| == |SavedBetween(heads, pushed, last, Max)|
    ensures |Chosen(first, At(last), tails, popped)| == |SavedBetween(tails, popped, first, At(last))|
    ensures first + |SavedBetween(tails, popped, first, At(last))| <= last
    ensures forall i: nat :: i < |pushed| ==>
              PushOutcome(slots, |slots|, now, saved', heads, pushed, last, head, i)
    ensures forall t: nat :: first <= t < last ==> SlotOutcome(slots, |slots|, now, tails, popped, first, last, t)
  {
    ChosenCounts(last, Max, heads, pushed);
    ChosenCounts(first, At(last), tails, popped);
    MoversAreSaved(last, Max, heads, pushed);
    MoversAreSaved(first, At(last), tails, popped);
    ChosenPopsAreMovable(|slots|, first, last, tails, popped);
    forall i: nat | i < |pushed|
      ensures PushOutcome(slots, |slots|, now, saved', heads, pushed, last, head, i)
    {
      PushEndsUp(slots, last, first, heads, pushed, tails, popped, now, saved', i);
    }
    forall t: nat | first <= t < last ensures SlotOutcome(slots, |slots|, now, tails, popped, first, last, t) {
      SlotEndsUp(slots, last, first, heads, pushed, tails, popped, now, t);
    }
  }
}
