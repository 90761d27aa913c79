/** Recovery of the ring-buffer queue (ring-buffer/p_rb_q_eadr.cc:183-305), as functions on the slots and the
    saved positions. Pushes that had copied their value beyond the last finished ticket are moved down, in
    place, to close the gaps that unfinished pushes have left; then the pops have their turn. */
module RingRecovery {
  import opened Masking
  import opened Ring

  /** A finished call: its ticket, as saved in pos_push or pos_pop, and the thread that made it. */
  datatype Saved = Saved(ticket: nat, thread: nat)

  // The recomputed positions.

  /** find_last_head, find_last_tail: the lowest announced position, or the counter. */
  function Lowest(counter: nat, announced: seq<Pos>): (m: nat)
    ensures m <= counter && forall i :: 0 <= i < |announced| && announced[i].At? ==> m <= announced[i].n
    ensures m == counter || At(m) in announced
  {
    if announced == [] then counter
    else MinPos(Lowest(counter, announced[..|announced| - 1]), announced[|announced| - 1])
  }

  // The pushes or pops to move, and their order.

  /** A thread that announces nothing, and whose saved position lies strictly between the bounds. Pushes
      have no upper bound. */
  predicate Qualifies(low: nat, high: Pos, announced: Pos, saved: Pos) {
    announced.Max? && saved.At? && saved.n > low && (high.At? ==> saved.n < high.n)
  }

  function Collect(low: nat, high: Pos, announced: seq<Pos>, saved: seq<Pos>, n: nat): (s: seq<Saved>)
    requires n <= |announced| == |saved|
    ensures forall i :: 0 <= i < |s| ==>
              s[i].thread < n && Qualifies(low, high, announced[s[i].thread], saved[s[i].thread])
              && s[i].ticket == saved[s[i].thread].n
  {
    if n == 0 then []
    else Collect(low, high, announced, saved, n - 1)
         + if Qualifies(low, high, announced[n - 1], saved[n - 1]) then [Saved(saved[n - 1].n, n - 1)] else []
  }

  predicate InOrder(a: Saved, b: Saved) {
    a.ticket < b.ticket || (a.ticket == b.ticket && a.thread <= b.thread)
  }

  predicate OrderedAt(s: seq<Saved>, i: nat, j: nat) {
    i < j < |s| ==> InOrder(s[i], s[j])
  }

  ghost predicate Ordered(s: seq<Saved>) {
    forall i: nat, j: nat {:trigger OrderedAt(s, i, j)} :: OrderedAt(s, i, j)
  }

  function Insert(x: Saved, s: seq<Saved>): (r: seq<Saved>)
    ensures multiset(r) == multiset(s) + multiset{x}
  {
    if s == [] then [x]
    else if InOrder(x, s[0]) then [x] + s
    else
      assert s == [s[0]] + s[1..];
      [s[0]] + Insert(x, s[1..])
  }

  lemma OrderedCons(x: Saved, s: seq<Saved>)
    requires Ordered(s) && forall y :: y in s ==> InOrder(x, y)
    ensures Ordered([x] + s)
  {
    forall i: nat, j: nat ensures OrderedAt([x] + s, i, j) {
      assert i > 0 && j > 0 ==> OrderedAt(s, i - 1, j - 1);
      assert 0 < j <= |s| ==> s[j - 1] in s;
    }
  }

  lemma FirstIsLowest(s: seq<Saved>, y: Saved)
    requires Ordered(s) && s != [] && y in s
    ensures InOrder(s[0], y)
  {
    var k :| 0 <= k < |s| && s[k] == y;
    assert OrderedAt(s, 0, k);
  }

  lemma OrderedRest(s: seq<Saved>)
    requires Ordered(s) && s != []
    ensures Ordered(s[1..])
  {
    forall i: nat, j: nat ensures OrderedAt(s[1..], i, j) {
      assert OrderedAt(s, i + 1, j + 1);
    }
  }

  lemma {:induction false} InsertIsOrdered(x: Saved, s: seq<Saved>)
    requires Ordered(s)
    ensures Ordered(Insert(x, s))
  {
    if s == [] {
    } else if InOrder(x, s[0]) {
      forall y | y in s ensures InOrder(x, y) {
        FirstIsLowest(s, y);
      }
      OrderedCons(x, s);
    } else {
      OrderedRest(s);
      InsertIsOrdered(x, s[1..]);
      var r := Insert(x, s[1..]);
      forall y | y in r ensures InOrder(s[0], y) {
        assert y in multiset(r);
        if y != x {
          assert y in s[1..];
          FirstIsLowest(s, y);
        }
      }
      OrderedCons(s[0], r);
    }
  }

  /** list::sort. */
  function Sort(s: seq<Saved>): (r: seq<Saved>)
    ensures multiset(r) == multiset(s)
  {
    if s == [] then [] else
      assert s == s[..|s| - 1] + [s[|s| - 1]];
      Insert(s[|s| - 1], Sort(s[..|s| - 1]))
  }

  lemma {:induction false} SortIsOrdered(s: seq<Saved>)
    ensures Ordered(Sort(s))
  {
    if s != [] {
      SortIsOrdered(s[..|s| - 1]);
      InsertIsOrdered(s[|s| - 1], Sort(s[..|s| - 1]));
    }
  }

  // Integers. `src` and `dst` are declared as int, while positions are of type unsigned long.

  function ToInt(n: int): (w: int)
    ensures -0x8000_0000 <= w < 0x8000_0000 && (w - n) % 0x1_0000_0000 == 0
  {
    var w := n % 0x1_0000_0000;
    if w < 0x8000_0000 then w else w - 0x1_0000_0000
  }

  function ToLong(n: int): nat { n % 0x1_0000_0000_0000_0000 }

  /** The all-ones word announces, or saves, nothing. */
  function PosOf(n: nat): Pos { if n == 0xFFFF_FFFF_FFFF_FFFF then Max else At(n) }

  lemma FittingInt(n: nat)
    requires n < 0x8000_0000
    ensures ToInt(n) == n && PosOf(ToLong(n)) == At(n)
  {}

  /** `n & Q_MASK` for an int. */
  function IntSlot(size: nat, n: int): (x: nat)
    requires size > 0
    ensures x < size
  {
    ToLong(n) % size
  }

  /** A power of two of at most 2^32 slots. */
  predicate Narrow(size: nat) { size > 0 && 0x1_0000_0000 % size == 0 }

  /** In a ring of at most 2^32 slots the conversion to int does not change the slot. */
  lemma SlotOfInt(size: nat, n: nat)
    requires Narrow(size)
    ensures IntSlot(size, ToInt(n)) == n % size
  {
    var d := ToLong(ToInt(n));
    var q, r := 0x1_0000_0000 / size, n / 0x1_0000_0000;
    assert 0x1_0000_0000 == size * q;
    var w := n % 0x1_0000_0000;
    assert n == w + size * (q * r) by {
      assert size * (q * r) == (size * q) * r;
    }
    SameRemainder(w, q * r, size);
    if d != w {
      assert d == w + 0x1_0000_0000 * 0xFFFF_FFFF;
      assert d == w + size * (q * 0xFFFF_FFFF) by {
        assert size * (q * 0xFFFF_FFFF) == (size * q) * 0xFFFF_FFFF;
      }
      SameRemainder(w, q * 0xFFFF_FFFF, size);
    }
  }

  lemma SameRemainder(w: nat, q: nat, size: nat)
    requires size > 0
    ensures (w + size * q) % size == w % size
  {
    assert w == size * (w / size) + w % size;
    assert w + size * q == size * (w / size + q) + w % size;
    RemainderIsUnique(w + size * q, size, w / size + q, w % size);
  }

  // The copy loops.

  /** The slots, and the saved positions of one side's threads. */
  datatype Mem<T> = Mem(slots: seq<T>, saved: seq<Pos>)

  predicate Listed<T>(m: Mem<T>, size: nat, list: seq<Saved>) {
    |m.slots| == size && forall i :: 0 <= i < |list| ==> list[i].thread < |m.saved|
  }

  function CopyOne<T>(m: Mem<T>, dst: int, src: int, thread: nat): (r: Mem<T>)
    requires |m.slots| > 0 && thread < |m.saved|
    ensures |r.slots| == |m.slots| && |r.saved| == |m.saved|
  {
    Mem(m.slots[IntSlot(|m.slots|, dst) := m.slots[IntSlot(|m.slots|, src)]], m.saved[thread := PosOf(ToLong(dst))])
  }

  /** Pushes are moved down to `start` and the positions after it, pops up to `start` and those before. */
  function Target(r: Role, start: nat, i: nat): int { ToInt(if r.Push? then start + i else start - i) }

  predicate ToCopy(r: Role, dst: int, src: int) { if r.Push? then dst < src else dst > src }

  /** The loop over the sorted list from its j-th entry on, after i copies. */
  function CopyFrom<T>(m: Mem<T>, size: nat, r: Role, start: nat, list: seq<Saved>, j: nat, i: nat): (m': Mem<T>)
    requires size > 0 && Listed(m, size, list) && j <= |list|
    ensures |m'.slots| == size && |m'.saved| == |m.saved|
    decreases |list| - j
  {
    if j == |list| then m
    else
      var dst, src := Target(r, start, i), ToInt(list[j].ticket);
      if ToCopy(r, dst, src) then
        CopyFrom(CopyOne(m, dst, src, list[j].thread), size, r, start, list, j + 1, i + 1)
      else CopyFrom(m, size, r, start, list, j + 1, i)
  }

  // The pushes.

  /** The list of pushes to move: their tickets go up, and lie after the last finished push and less than
      one round after the last finished pop. */
  ghost predicate Movable(size: nat, last: nat, lastTail: nat, list: seq<Saved>) {
    && lastTail <= last
    && (forall i :: 0 <= i < |list| ==> last < list[i].ticket < lastTail + size)
    && (forall i, j :: 0 <= i < j < |list| ==> list[i].ticket < list[j].ticket)
  }

  /** So every destination is below its source. */
  lemma {:induction false} TicketsSpread(size: nat, last: nat, lastTail: nat, list: seq<Saved>, j: nat)
    requires Movable(size, last, lastTail, list) && j < |list|
    ensures last + j < list[j].ticket
  {
    if j > 0 {
      TicketsSpread(size, last, lastTail, list, j - 1);
    }
  }

  /** The comparison of ints agrees. */
  predicate InStepAt(last: nat, list: seq<Saved>, k: nat) {
    k < |list| ==> ToInt(last + k) < ToInt(list[k].ticket)
  }

  ghost predicate InStep(last: nat, list: seq<Saved>) {
    forall k: nat {:trigger InStepAt(last, list, k)} :: InStepAt(last, list, k)
  }

  /** The slot of ticket t holds what the slot of ticket s held before. */
  ghost predicate Carries<T>(was: seq<T>, now: seq<T>, t: nat, s: nat) {
    |was| == |now| > 0 && now[t % |now|] == was[s % |was|]
  }

  ghost predicate MovedAt<T>(was: seq<T>, now: seq<T>, last: nat, list: seq<Saved>, k: nat) {
    k < |list| ==> Carries(was, now, last + k, list[k].ticket)
  }

  ghost predicate PendingAt<T>(was: seq<T>, now: seq<T>, list: seq<Saved>, k: nat) {
    k < |list| ==> Carries(was, now, list[k].ticket, list[k].ticket)
  }

  /** The tickets between the last pop and the j-th move hold what they should, and sources still to be
      moved are untouched. */
  ghost predicate MovedTo<T>(was: seq<T>, now: seq<T>, last: nat, lastTail: nat, list: seq<Saved>, j: nat) {
    && |now| == |was| > 0
    && (forall t: nat {:trigger Carries(was, now, t, t)} :: lastTail <= t < last ==> Carries(was, now, t, t))
    && (forall k: nat {:trigger MovedAt(was, now, last, list, k)} :: k < j ==> MovedAt(was, now, last, list, k))
    && (forall k: nat {:trigger PendingAt(was, now, list, k)} :: j <= k ==> PendingAt(was, now, list, k))
  }

  lemma WriteElsewhere<T>(was: seq<T>, now: seq<T>, d: nat, v: T, t: nat, s: nat)
    requires Carries(was, now, t, s) && t != d && t < d + |now| && d < t + |now|
    ensures Carries(was, now[d % |now| := v], t, s)
  {
    if t % |now| == d % |now| {
      if t < d {
        SameRemainderFarApart(t, d, |now|);
      } else {
        SameRemainderFarApart(d, t, |now|);
      }
    }
  }

  lemma MoveOne<T>(was: seq<T>, now: seq<T>, last: nat, lastTail: nat, list: seq<Saved>, j: nat)
    requires |now| == |was| > 0 && Movable(|now|, last, lastTail, list) && j < |list|
    requires MovedTo(was, now, last, lastTail, list, j)
    ensures MovedTo(was, now[(last + j) % |now| := now[list[j].ticket % |now|]], last, lastTail, list, j + 1)
  {
    TicketsSpread(|now|, last, lastTail, list, j);
    var d, v := last + j, now[list[j].ticket % |now|];
    var now' := now[d % |now| := v];
    assert PendingAt(was, now, list, j) && MovedAt(was, now', last, list, j);
    forall t: nat | lastTail <= t < last ensures Carries(was, now', t, t) {
      WriteElsewhere(was, now, d, v, t, t);
    }
    forall k: nat | k < j ensures MovedAt(was, now', last, list, k) {
      assert MovedAt(was, now, last, list, k);
      WriteElsewhere(was, now, d, v, last + k, list[k].ticket);
    }
    forall k: nat | j + 1 <= k ensures PendingAt(was, now', list, k) {
      assert PendingAt(was, now, list, k);
      if k < |list| {
        WriteElsewhere(was, now, d, v, list[k].ticket, list[k].ticket);
      }
    }
  }

  /** What one copy does to the slots, in terms of tickets. */
  lemma CopyOneSlots<T>(m: Mem<T>, last: nat, list: seq<Saved>, j: nat)
    requires Narrow(|m.slots|) && j < |list| && list[j].thread < |m.saved|
    ensures var size := |m.slots|;
            CopyPush(m, last, list, j).slots == m.slots[(last + j) % size := m.slots[list[j].ticket % size]]
  {
    SlotOfInt(|m.slots|, last + j);
    SlotOfInt(|m.slots|, list[j].ticket);
  }

  function CopyPush<T>(m: Mem<T>, last: nat, list: seq<Saved>, j: nat): Mem<T>
    requires |m.slots| > 0 && j < |list| && list[j].thread < |m.saved|
  {
    CopyOne(m, Target(Push, last, j), ToInt(list[j].ticket), list[j].thread)
  }

  lemma PushIsCopied<T>(m: Mem<T>, size: nat, last: nat, list: seq<Saved>, j: nat)
    requires size > 0 && Listed(m, size, list) && j < |list| && InStepAt(last, list, j)
    ensures Listed(CopyPush(m, last, list, j), size, list)
    ensures CopyFrom(m, size, Push, last, list, j, j) == CopyFrom(CopyPush(m, last, list, j), size, Push, last, list, j + 1, j + 1)
  {}

  lemma {:induction false} CopyMoves<T>(was: seq<T>, m: Mem<T>, size: nat, last: nat, lastTail: nat, list: seq<Saved>, j: nat)
    requires Narrow(size) && Listed(m, size, list) && Movable(size, last, lastTail, list) && j <= |list|
    requires InStep(last, list) && MovedTo(was, m.slots, last, lastTail, list, j)
    ensures MovedTo(was, CopyFrom(m, size, Push, last, list, j, j).slots, last, lastTail, list, |list|)
    decreases |list| - j
  {
    if j < |list| {
      assert InStepAt(last, list, j);
      PushIsCopied(m, size, last, list, j);
      CopyOneSlots(m, last, list, j);
      MoveOne(was, m.slots, last, lastTail, list, j);
      CopyMoves(was, CopyPush(m, last, list, j), size, last, lastTail, list, j + 1);
    }
  }

  /** Push recovery: afterwards the tickets from the last pop to the new last push hold the old contents up
      to the old last push, followed by the values of the surviving pushes in the order of their tickets. */
  lemma SurvivorsAreMoved<T>(m: Mem<T>, size: nat, last: nat, lastTail: nat, list: seq<Saved>)
    requires Narrow(size) && Listed(m, size, list) && Movable(size, last, lastTail, list) && InStep(last, list)
    ensures var r := CopyFrom(m, size, Push, last, list, 0, 0);
            && (forall t: nat :: lastTail <= t < last ==> Carries(m.slots, r.slots, t, t))
            && (forall k: nat :: k < |list| ==> MovedAt(m.slots, r.slots, last, list, k))
  {
    CopyMoves(m.slots, m, size, last, lastTail, list, 0);
  }

  // A copy that is not made is never made up for.

  ghost predicate AllDiffer<T>(slots: seq<T>) {
    forall x, y :: 0 <= x < y < |slots| ==> slots[x] != slots[y]
  }

  /** Only slot `home` holds v. */
  ghost predicate Nowhere<T>(slots: seq<T>, home: nat, v: T) {
    forall x :: 0 <= x < |slots| && x != home ==> slots[x] != v
  }


  /** From entry k on no entry is copied from slot `home`. */
  lemma {:induction false} StaysNowhere<T>(m: Mem<T>, size: nat, r: Role, start: nat, list: seq<Saved>, j: nat, i: nat, home: nat, v: T)
    requires size > 0 && Listed(m, size, list) && j <= |list| && Nowhere(m.slots, home, v)
    requires forall k :: j <= k < |list| ==> IntSlot(size, ToInt(list[k].ticket)) != home
    ensures Nowhere(CopyFrom(m, size, r, start, list, j, i).slots, home, v)
    decreases |list| - j
  {
    if j < |list| {
      var dst, src := Target(r, start, i), ToInt(list[j].ticket);
      if ToCopy(r, dst, src) {
        StaysNowhere(CopyOne(m, dst, src, list[j].thread), size, r, start, list, j + 1, i + 1, home, v);
      } else {
        StaysNowhere(m, size, r, start, list, j + 1, i, home, v);
      }
    }
  }

  /** Entry k is the first that is not copied; it alone lies in slot `home`. */
  lemma {:induction false} SkippedStaysNowhere<T>(m: Mem<T>, size: nat, last: nat, list: seq<Saved>, j: nat, k: nat, home: nat, v: T)
    requires size > 0 && Listed(m, size, list) && j <= k < |list| && Nowhere(m.slots, home, v)
    requires forall i :: 0 <= i < |list| && i != k ==> IntSlot(size, ToInt(list[i].ticket)) != home
    requires !InStepAt(last, list, k) && forall i: nat :: i < k ==> InStepAt(last, list, i)
    ensures Nowhere(CopyFrom(m, size, Push, last, list, j, j).slots, home, v)
    decreases k - j
  {
    if j < k {
      assert InStepAt(last, list, j);
      PushIsCopied(m, size, last, list, j);
      SkippedStaysNowhere(CopyPush(m, last, list, j), size, last, list, j + 1, k, home, v);
    } else {
      StaysNowhere(m, size, Push, last, list, j + 1, j, home, v);
    }
  }

  lemma FirstOutOfStep(last: nat, list: seq<Saved>, n: nat) returns (k: nat)
    requires !InStepAt(last, list, n)
    ensures k <= n && !InStepAt(last, list, k) && forall i: nat :: i < k ==> InStepAt(last, list, i)
  {
    k := 0;
    while InStepAt(last, list, k)
      invariant k <= n && forall i: nat :: i < k ==> InStepAt(last, list, i)
      decreases n - k
    {
      k := k + 1;
    }
  }

  lemma OtherSlots(size: nat, last: nat, lastTail: nat, list: seq<Saved>, k: nat)
    requires Narrow(size) && Movable(size, last, lastTail, list) && k < |list|
    ensures forall i :: 0 <= i < |list| && i != k ==> IntSlot(size, ToInt(list[i].ticket)) != list[k].ticket % size
    ensures (last + k) % size != list[k].ticket % size
  {
    forall i | 0 <= i < |list| && i != k ensures IntSlot(size, ToInt(list[i].ticket)) != list[k].ticket % size {
      SlotOfInt(size, list[i].ticket);
      assert list[i].ticket != list[k].ticket by {
        if i < k {
          assert list[i].ticket < list[k].ticket;
        }
      }
      ApartInRound(size, list[i].ticket, list[k].ticket);
    }
    TicketsSpread(size, last, lastTail, list, k);
    ApartInRound(size, last + k, list[k].ticket);
  }

  lemma ApartInRound(size: nat, t: nat, u: nat)
    requires size > 0 && t != u && t < u + size && u < t + size
    ensures t % size != u % size
  {
    if t % size == u % size {
      if t < u {
        SameRemainderFarApart(t, u, size);
      } else {
        SameRemainderFarApart(u, t, size);
      }
    }
  }

  lemma SkippedIsLost<T>(m: Mem<T>, size: nat, last: nat, lastTail: nat, list: seq<Saved>, n: nat)
    requires Narrow(size) && Listed(m, size, list) && Movable(size, last, lastTail, list) && AllDiffer(m.slots)
    requires !InStepAt(last, list, n)
    ensures exists k: nat :: !MovedAt(m.slots, CopyFrom(m, size, Push, last, list, 0, 0).slots, last, list, k)
  {
    var k := FirstOutOfStep(last, list, n);
    OtherSlots(size, last, lastTail, list, k);
    var home := list[k].ticket % size;
    SkippedStaysNowhere(m, size, last, list, 0, k, home, m.slots[home]);
    assert !MovedAt(m.slots, CopyFrom(m, size, Push, last, list, 0, 0).slots, last, list, k);
  }

  /** Exactly which pushes survive the conversion to int: with different values in all slots, all survivors
      are moved if and only if, as ints, each source is above its destination. */
  lemma SurvivorsAreMovedIff<T>(m: Mem<T>, size: nat, last: nat, lastTail: nat, list: seq<Saved>)
    requires Narrow(size) && Listed(m, size, list) && Movable(size, last, lastTail, list) && AllDiffer(m.slots)
    ensures (forall k: nat :: MovedAt(m.slots, CopyFrom(m, size, Push, last, list, 0, 0).slots, last, list, k))
            <==> InStep(last, list)
  {
    if InStep(last, list) {
      SurvivorsAreMoved(m, size, last, lastTail, list);
    } else {
      var n: nat :| !InStepAt(last, list, n);
      SkippedIsLost(m, size, last, lastTail, list, n);
    }
  }

  /** A push past a multiple of 2^31 is lost: 0x8000_0000 as an int is below 0x7FFF_FFFF. */
  lemma TruncationLoses()
    ensures Movable(4, 0x7FFF_FFFF, 0x7FFF_FFFD, [Saved(0x8000_0000, 0)])
    ensures var m := Mem([10, 11, 12, 13], [At(0x8000_0000)]);
            && CopyFrom(m, 4, Push, 0x7FFF_FFFF, [Saved(0x8000_0000, 0)], 0, 0) == m
            && !MovedAt(m.slots, m.slots, 0x7FFF_FFFF, [Saved(0x8000_0000, 0)], 0)
  {
    var m := Mem([10, 11, 12, 13], [At(0x8000_0000)]);
    var list := [Saved(0x8000_0000, 0)];
    assert ToInt(0x8000_0000) == -0x8000_0000 && Target(Push, 0x7FFF_FFFF, 0) == 0x7FFF_FFFF;
    assert CopyFrom(m, 4, Push, 0x7FFF_FFFF, list, 1, 0) == m;
  }

  // The saved positions of the pushes moved.

  /** No conversion to int makes a difference. */
  predicate FitInt(last: nat, list: seq<Saved>) {
    last + |list| < 0x8000_0000 && forall j :: 0 <= j < |list| ==> list[j].ticket < 0x8000_0000
  }

  lemma FittingIsInStep(size: nat, last: nat, lastTail: nat, list: seq<Saved>)
    requires Movable(size, last, lastTail, list) && FitInt(last, list)
    ensures InStep(last, list)
  {
    forall k: nat ensures InStepAt(last, list, k) {
      if k < |list| {
        TicketsSpread(size, last, lastTail, list, k);
      }
    }
  }

  ghost predicate PosSaved(now: seq<Pos>, last: nat, list: seq<Saved>, k: nat) {
    k < |list| ==> list[k].thread < |now| && now[list[k].thread] == At(last + k)
  }

  /** The threads moved so far have their new positions saved, and every saved position is below them or
      still to be moved. */
  ghost predicate SavedTo(now: seq<Pos>, last: nat, list: seq<Saved>, j: nat) {
    && (forall k: nat {:trigger PosSaved(now, last, list, k)} :: k < j ==> PosSaved(now, last, list, k))
    && (forall i :: 0 <= i < |now| ==>
          now[i].Max? || now[i].n < last + j || exists k :: j <= k < |list| && list[k].thread == i)
  }

  ghost predicate DistinctThreads(list: seq<Saved>) {
    forall i, j :: 0 <= i < j < |list| ==> list[i].thread != list[j].thread
  }

  lemma SaveOne(now: seq<Pos>, last: nat, list: seq<Saved>, j: nat)
    requires SavedTo(now, last, list, j) && DistinctThreads(list) && j < |list| && list[j].thread < |now|
    ensures SavedTo(now[list[j].thread := At(last + j)], last, list, j + 1)
  {
    var now' := now[list[j].thread := At(last + j)];
    forall k: nat | k < j + 1 ensures PosSaved(now', last, list, k) {
      assert k < j ==> PosSaved(now, last, list, k);
    }
  }

  lemma CopyOneSaves<T>(m: Mem<T>, last: nat, list: seq<Saved>, j: nat)
    requires |m.slots| > 0 && j < |list| && list[j].thread < |m.saved| && FitInt(last, list)
    ensures CopyPush(m, last, list, j).saved == m.saved[list[j].thread := At(last + j)]
  {
    FittingInt(last + j);
    assert Target(Push, last, j) == last + j;
  }

  lemma {:induction false} CopySaves<T>(m: Mem<T>, size: nat, last: nat, list: seq<Saved>, j: nat)
    requires size > 0 && Listed(m, size, list) && j <= |list| && FitInt(last, list) && InStep(last, list)
    requires SavedTo(m.saved, last, list, j) && DistinctThreads(list)
    ensures SavedTo(CopyFrom(m, size, Push, last, list, j, j).saved, last, list, |list|)
    decreases |list| - j
  {
    if j < |list| {
      assert InStepAt(last, list, j);
      PushIsCopied(m, size, last, list, j);
      CopyOneSaves(m, last, list, j);
      SaveOne(m.saved, last, list, j);
      CopySaves(CopyPush(m, last, list, j), size, last, list, j + 1);
    }
  }

  // A second recovery.

  lemma {:induction false} NothingAnnounced(counter: nat, announced: seq<Pos>)
    requires forall i :: 0 <= i < |announced| ==> announced[i].Max?
    ensures Lowest(counter, announced) == counter
  {
    if announced != [] {
      NothingAnnounced(counter, announced[..|announced| - 1]);
    }
  }

  lemma {:induction false} NothingQualifies(low: nat, high: Pos, announced: seq<Pos>, saved: seq<Pos>, n: nat)
    requires n <= |announced| == |saved|
    requires forall i :: 0 <= i < n ==> saved[i].Max? || saved[i].n <= low
    ensures Collect(low, high, announced, saved, n) == []
  {
    if n > 0 {
      NothingQualifies(low, high, announced, saved, n - 1);
    }
  }

  // The list that recovery works on.

  /** The saved positions after the calls to move were collected: what does not qualify is dropped. */
  function Cleared(low: nat, high: Pos, announced: seq<Pos>, saved: seq<Pos>): (r: seq<Pos>)
    requires |announced| == |saved|
    ensures |r| == |saved|
  {
    seq(|saved|, i requires 0 <= i < |saved| => if Qualifies(low, high, announced[i], saved[i]) then saved[i] else Max)
  }

  /** The calls to move, in the order of their tickets. */
  function Chosen(low: nat, high: Pos, announced: seq<Pos>, saved: seq<Pos>): (list: seq<Saved>)
    requires |announced| == |saved|
    ensures forall k :: 0 <= k < |list| ==> list[k].thread < |saved|
  {
    var found := Collect(low, high, announced, saved, |saved|);
    var list := Sort(found);
    assert forall k :: 0 <= k < |list| ==> list[k] in multiset(list) && list[k] in found;
    list
  }

  lemma {:induction false} CollectCovers(low: nat, high: Pos, announced: seq<Pos>, saved: seq<Pos>, n: nat, i: nat)
    requires i < n <= |announced| == |saved| && Qualifies(low, high, announced[i], saved[i])
    ensures Saved(saved[i].n, i) in Collect(low, high, announced, saved, n)
  {
    if i < n - 1 {
      CollectCovers(low, high, announced, saved, n - 1, i);
    }
  }

  lemma ChosenQualify(low: nat, high: Pos, announced: seq<Pos>, saved: seq<Pos>, k: nat)
    requires |announced| == |saved| && k < |Chosen(low, high, announced, saved)|
    ensures var x := Chosen(low, high, announced, saved)[k];
            x.thread < |saved| && Qualifies(low, high, announced[x.thread], saved[x.thread]) && x.ticket == saved[x.thread].n
  {
    var list := Collect(low, high, announced, saved, |saved|);
    var x := Chosen(low, high, announced, saved)[k];
    assert x in multiset(Sort(list));
    assert x in list;
  }

  lemma QualifiedAreChosen(low: nat, high: Pos, announced: seq<Pos>, saved: seq<Pos>, i: nat)
    requires i < |announced| == |saved| && Qualifies(low, high, announced[i], saved[i])
    ensures exists k :: 0 <= k < |Chosen(low, high, announced, saved)| && Chosen(low, high, announced, saved)[k].thread == i
  {
    CollectCovers(low, high, announced, saved, |saved|, i);
    var x := Saved(saved[i].n, i);
    assert x in multiset(Collect(low, high, announced, saved, |saved|));
    assert x in Chosen(low, high, announced, saved);
  }

  /** No two calls to move have the same ticket. */
  ghost predicate TicketsDiffer(low: nat, high: Pos, announced: seq<Pos>, saved: seq<Pos>)
    requires |announced| == |saved|
  {
    forall i, k :: 0 <= i < k < |saved| ==>
      Qualifies(low, high, announced[i], saved[i]) && Qualifies(low, high, announced[k], saved[k]) ==>
      saved[i].n != saved[k].n
  }

  lemma OneMore(s: seq<Saved>, y: Saved, x: Saved)
    requires y !in s && multiset(s)[x] <= 1
    ensures multiset(s + [y])[x] <= 1
  {
    assert y !in multiset(s);
  }

  lemma {:induction false} CollectOnce(low: nat, high: Pos, announced: seq<Pos>, saved: seq<Pos>, n: nat, x: Saved)
    requires n <= |announced| == |saved|
    ensures multiset(Collect(low, high, announced, saved, n))[x] <= 1
  {
    if n > 0 {
      CollectOnce(low, high, announced, saved, n - 1, x);
      if Qualifies(low, high, announced[n - 1], saved[n - 1]) {
        OneMore(Collect(low, high, announced, saved, n - 1), Saved(saved[n - 1].n, n - 1), x);
      }
    }
  }

  lemma TwiceMeansTwo(list: seq<Saved>, i: nat, j: nat)
    requires i < j < |list| && list[i] == list[j]
    ensures multiset(list)[list[i]] >= 2
  {
    var a, b := list[..j], list[j..];
    assert list == a + b && a[i] == list[i] && b[0] == list[j];
    assert list[i] in multiset(a) && list[i] in multiset(b);
  }

  lemma ChosenGoUp(low: nat, high: Pos, announced: seq<Pos>, saved: seq<Pos>, i: nat, j: nat)
    requires |announced| == |saved| && TicketsDiffer(low, high, announced, saved)
    requires i < j < |Chosen(low, high, announced, saved)|
    ensures Chosen(low, high, announced, saved)[i].ticket < Chosen(low, high, announced, saved)[j].ticket
  {
    var found := Collect(low, high, announced, saved, |saved|);
    var list := Chosen(low, high, announced, saved);
    SortIsOrdered(found);
    assert OrderedAt(list, i, j);
    ChosenQualify(low, high, announced, saved, i);
    ChosenQualify(low, high, announced, saved, j);
    if list[i] == list[j] {
      TwiceMeansTwo(list, i, j);
      CollectOnce(low, high, announced, saved, |saved|, list[i]);
    }
  }

  // What the crash must have left for the pushes.

  /** The last finished pop is not ahead of the last finished push, and the pushes to move have distinct
      tickets, less than one round after that pop. */
  ghost predicate Recoverable(size: nat, last: nat, lastTail: nat, announced: seq<Pos>, saved: seq<Pos>)
    requires |announced| == |saved|
  {
    && lastTail <= last
    && (forall i :: 0 <= i < |saved| && announced[i] == Max && saved[i].At? && last < saved[i].n ==>
          saved[i].n < lastTail + size)
    && (forall i, k :: 0 <= i < k < |saved| && announced[i] == announced[k] == Max && saved[i].At? && last < saved[i].n ==>
          saved[i] != saved[k])
  }

  lemma RecoverableIsMovable(size: nat, last: nat, lastTail: nat, announced: seq<Pos>, saved: seq<Pos>)
    requires |announced| == |saved| && Recoverable(size, last, lastTail, announced, saved)
    ensures Movable(size, last, lastTail, Chosen(last, Max, announced, saved))
  {
    var list := Chosen(last, Max, announced, saved);
    forall i | 0 <= i < |list| ensures last < list[i].ticket < lastTail + size {
      ChosenQualify(last, Max, announced, saved, i);
    }
    forall i, j | 0 <= i < j < |list| ensures list[i].ticket < list[j].ticket {
      ChosenGoUp(last, Max, announced, saved, i, j);
    }
  }

  lemma TicketsMakeThreads(saved: seq<Pos>, list: seq<Saved>)
    requires forall k :: 0 <= k < |list| ==> list[k].thread < |saved| && saved[list[k].thread] == At(list[k].ticket)
    requires forall i, j :: 0 <= i < j < |list| ==> list[i].ticket < list[j].ticket
    ensures DistinctThreads(list)
  {
    forall i, j | 0 <= i < j < |list| ensures list[i].thread != list[j].thread {
      assert list[i].ticket < list[j].ticket;
    }
  }

  /** The list recovery works on is as SurvivorsAreMoved wants it, whatever the tickets are, once they are
      distinct. */
  lemma SurvivorsAreListed<T>(m: Mem<T>, size: nat, last: nat, lastTail: nat, announced: seq<Pos>, saved: seq<Pos>)
    requires |announced| == |saved| && |m.slots| == size && m.saved == Cleared(last, Max, announced, saved)
    requires Movable(size, last, lastTail, Chosen(last, Max, announced, saved))
    ensures var list := Chosen(last, Max, announced, saved);
            Listed(m, size, list) && DistinctThreads(list) && SavedTo(m.saved, last, list, 0)
  {
    var list := Chosen(last, Max, announced, saved);
    forall k | 0 <= k < |list| ensures list[k].thread < |saved| && saved[list[k].thread] == At(list[k].ticket) {
      ChosenQualify(last, Max, announced, saved, k);
    }
    forall i | 0 <= i < |m.saved| && m.saved[i].At? ensures exists k :: 0 <= k < |list| && list[k].thread == i {
      QualifiedAreChosen(last, Max, announced, saved, i);
    }
    TicketsMakeThreads(saved, list);
  }


  // The pops. Recovery is meant to move the values not yet popped up, over those popped. It takes the
  // tickets between two saved pops for unpopped, the lower one of the two included, and leaves out those
  // in front of the first.

  function Range(lo: nat, hi: nat, thread: nat): (s: seq<Saved>)
    ensures forall k :: 0 <= k < |s| ==> lo <= s[k].ticket < hi && s[k].thread == thread
  {
    if lo >= hi then [] else Range(lo, hi - 1, thread) + [Saved(hi - 1, thread)]
  }

  /** What lies between the first n saved pops, as the loop lists it. */
  function Between(pops: seq<Saved>, n: nat): seq<Saved>
    requires n <= |pops|
  {
    if n <= 1 then []
    else Between(pops, n - 1) + Range(pops[n - 2].ticket, pops[n - 1].ticket, pops[n - 1].thread)
  }

  function Reversed(s: seq<Saved>): (r: seq<Saved>)
    ensures multiset(r) == multiset(s)
  {
    if s == [] then [] else
      assert s == [s[0]] + s[1..];
      Reversed(s[1..]) + [s[0]]
  }

  /** Sorted by std::greater. */
  function Unpopped(pops: seq<Saved>): seq<Saved> { Reversed(Sort(Between(pops, |pops|))) }

  function MaxTail(pops: seq<Saved>): nat { if pops == [] then 0 else pops[|pops| - 1].ticket }

  ghost predicate BoundedBy(pops: seq<Saved>, lo: nat, hi: nat, threads: nat) {
    forall k :: 0 <= k < |pops| ==> lo <= pops[k].ticket < hi && pops[k].thread < threads
  }

  lemma {:induction false} BetweenIsBounded(pops: seq<Saved>, n: nat, lo: nat, hi: nat, threads: nat)
    requires n <= |pops| && BoundedBy(pops, lo, hi, threads)
    ensures BoundedBy(Between(pops, n), lo, hi, threads)
  {
    if n > 1 {
      BetweenIsBounded(pops, n - 1, lo, hi, threads);
    }
  }

  lemma UnpoppedIsBounded(pops: seq<Saved>, lo: nat, hi: nat, threads: nat)
    requires BoundedBy(pops, lo, hi, threads)
    ensures BoundedBy(Unpopped(pops), lo, hi, threads)
  {
    BetweenIsBounded(pops, |pops|, lo, hi, threads);
    var list, down := Between(pops, |pops|), Unpopped(pops);
    forall k | 0 <= k < |down| ensures lo <= down[k].ticket < hi && down[k].thread < threads {
      assert down[k] in multiset(down) && down[k] in multiset(list);
    }
  }

  /** The memory after the pop half, whose list is `pops`. */
  ghost function AfterPops<T>(m: Mem<T>, size: nat, pops: seq<Saved>): Mem<T>
    requires size > 0 && Listed(m, size, pops)
  {
    var hi := if pops == [] then 0 else Highest(pops) + 1;
    assert BoundedBy(pops, 0, hi, |m.saved|);
    UnpoppedIsBounded(pops, 0, hi, |m.saved|);
    CopyFrom(m, size, Pop, MaxTail(pops), Unpopped(pops), 0, 0)
  }

  function Highest(s: seq<Saved>): (h: nat)
    ensures forall k :: 0 <= k < |s| ==> s[k].ticket <= h
  {
    if s == [] then 0 else
      var h := Highest(s[..|s| - 1]);
      if s[|s| - 1].ticket > h then s[|s| - 1].ticket else h
  }

  predicate IsPopped(pops: seq<Saved>, t: nat) {
    exists k :: 0 <= k < |pops| && pops[k].ticket == t
  }

  /** The tickets from t on, below `last`, that no saved pop has taken. */
  function Remaining(t: nat, last: nat, pops: seq<Saved>): seq<nat>
    decreases last - t
  {
    if t >= last then []
    else (if IsPopped(pops, t) then [] else [t]) + Remaining(t + 1, last, pops)
  }

  function ValuesOf<T>(slots: seq<T>, tickets: seq<nat>): seq<T>
    requires |slots| > 0
  {
    seq(|tickets|, k requires 0 <= k < |tickets| => slots[tickets[k] % |slots|])
  }

  /** What the queue holds between two positions. */
  function Window<T>(slots: seq<T>, lo: nat, hi: nat): seq<T>
    requires |slots| > 0 && lo <= hi
  {
    seq(hi - lo, k requires 0 <= k < hi - lo => slots[(lo + k) % |slots|])
  }

  /** The pops to move, and the positions they lie between. */
  ghost predicate PopsMovable(size: nat, tail: nat, last: nat, pops: seq<Saved>) {
    && tail <= last <= tail + size
    && (forall k :: 0 <= k < |pops| ==> tail < pops[k].ticket < last)
    && (forall i, j :: 0 <= i < j < |pops| ==> pops[i].ticket < pops[j].ticket)
  }

  lemma {:induction false} PopsSpread(size: nat, tail: nat, last: nat, pops: seq<Saved>, n: nat)
    requires PopsMovable(size, tail, last, pops) && n < |pops|
    ensures tail + n < pops[n].ticket
  {
    if n > 0 {
      PopsSpread(size, tail, last, pops, n - 1);
    }
  }

  lemma FewPops(size: nat, tail: nat, last: nat, pops: seq<Saved>)
    requires PopsMovable(size, tail, last, pops)
    ensures tail + |pops| <= last && (pops != [] ==> tail + |pops| < last)
  {
    if pops != [] {
      PopsSpread(size, tail, last, pops, |pops| - 1);
    }
  }

  lemma {:induction false} NothingPopped(t: nat, last: nat)
    requires t <= last
    ensures |Remaining(t, last, [])| == last - t
    ensures forall k :: 0 <= k < last - t ==> Remaining(t, last, [])[k] == t + k
    decreases last - t
  {
    if t < last {
      NothingPopped(t + 1, last);
    }
  }

  lemma UnpoppedElsewhere(size: nat, tail: nat, last: nat, list: seq<Saved>, threads: nat)
    requires Narrow(size) && last <= tail + size && BoundedBy(list, tail + 1, last, threads)
    ensures forall k :: 0 <= k < |list| ==> IntSlot(size, ToInt(list[k].ticket)) != tail % size
  {
    forall k | 0 <= k < |list| ensures IntSlot(size, ToInt(list[k].ticket)) != tail % size {
      SlotOfInt(size, list[k].ticket);
      ApartInRound(size, list[k].ticket, tail);
    }
  }

  /** The value at the tail is not the first one delivered afterwards. */
  lemma FirstIsLost<T>(m: Mem<T>, size: nat, tail: nat, last: nat, pops: seq<Saved>)
    requires Narrow(size) && Listed(m, size, pops) && AllDiffer(m.slots) && PopsMovable(size, tail, last, pops)
    requires pops != []
    ensures tail + |pops| < last && AfterPops(m, size, pops).slots[(tail + |pops|) % size] != m.slots[tail % size]
  {
    FewPops(size, tail, last, pops);
    UnpoppedIsBounded(pops, tail + 1, last, |m.saved|);
    UnpoppedElsewhere(size, tail, last, Unpopped(pops), |m.saved|);
    StaysNowhere(m, size, Pop, MaxTail(pops), Unpopped(pops), 0, 0, tail % size, m.slots[tail % size]);
    ApartInRound(size, tail + |pops|, tail);
  }

  lemma FirstIsWrong<T>(m: Mem<T>, size: nat, tail: nat, last: nat, pops: seq<Saved>)
    requires Narrow(size) && Listed(m, size, pops) && AllDiffer(m.slots) && PopsMovable(size, tail, last, pops)
    requires pops != []
    ensures tail + |pops| < last
    ensures Window(AfterPops(m, size, pops).slots, tail + |pops|, last) != ValuesOf(m.slots, Remaining(tail, last, pops))
  {
    FirstIsLost(m, size, tail, last, pops);
    assert !IsPopped(pops, tail) && Remaining(tail, last, pops)[0] == tail;
    assert ValuesOf(m.slots, Remaining(tail, last, pops))[0] == m.slots[tail % size];
    assert Window(AfterPops(m, size, pops).slots, tail + |pops|, last)[0]
        == AfterPops(m, size, pops).slots[(tail + |pops|) % size];
  }

  lemma NoPopsIsRight<T>(m: Mem<T>, size: nat, tail: nat, last: nat)
    requires size > 0 && |m.slots| == size && tail <= last
    ensures Window(AfterPops(m, size, []).slots, tail, last) == ValuesOf(m.slots, Remaining(tail, last, []))
  {
    NothingPopped(tail, last);
    assert AfterPops(m, size, []) == m;
  }

  /** The pop half delivers what has not been popped, in order, exactly if there is no pop to move. */
  lemma PopHalfIsRightIff<T>(m: Mem<T>, size: nat, tail: nat, last: nat, pops: seq<Saved>)
    requires Narrow(size) && Listed(m, size, pops) && AllDiffer(m.slots) && PopsMovable(size, tail, last, pops)
    ensures tail + |pops| <= last
    ensures Window(AfterPops(m, size, pops).slots, tail + |pops|, last) == ValuesOf(m.slots, Remaining(tail, last, pops))
            <==> pops == []
  {
    FewPops(size, tail, last, pops);
    if pops == [] {
      NoPopsIsRight(m, size, tail, last);
    } else {
      FirstIsWrong(m, size, tail, last, pops);
    }
  }

  // The copy loops of the methods.

  /** The copy loop, at entry j after i copies, will end with this memory. */
  ghost predicate CopyLeadsTo<T>(m: Mem<T>, size: nat, r: Role, start: nat, list: seq<Saved>, j: nat, i: nat, goal: Mem<T>) {
    size > 0 && Listed(m, size, list) && j <= |list| && CopyFrom(m, size, r, start, list, j, i) == goal
  }

  lemma CopyGoesOn<T>(m: Mem<T>, size: nat, r: Role, start: nat, list: seq<Saved>, j: nat, i: nat, goal: Mem<T>)
    requires CopyLeadsTo(m, size, r, start, list, j, i, goal) && j < |list|
    ensures var dst, src := Target(r, start, i), ToInt(list[j].ticket);
            if ToCopy(r, dst, src) then
              CopyLeadsTo(CopyOne(m, dst, src, list[j].thread), size, r, start, list, j + 1, i + 1, goal)
            else CopyLeadsTo(m, size, r, start, list, j + 1, i, goal)
  {}
}
