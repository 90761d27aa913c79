/** Epoch-based reclamation, one thread's part (linkedlist/include/ebr.h): the list of retired blocks, kept
    in an array of nodes with a bitmap of its own, and retire, get_min and empty. */
module Reclaimer {
  import opened ListCommon
  import opened SlotBitmap

  /** A node pointer. */
  datatype Ptr = Null | Node(n: nat)

  /** A pointer to a node pointer: to the list's head, or to the next field of a node. */
  datatype Place = Head | NextOf(n: nat)

  // Linked lists of nodes.

  ghost function PtrTo(nodes: seq<nat>, i: nat): Ptr {
    if i < |nodes| then Node(nodes[i]) else Null
  }

  /** What points to the i-th node, or to null behind the last. */
  ghost function PlaceOf(nodes: seq<nat>, i: nat): Place
    requires i <= |nodes|
  {
    if i == 0 then Head else NextOf(nodes[i - 1])
  }

  ghost predicate LinkOk(next: seq<Ptr>, nodes: seq<nat>, i: nat) {
    i < |nodes| ==> nodes[i] < |next| && next[nodes[i]] == PtrTo(nodes, i + 1)
  }

  ghost predicate IsChain(head: Ptr, next: seq<Ptr>, nodes: seq<nat>) {
    && head == PtrTo(nodes, 0)
    && (forall i: nat {:trigger LinkOk(next, nodes, i)} :: LinkOk(next, nodes, i))
    && (forall i, j :: 0 <= i < j < |nodes| ==> nodes[i] != nodes[j])
  }

  /** head and next after a store through a place. */
  predicate Stored(place: Place, q: Ptr, head: Ptr, next: seq<Ptr>, head': Ptr, next': seq<Ptr>) {
    && head' == (if place.Head? then q else head)
    && |next'| == |next|
    && (forall x :: 0 <= x < |next| ==> next'[x] == if place == NextOf(x) then q else next[x])
  }

  lemma AppendedIsChain(nodes: seq<nat>, n: nat, head: Ptr, next: seq<Ptr>, head': Ptr, next': seq<Ptr>)
    requires IsChain(head, next, nodes) && n < |next| && n !in nodes
    requires forall i :: 0 <= i < |nodes| ==> nodes[i] < |next|
    requires Stored(PlaceOf(nodes, |nodes|), Node(n), head, next[n := Null], head', next')
    ensures IsChain(head', next', nodes + [n])
  {
    forall i: nat ensures LinkOk(next', nodes + [n], i) {
      assert LinkOk(next, nodes, i);
    }
  }

  ghost function Skip<T>(s: seq<T>, i: nat): (r: seq<T>)
    requires i < |s|
    ensures |r| == |s| - 1
    ensures forall j {:trigger r[j]} :: 0 <= j < |r| ==> r[j] == if j < i then s[j] else s[j + 1]
  {
    s[..i] + s[i + 1..]
  }

  lemma UnlinkedLink(nodes: seq<nat>, i: nat, head: Ptr, next: seq<Ptr>, head': Ptr, next': seq<Ptr>, j: nat)
    requires IsChain(head, next, nodes) && i < |nodes| && nodes[i] < |next| && j < |nodes| - 1
    requires Stored(PlaceOf(nodes, i), next[nodes[i]], head, next, head', next')
    ensures LinkOk(next', Skip(nodes, i), j)
  {
    var k := if j < i then j else j + 1;
    assert LinkOk(next, nodes, k) && LinkOk(next, nodes, i);
    assert i > 0 && k != i - 1 ==> nodes[k] != nodes[i - 1];
    if j + 1 < |nodes| - 1 {
      assert Skip(nodes, i)[j + 1] == nodes[if j + 1 < i then j + 1 else j + 2];
    }
  }

  lemma UnlinkedIsChain(nodes: seq<nat>, i: nat, head: Ptr, next: seq<Ptr>, head': Ptr, next': seq<Ptr>)
    requires IsChain(head, next, nodes) && i < |nodes| && nodes[i] < |next|
    requires Stored(PlaceOf(nodes, i), next[nodes[i]], head, next, head', next')
    ensures IsChain(head', next', Skip(nodes, i))
  {
    assert LinkOk(next, nodes, 0);
    forall j: nat ensures LinkOk(next', Skip(nodes, i), j) {
      if j < |nodes| - 1 {
        UnlinkedLink(nodes, i, head, next, head', next', j);
      }
    }
  }

  ghost function Entries(data: seq<Entry>, nodes: seq<nat>): (s: seq<Entry>)
    requires forall i :: 0 <= i < |nodes| ==> nodes[i] < |data|
    ensures |s| == |nodes|
  {
    seq(|nodes|, i requires 0 <= i < |nodes| => data[nodes[i]])
  }

  /** The entries that `empty` keeps. */
  function Kept(list: seq<Entry>, min: Res): seq<Entry> {
    if list == [] then []
    else Kept(list[..|list| - 1], min) + if Before(list[|list| - 1].epoch, min) then [] else [list[|list| - 1]]
  }

  /** The slots that `empty` frees. */
  ghost function Freed(list: seq<Entry>, min: Res): set<nat> {
    set i | 0 <= i < |list| && Before(list[i].epoch, min) :: list[i].idx
  }

  lemma FreedStep(list: seq<Entry>, min: Res)
    requires |list| > 0
    ensures var last := list[|list| - 1];
            Freed(list, min) == Freed(list[..|list| - 1], min) + if Before(last.epoch, min) then {last.idx} else {}
  {
    var front := list[..|list| - 1];
    forall x | x in Freed(list, min) ensures x in Freed(front, min) || x == list[|list| - 1].idx {
      var i :| 0 <= i < |list| && Before(list[i].epoch, min) && list[i].idx == x;
      assert i < |front| ==> front[i] == list[i];
    }
    forall x | x in Freed(front, min) ensures x in Freed(list, min) {
      var i :| 0 <= i < |front| && Before(front[i].epoch, min) && front[i].idx == x;
      assert list[i] == front[i];
    }
  }

  ghost predicate AllBelow(list: seq<Entry>, n: nat) {
    forall i :: 0 <= i < |list| ==> list[i].idx < n
  }

  /** What `empty` has done after k entries. */
  ghost predicate DoneUpTo(all: seq<Entry>, k: nat, min: Res, kept: seq<Entry>, freed: set<nat>) {
    k <= |all| && kept == Kept(all[..k], min) && freed == Freed(all[..k], min)
  }

  lemma OneMore(all: seq<Entry>, k: nat, min: Res, kept: seq<Entry>, freed: set<nat>)
    requires k < |all| && DoneUpTo(all, k, min, kept, freed)
    ensures if Before(all[k].epoch, min) then DoneUpTo(all, k + 1, min, kept, freed + {all[k].idx})
            else DoneUpTo(all, k + 1, min, kept + [all[k]], freed)
    ensures (kept + all[k..])[|kept|] == all[k]
    ensures Skip(kept + all[k..], |kept|) == kept + all[k + 1..]
    ensures kept + all[k..] == kept + [all[k]] + all[k + 1..]
  {
    assert all[..k + 1][..k] == all[..k];
    FreedStep(all[..k + 1], min);
  }

  class RList {
    const bm: Bitmap
    const data: array<Entry>
    const next: array<Ptr>
    var head: Ptr
    var size: nat
    /** The nodes of the list, in order. */
    ghost var nodes: seq<nat>

    ghost predicate Valid()
      reads this, bm.words, data, next
    {
      && data.Length == next.Length == bm.words.Length * 64 && bm.words.Length > 0
      && size == |nodes|
      && IsChain(head, next[..], nodes)
      && (forall i :: 0 <= i < |nodes| ==> nodes[i] < next.Length)
      && (forall x: nat :: x < next.Length ==> (bm.IsFree(x) <==> x !in nodes))
    }

    ghost function Contents(): (s: seq<Entry>)
      reads this, bm.words, data, next
      requires Valid()
      ensures |s| == size
    {
      Entries(data[..], nodes)
    }

    /** list_new, for LL_SIZE blocks. */
    constructor (llSize: nat)
      requires llSize >= 64
      ensures Valid() && fresh(data) && fresh(next) && fresh(bm.words)
      ensures Contents() == [] && bm.words.Length == llSize / 64
    {
      bm := new Bitmap(llSize);
      data := new Entry[llSize / 64 * 64](_ => Entry(0, 0));
      next := new Ptr[llSize / 64 * 64](_ => Null);
      head, size, nodes := Null, 0, [];
    }

    function Load(p: Place): Ptr
      reads this, next
      requires p.NextOf? ==> p.n < next.Length
    {
      if p.Head? then head else next[p.n]
    }

    method Store(p: Place, q: Ptr)
      requires p.NextOf? ==> p.n < next.Length
      modifies `head, next
      ensures Stored(p, q, old(head), old(next[..]), head, next[..])
    {
      if p.Head? {
        head := q;
      } else {
        next[p.n] := q;
      }
    }

    /** new_node: a node taken from the bitmap, if one can be found. */
    method NewNode() returns (ok: bool, n: nat)
      requires bm.words.Length > 0
      modifies bm.words
      ensures ok <==> exists x: nat :: old(x in bm.Free()) && InLowHalf(x)
      ensures ok ==> n < bm.words.Length * 64 && old(bm.IsFree(n))
      ensures forall x: nat :: bm.IsFree(x) <==> old(bm.IsFree(x)) && !(ok && x == n)
    {
      n := bm.FindFirst();
      ok := n >= 1;
      if ok {
        n := n - 1;
        var was := bm.ClearBit(n);
      }
    }

    /** The walk of list_add to the null pointer behind the last node. */
    method FindEnd() returns (place: Place)
      requires IsChain(head, next[..], nodes) && forall i :: 0 <= i < |nodes| ==> nodes[i] < next.Length
      ensures place == PlaceOf(nodes, |nodes|)
    {
      place := Head;
      ghost var i := 0;
      while Load(place) != Null
        invariant i <= |nodes| && place == PlaceOf(nodes, i) && Load(place) == PtrTo(nodes, i)
        decreases |nodes| - i
      {
        assert LinkOk(next[..], nodes, i);
        place := NextOf(Load(place).n);
        i := i + 1;
      }
    }

    /** list_add appends; it fails, and changes nothing, when no node can be found. */
    method Add(idx: nat, epoch: nat) returns (ok: bool)
      requires Valid()
      modifies this, bm.words, data, next
      ensures Valid()
      ensures ok <==> exists x: nat :: old(x in bm.Free()) && InLowHalf(x)
      ensures Contents() == old(Contents()) + if ok then [Entry(idx, epoch)] else []
    {
      var n;
      ok, n := NewNode();
      if ok {
        ghost var was := next[..];
        data[n] := Entry(idx, epoch);
        next[n] := Null;
        forall i: nat ensures LinkOk(next[..], nodes, i) {
          assert LinkOk(was, nodes, i);
        }
        var place := FindEnd();
        ghost var head0 := head;
        Store(place, Node(n));
        AppendedIsChain(nodes, n, head0, was, head, next[..]);
        nodes := nodes + [n];
        size := size + 1;
      }
    }

    lemma PlacePoints(i: nat)
      requires Valid() && i <= |nodes|
      ensures i > 0 ==> nodes[i - 1] < next.Length
      ensures Load(PlaceOf(nodes, i)) == PtrTo(nodes, i)
    {
      if i > 0 {
        assert LinkOk(next[..], nodes, i - 1);
      }
    }

    /** The node the place points to is given back and taken off the list. */
    method Unlink(place: Place, ghost i: nat)
      requires Valid() && i < |nodes| && place == PlaceOf(nodes, i)
      modifies this, bm.words, next
      ensures Valid() && nodes == Skip(old(nodes), i) && Contents() == Skip(old(Contents()), i)
    {
      PlacePoints(i);
      var n := Load(place).n;
      var rest := next[n];
      bm.SetBit(n);
      ghost var head0, next0 := head, next[..];
      Store(place, rest);
      UnlinkedIsChain(nodes, i, head0, next0, head, next[..]);
      ghost var left := Skip(nodes, i);
      assert forall x: nat :: x in nodes <==> x in left || x == n by {
        assert nodes[i] == n && nodes == nodes[..i] + [n] + nodes[i + 1..];
      }
      nodes := left;
      size := size - 1;
    }

    /** One removal in empty: the block's slot is freed first. */
    method Release(slots: Bitmap, place: Place, ghost i: nat)
      requires Valid() && i < |nodes| && place == PlaceOf(nodes, i) && slots.words != bm.words
      requires Contents()[i].idx < slots.words.Length * 64
      modifies this, bm.words, next, slots.words
      ensures Valid() && nodes == Skip(old(nodes), i) && Contents() == Skip(old(Contents()), i)
      ensures slots.Free() == old(slots.Free()) + {old(Contents()[i].idx)}
    {
      PlacePoints(i);
      var n := Load(place).n;
      assert Contents()[i] == data[n];
      slots.SetBit(data[n].idx);
      Unlink(place, i);
    }

    /** The loop of empty stands at this place, with k entries behind it. */
    ghost predicate AtEntry(place: Place, all: seq<Entry>, k: nat, min: Res, kept: seq<Entry>, freed: set<nat>)
      reads this, bm.words, data, next
    {
      && Valid() && DoneUpTo(all, k, min, kept, freed)
      && |kept| <= |nodes| && place == PlaceOf(nodes, |kept|)
      && Contents() == kept + all[k..]
    }

    /** One turn of the loop of empty. */
    method Turn(slots: Bitmap, place: Place, ghost all: seq<Entry>, ghost k: nat, min: Res,
                ghost kept: seq<Entry>, ghost freed: set<nat>, ghost start: set<nat>)
      returns (place': Place, ghost kept': seq<Entry>, ghost freed': set<nat>)
      requires AtEntry(place, all, k, min, kept, freed) && slots.words != bm.words && k < |all|
      requires all[k].idx < slots.words.Length * 64 && slots.Free() == start + freed
      modifies this, bm.words, next, slots.words
      ensures AtEntry(place', all, k + 1, min, kept', freed')
      ensures slots.Free() == start + freed'
    {
      OneMore(all, k, min, kept, freed);
      PlacePoints(|kept|);
      var n := Load(place).n;
      assert Contents()[|kept|] == data[n];
      if Before(data[n].epoch, min) {
        Release(slots, place, |kept|);
        place', kept', freed' := place, kept, freed + {all[k].idx};
      } else {
        place', kept', freed' := NextOf(n), kept + [all[k]], freed;
      }
    }

    lemma EndOfList(place: Place, all: seq<Entry>, k: nat, min: Res, kept: seq<Entry>, freed: set<nat>)
      requires AtEntry(place, all, k, min, kept, freed)
      ensures place.NextOf? ==> place.n < next.Length
      ensures Load(place) == Null <==> k == |all|
      ensures k == |all| ==> Contents() == Kept(all, min) && freed == Freed(all, min)
    {
      PlacePoints(|kept|);
      assert |Contents()| == |nodes|;
      assert k == |all| ==> all[..k] == all;
    }

    /** empty: free every block retired before the lowest reservation, and its node. */
    method Empty(slots: Bitmap, min: Res)
      requires Valid() && slots.words != bm.words
      requires AllBelow(Contents(), slots.words.Length * 64)
      modifies this, bm.words, next, slots.words
      ensures Valid()
      ensures Contents() == Kept(old(Contents()), min)
      ensures slots.Free() == old(slots.Free()) + Freed(old(Contents()), min)
    {
      var place := Head;
      ghost var all := Contents();
      ghost var k, kept, freed, start := 0, [], {}, slots.Free();
      EndOfList(place, all, k, min, kept, freed);
      while Load(place) != Null
        invariant AtEntry(place, all, k, min, kept, freed)
        invariant place.NextOf? ==> place.n < next.Length
        invariant slots.Free() == start + freed
        decreases |all| - k
      {
        EndOfList(place, all, k, min, kept, freed);
        place, kept, freed := Turn(slots, place, all, k, min, kept, freed, start);
        k := k + 1;
        EndOfList(place, all, k, min, kept, freed);
      }
      EndOfList(place, all, k, min, kept, freed);
    }
  }

  // Sorted lists.

  predicate EpochOrder(list: seq<Entry>, i: nat, j: nat) {
    i < j < |list| ==> list[i].epoch <= list[j].epoch
  }

  ghost predicate SortedByEpoch(list: seq<Entry>) {
    forall i: nat, j: nat {:trigger EpochOrder(list, i, j)} :: EpochOrder(list, i, j)
  }

  /** The number of entries older than min, at the front of a sorted list. */
  function Older(list: seq<Entry>, min: Res): (k: nat)
    ensures k <= |list|
  {
    if list == [] then 0
    else Older(list[..|list| - 1], min) + if Before(list[|list| - 1].epoch, min) then 1 else 0
  }

  lemma {:induction false} AllOlder(list: seq<Entry>, min: Res)
    requires forall i :: 0 <= i < |list| ==> Before(list[i].epoch, min)
    ensures Kept(list, min) == [] && Older(list, min) == |list|
  {
    if |list| > 0 {
      AllOlder(list[..|list| - 1], min);
    }
  }

  lemma SortedFront(list: seq<Entry>, n: nat)
    requires SortedByEpoch(list) && n <= |list|
    ensures SortedByEpoch(list[..n])
  {
    forall i: nat, j: nat ensures EpochOrder(list[..n], i, j) {
      assert EpochOrder(list, i, j);
    }
  }

  lemma SortedRest(list: seq<Entry>, k: nat)
    requires SortedByEpoch(list) && k <= |list|
    ensures SortedByEpoch(list[k..])
  {
    forall i: nat, j: nat ensures EpochOrder(list[k..], i, j) {
      assert EpochOrder(list, i + k, j + k);
    }
  }

  lemma AppendSorted(list: seq<Entry>, e: Entry)
    requires SortedByEpoch(list) && forall i :: 0 <= i < |list| ==> list[i].epoch <= e.epoch
    ensures SortedByEpoch(list + [e])
  {
    forall i: nat, j: nat ensures EpochOrder(list + [e], i, j) {
      assert EpochOrder(list, i, j);
    }
  }

  /** On a sorted list exactly the entries in front are freed. */
  lemma {:induction false} OlderAreInFront(list: seq<Entry>, min: Res, i: nat)
    requires SortedByEpoch(list) && i < |list|
    ensures Before(list[i].epoch, min) <==> i < Older(list, min)
  {
    var n := |list| - 1;
    SortedFront(list, n);
    if Before(list[n].epoch, min) {
      forall k: nat | k < |list| ensures Before(list[k].epoch, min) {
        assert EpochOrder(list, k, n);
      }
      AllOlder(list, min);
    } else if i < n {
      OlderAreInFront(list[..n], min, i);
    }
  }

  /** And the survivors are the rest, in order. */
  lemma {:induction false} SurvivorsAreSuffix(list: seq<Entry>, min: Res)
    requires SortedByEpoch(list)
    ensures Kept(list, min) == list[Older(list, min)..]
  {
    if |list| > 0 {
      var n := |list| - 1;
      if Before(list[n].epoch, min) {
        forall k: nat | k < |list| ensures Before(list[k].epoch, min) {
          assert EpochOrder(list, k, n);
        }
        AllOlder(list, min);
      } else {
        SortedFront(list, n);
        SurvivorsAreSuffix(list[..n], min);
        SuffixGrows(list, Older(list[..n], min), n);
      }
    }
  }

  lemma SuffixGrows(list: seq<Entry>, k: nat, n: nat)
    requires k <= n < |list|
    ensures list[k..n + 1] == list[..n][k..] + [list[n]]
  {}

  // The lowest reservation.

  /** The scan of get_min over n reservations, if each is loaded twice: `first` to compare, `second` to
      copy. */
  function ScanTwice(first: seq<Res>, second: seq<Res>, n: nat): Res
    requires 1 <= n <= |first| == |second|
  {
    if n == 1 then first[0]
    else
      var min := ScanTwice(first, second, n - 1);
      if Less(first[n - 1], min) then second[n - 1] else min
  }

  /** The scan is not above any reservation that held still. */
  ghost predicate Bounds(first: seq<Res>, second: seq<Res>, n: nat)
    requires 1 <= n <= |first| == |second|
  {
    forall i :: 0 <= i < n && first[i] == second[i] ==> AtMost(ScanTwice(first, second, n), first[i])
  }

  /** What the scan takes over from reservation k, if it takes anything. */
  function Copy(first: seq<Res>, second: seq<Res>, k: nat): Res
    requires k < |first| == |second|
  {
    if k == 0 then first[0] else second[k]
  }

  /** The last reservation that the scan copied: the last one found below the copy before it. */
  function LastCopied(first: seq<Res>, second: seq<Res>, n: nat): (k: nat)
    requires 1 <= n <= |first| == |second|
    ensures k < n
  {
    if n == 1 then 0
    else
      var k := LastCopied(first, second, n - 1);
      if Less(first[n - 1], Copy(first, second, k)) then n - 1 else k
  }

  lemma {:induction false} ScanIsLastCopy(first: seq<Res>, second: seq<Res>, n: nat)
    requires 1 <= n <= |first| == |second|
    ensures ScanTwice(first, second, n) == Copy(first, second, LastCopied(first, second, n))
    ensures forall i :: LastCopied(first, second, n) < i < n ==> AtMost(ScanTwice(first, second, n), first[i])
  {
    if n > 1 {
      ScanIsLastCopy(first, second, n - 1);
    }
  }

  /** With two loads per reservation the minimum found is sound exactly when the last copying load did not
      rise above a reservation in front of it that held still. */
  lemma TwoLoadsSoundIff(first: seq<Res>, second: seq<Res>)
    requires 1 <= |first| == |second|
    ensures var k := LastCopied(first, second, |first|);
            Bounds(first, second, |first|)
            <==> forall i :: 0 <= i < k && first[i] == second[i] ==> AtMost(second[k], first[i])
  {
    ScanIsLastCopy(first, second, |first|);
  }

  /** The copying load of reservation k takes over a value above the minimum it replaces. */
  predicate Overtaken(first: seq<Res>, second: seq<Res>, k: nat)
    requires 1 <= k < |first| == |second|
  {
    Less(first[k], ScanTwice(first, second, k)) && Less(ScanTwice(first, second, k), second[k])
  }

  /** If no copy is above the minimum it replaces, the scan is sound at every turn. */
  lemma {:induction false} SteadyScanIsSound(first: seq<Res>, second: seq<Res>, n: nat)
    requires 1 <= n <= |first| == |second|
    requires forall k :: 1 <= k < n ==> !Overtaken(first, second, k)
    ensures Bounds(first, second, n)
  {
    if n > 1 {
      SteadyScanIsSound(first, second, n - 1);
      assert !Overtaken(first, second, n - 1);
    }
  }

  /** It is not always sound: thread 0 holds epoch 5 all the time, thread 1 ends its operation between the
      two loads, and the scan finds no reservation at all. */
  lemma TwoLoadsCanMiss()
    ensures !Bounds([At(5), At(3)], [At(5), Never], 2)
  {
    var first, second := [At(5), At(3)], [At(5), Never];
    assert first[0] == second[0] && !AtMost(ScanTwice(first, second, 2), first[0]);
  }

  /** With one load each it always is. */
  lemma OneLoadIsSound(res: seq<Res>, n: nat)
    requires 1 <= n <= |res|
    ensures Bounds(res, res, n)
  {
    SteadyScanIsSound(res, res, n);
  }

  /** The entries kept and the slots freed, one by one. */
  lemma {:induction false} KeptAndFreed(list: seq<Entry>, min: Res)
    ensures forall n :: n in Kept(list, min) <==> n in list && !Before(n.epoch, min)
    ensures forall x: nat :: x in Freed(list, min) <==> exists n :: n in list && Before(n.epoch, min) && n.idx == x
  {
    if list != [] {
      var front := list[..|list| - 1];
      KeptAndFreed(front, min);
      assert list == front + [list[|list| - 1]];
    }
  }

  class Ebr {
    var epoch: nat
    var counter: nat
    const reservations: array<Res>
    const retired: RList

    ghost predicate Valid()
      reads this, reservations, retired, retired.bm.words, retired.data, retired.next
    {
      && retired.Valid() && reservations.Length > 0
      && SortedByEpoch(retired.Contents())
      && (forall i :: 0 <= i < |retired.Contents()| ==> retired.Contents()[i].epoch <= epoch)
    }

    constructor (threads: nat, llSize: nat)
      requires threads > 0 && llSize >= 64
      ensures Valid() && retired.Contents() == []
      ensures reservations.Length == threads && forall i :: 0 <= i < threads ==> reservations[i] == Never
    {
      epoch, counter := 0, 0;
      reservations := new Res[threads](_ => Never);
      retired := new RList(llSize);
    }

    /** get_min: the lowest reservation. */
    method GetMin() returns (min: Res)
      requires reservations.Length > 0
      ensures min in reservations[..]
      ensures forall i :: 0 <= i < reservations.Length ==> AtMost(min, reservations[i])
    {
      min := reservations[0];
      var i := 1;
      while i < reservations.Length
        invariant 1 <= i <= reservations.Length && min in reservations[..]
        invariant forall j :: 0 <= j < i ==> AtMost(min, reservations[j])
      {
        if Less(reservations[i], min) {
          min := reservations[i];
        }
        i := i + 1;
      }
    }

    /** Thread tid's reservation holds back the slots retired in epoch e. */
    ghost predicate Guards(tid: nat, e: nat)
      reads reservations
    {
      tid < reservations.Length && reservations[tid].At? && reservations[tid].n <= e
    }

    ghost predicate Guarded(e: nat)
      reads reservations
    {
      exists tid: nat :: Guards(tid, e)
    }

    /** start_op, of thread tid: from now on it holds back exactly what is retired in the current epoch or
        later. */
    method StartOp(tid: nat)
      requires tid < reservations.Length
      modifies reservations
      ensures forall e: nat :: Guards(tid, e) <==> e >= epoch
      ensures forall q: nat, e: nat :: q != tid ==> Guards(q, e) == old(Guards(q, e))
      ensures forall e: nat :: Guarded(e) <==> e >= epoch || exists q: nat :: q != tid && old(Guards(q, e))
    {
      reservations[tid] := At(epoch);
      assert forall q: nat, e: nat :: q != tid ==> Guards(q, e) == old(Guards(q, e));
      forall e: nat ensures Guarded(e) <==> e >= epoch || exists q: nat :: q != tid && old(Guards(q, e)) {
        assert Guards(tid, e) <==> e >= epoch;
      }
    }

    /** end_op, of thread tid: what it alone held back can be freed. */
    method EndOp(tid: nat)
      requires tid < reservations.Length
      modifies reservations
      ensures forall e: nat :: !Guards(tid, e)
      ensures forall q: nat, e: nat :: q != tid ==> Guards(q, e) == old(Guards(q, e))
      ensures forall e: nat :: Guarded(e) <==> exists q: nat :: q != tid && old(Guards(q, e))
    {
      reservations[tid] := Never;
      assert forall q: nat, e: nat :: q != tid ==> Guards(q, e) == old(Guards(q, e));
    }

    ghost predicate IsLowest(min: Res)
      reads reservations
    {
      && min in reservations[..]
      && (forall i :: 0 <= i < reservations.Length ==> AtMost(min, reservations[i]))
    }

    /** What is retired before the lowest reservation is what no reservation holds back. */
    lemma LowestDecides(min: Res, e: nat)
      requires IsLowest(min)
      ensures Before(e, min) <==> !Guarded(e)
    {
      var i :| 0 <= i < reservations.Length && reservations[i] == min;
      assert !Before(e, min) ==> Guards(i, e);
    }

    /** empty, with the scan of the reservations that it begins with: frees exactly the entries that nobody
        holds back. */
    method Empty(slots: Bitmap) returns (ghost min: Res)
      requires Valid() && slots.words != retired.bm.words
      requires AllBelow(retired.Contents(), slots.words.Length * 64)
      modifies retired, retired.bm.words, retired.next, slots.words
      ensures Valid() && IsLowest(min)
      ensures retired.Contents() == Kept(old(retired.Contents()), min)
      ensures slots.Free() == old(slots.Free()) + Freed(old(retired.Contents()), min)
      ensures forall n :: n in retired.Contents() <==> n in old(retired.Contents()) && Guarded(n.epoch)
      ensures forall x: nat :: x in slots.Free() <==>
                old(x in slots.Free()) || exists n :: n in old(retired.Contents()) && !Guarded(n.epoch) && n.idx == x
    {
      ghost var list := retired.Contents();
      var lowest := GetMin();
      SurvivorsAreSuffix(retired.Contents(), lowest);
      SortedRest(retired.Contents(), Older(retired.Contents(), lowest));
      retired.Empty(slots, lowest);
      min := lowest;
      assert IsLowest(min);
      forall e: nat ensures Before(e, min) <==> !Guarded(e) {
        LowestDecides(min, e);
      }
      KeptAndFreed(list, min);
    }

    /** The part of retire before the clean-up: the slot goes to the end of the list. */
    method Enlist(idx: nat) returns (ok: bool)
      requires Valid()
      modifies this, retired, retired.bm.words, retired.data, retired.next
      ensures Valid()
      ensures ok <==> exists x: nat :: old(x in retired.bm.Free()) && InLowHalf(x)
      ensures retired.Contents() == old(retired.Contents()) + if ok then [Entry(idx, old(epoch))] else []
      ensures counter == old(counter) + if ok then 1 else 0
      ensures epoch == old(epoch) + if ok && counter % EPOCH_FREQ == 0 then 1 else 0
    {
      ghost var list := retired.Contents();
      AppendSorted(list, Entry(idx, epoch));
      assert list + [] == list;
      ok := retired.Add(idx, epoch);
      assert retired.Contents() == if ok then list + [Entry(idx, epoch)] else list;
      if ok {
        counter := counter + 1;
        if counter % EPOCH_FREQ == 0 {
          epoch := epoch + 1;
        }
      }
    }

    /** retire: the slot goes to the end of the list, and whenever the list's length is a multiple of
        EMPTY_FREQ the list is emptied of what nobody has reserved. It fails, and changes nothing, when the
        list has no node left. */
    method Retire(slots: Bitmap, idx: nat) returns (ok: bool, ghost min: Res)
      requires Valid() && slots.words != retired.bm.words
      requires idx < slots.words.Length * 64 && AllBelow(retired.Contents(), slots.words.Length * 64)
      modifies this, retired, retired.bm.words, retired.data, retired.next, slots.words
      ensures Valid()
      ensures ok <==> exists x: nat :: old(x in retired.bm.Free()) && InLowHalf(x)
      ensures counter == old(counter) + if ok then 1 else 0
      ensures epoch == old(epoch) + if ok && counter % EPOCH_FREQ == 0 then 1 else 0
      ensures var longer := old(retired.Contents()) + if ok then [Entry(idx, old(epoch))] else [];
              if ok && |longer| % EMPTY_FREQ == 0 then
                IsLowest(min) && retired.Contents() == Kept(longer, min)
                && slots.Free() == old(slots.Free()) + Freed(longer, min)
              else
                retired.Contents() == longer && slots.Free() == old(slots.Free())
    {
      ok := Enlist(idx);
      min := Never;
      if ok && retired.size % EMPTY_FREQ == 0 {
        min := Empty(slots);
      }
    }
  }
}
