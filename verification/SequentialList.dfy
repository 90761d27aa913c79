/** The list of linkedlist/linkedlist.c run by one thread at a time, over arrays: search, contains, add,
    remove, and recovery. `retire` is modelled by the sequence of slots handed to it. */
module SequentialList {
  import opened ListCommon
  import opened ListShape
  import opened SlotBitmap
  import opened LogReplay
  import C = Compaction

  ghost predicate Differ(a: seq<nat>, b: seq<nat>, i: nat, j: nat) {
    i < |a| && j < |b| ==> a[i] != b[j]
  }

  /** No slot was retired twice, and none of them is on the chain. */
  ghost predicate Apart(retired: seq<nat>, chain: seq<nat>) {
    && (forall i: nat, j: nat {:trigger Differ(retired, retired, i, j)} :: i != j ==> Differ(retired, retired, i, j))
    && (forall i: nat, j: nat {:trigger Differ(retired, chain, i, j)} :: Differ(retired, chain, i, j))
  }

  /** The slots in use: on the chain, or retired. */
  ghost function InUse(chain: seq<nat>, retired: seq<nat>): set<nat> {
    (set x | x in chain) + (set x | x in retired)
  }

  lemma CutStaysInUse(chain: seq<nat>, retired: seq<nat>, l: nat, r: nat)
    requires l < r < |chain|
    ensures InUse(Cut(chain, l, r), retired + chain[l + 1..r]) == InUse(chain, retired)
  {
    assert chain == chain[..l + 1] + chain[l + 1..r] + chain[r..];
    assert Cut(chain, l, r) == chain[..l + 1] + chain[r..];
  }

  lemma InsertIsInUse(chain: seq<nat>, retired: seq<nat>, l: nat, x: nat)
    requires l < |chain|
    ensures InUse(Insert(chain, l, x), retired) == InUse(chain, retired) + {x}
  {
    assert chain == chain[..l + 1] + chain[l + 1..];
    assert Insert(chain, l, x) == chain[..l + 1] + [x] + chain[l + 1..];
  }

  lemma CutStaysApart(next: seq<Link>, data: seq<int>, retired: seq<nat>, chain: seq<nat>, l: nat, r: nat)
    requires IsList(next, data, chain) && Apart(retired, chain) && l < r < |chain|
    ensures Apart(retired + chain[l + 1..r], Cut(chain, l, r))
  {
    var n := |retired|;
    var more, c := retired + chain[l + 1..r], Cut(chain, l, r);
    forall i: nat, j: nat | i != j ensures Differ(more, more, i, j) {
      assert Differ(retired, retired, i, j);
      assert i < n <= j ==> Differ(retired, chain, i, l + 1 + j - n);
      assert j < n <= i ==> Differ(retired, chain, j, l + 1 + i - n);
      if n <= i < |more| && n <= j < |more| {
        DifferentSlots(next, data, chain, l + 1 + i - n, l + 1 + j - n);
      }
    }
    forall i: nat, j: nat ensures Differ(more, c, i, j) {
      var k := if j <= l then j else j + (r - l - 1);
      assert Differ(retired, chain, i, k);
      if n <= i < |more| && j < |c| {
        DifferentSlots(next, data, chain, l + 1 + i - n, k);
      }
    }
  }

  // Recovery.

  ghost function CellAt(next: seq<Link>, data: seq<int>, x: nat): C.Cell
    requires x < |next| == |data|
  {
    C.Cell(x, data[x], next[x].mark)
  }

  ghost function CellsOf(next: seq<Link>, data: seq<int>, chain: seq<nat>): (s: seq<C.Cell>)
    requires IsList(next, data, chain)
    ensures |s| == |chain| && C.Ended(s)
    ensures forall i {:trigger s[i]} :: 0 <= i < |s| ==> s[i] == CellAt(next, data, chain[i])
  {
    seq(|chain|, i requires 0 <= i < |chain| => CellAt(next, data, chain[i]))
  }

  lemma CellsAreSorted(next: seq<Link>, data: seq<int>, chain: seq<nat>)
    requires IsList(next, data, chain)
    ensures C.Sorted(CellsOf(next, data, chain)) && C.Distinct(CellsOf(next, data, chain))
  {
    var s := CellsOf(next, data, chain);
    forall i, j | 0 <= i < j < |s| ensures s[i].slot != s[j].slot {
      DifferentSlots(next, data, chain, i, j);
    }
    forall i: nat, j: nat ensures C.InOrder(s, i, j) {
      assert KeyOrder(data, chain, i, j);
    }
  }

  lemma KeysOfCells(next: seq<Link>, data: seq<int>, chain: seq<nat>)
    requires IsList(next, data, chain)
    ensures KeysOf(next, data, chain) == C.ListKeys(CellsOf(next, data, chain))
  {
    var s := CellsOf(next, data, chain);
    forall v | v in KeysOf(next, data, chain) ensures v in C.ListKeys(s) {
      var i := KeyFrom(next, data, chain, v);
      assert s[1..][i - 1] == s[i];
    }
    forall v | v in C.ListKeys(s) ensures v in KeysOf(next, data, chain) {
      var i :| 0 <= i < |s| - 2 && !s[1..][i].mark && s[1..][i].key == v;
      KeyIn(next, data, chain, i + 1);
    }
  }

  /** Recovery's compaction keeps the key set exactly when no marked node precedes an unmarked one, and it
      always leaves a sub-chain. */
  lemma CompactedKeys(next: seq<Link>, data: seq<int>, chain: seq<nat>, next': seq<Link>, chain': seq<nat>)
    requires IsList(next, data, chain) && IsList(next', data, chain') && !next[HEAD].mark
    requires CellsOf(next', data, chain') == C.Compact(CellsOf(next, data, chain))
    ensures KeysOf(next', data, chain') == KeysOf(next, data, chain) <==> C.MarksTrail(CellsOf(next, data, chain)[1..])
    ensures C.IsSubchain(CellsOf(next', data, chain'), CellsOf(next, data, chain))
  {
    var s := CellsOf(next, data, chain);
    KeysOfCells(next, data, chain);
    KeysOfCells(next', data, chain');
    CellsAreSorted(next, data, chain);
    C.CompactKeepsKeysIff(s);
    C.CompactIsSubchain(s);
  }

  lemma CellsAfterCut(next: seq<Link>, data: seq<int>, chain: seq<nat>, p: nat, q: nat)
    requires IsList(next, data, chain) && p < q && q + 1 < |chain|
    ensures IsList(next[chain[p] := Link(chain[q + 1], false)], data, Cut(chain, p, q + 1))
    ensures var s := CellsOf(next, data, chain);
            CellsOf(next[chain[p] := Link(chain[q + 1], false)], data, Cut(chain, p, q + 1))
            == s[..p] + [s[p].(mark := false)] + s[q + 1..]
  {
    CutIsList(next, data, chain, p, q + 1);
    var next', c := next[chain[p] := Link(chain[q + 1], false)], Cut(chain, p, q + 1);
    var s, s' := CellsOf(next, data, chain), CellsOf(next', data, c);
    var t := s[..p] + [s[p].(mark := false)] + s[q + 1..];
    forall i | 0 <= i < |s'| ensures s'[i] == t[i] {
      var k := if i <= p then i else i + (q - p);
      if k != p {
        DifferentSlots(next, data, chain, k, p);
      }
    }
  }

  ghost function FirstSlots(chain: seq<nat>, n: nat): set<nat>
    requires n <= |chain|
  {
    set x | x in chain[..n]
  }

  lemma OneMoreSlot(chain0: seq<nat>, chain: seq<nat>, n: nat)
    requires n < |chain| && n <= |chain0| && forall i :: 0 <= i < n ==> chain[i] == chain0[i]
    ensures FirstSlots(chain, n + 1) == FirstSlots(chain0, n) + {chain[n]}
  {
    assert chain[..n] == chain0[..n] && chain[..n + 1] == chain[..n] + [chain[n]];
  }

  lemma AllSlots(chain: seq<nat>)
    ensures forall x :: x in FirstSlots(chain, |chain|) <==> x in chain
  {
    assert chain[..|chain|] == chain;
  }

  class PList {
    const next: array<Link>
    const data: array<int>
    const bm: Bitmap
    const tlog: array<LogEntry>
    var size: int
    var retired: seq<nat>
    /** The nodes from head to tail. */
    ghost var chain: seq<nat>

    ghost predicate Shaped()
      reads this, next, data
    {
      && next.Length == data.Length >= bm.words.Length * 64 && bm.words.Length > 0
      && IsList(next[..], data[..], chain)
    }

    /** Every slot is free, on the chain or retired, and only one of these. */
    ghost predicate SlotsOk()
      reads this, bm.words
    {
      && (forall x: nat {:trigger bm.IsFree(x)} :: x < bm.words.Length * 64 ==> (bm.IsFree(x) <==> x !in InUse(chain, retired)))
      && Apart(retired, chain)
    }

    ghost predicate Valid()
      reads this, next, data, bm.words
    {
      && Shaped() && SlotsOk()
      && !next[HEAD].mark && data[HEAD] == INT_MIN
    }

    ghost function Keys(): set<int>
      reads this, next, data
      requires Shaped()
    {
      KeysOf(next[..], data[..], chain)
    }

    /** new_p_node: the lowest slot the allocator can find; the program ends when there is none. */
    method NewNode(val: int, link: Link) returns (ok: bool, x: nat)
      requires next.Length == data.Length >= bm.words.Length * 64 && bm.words.Length > 0
      modifies next, data, bm.words
      ensures ok <==> exists y: nat :: old(bm.IsFree(y)) && InLowHalf(y)
      ensures ok ==> old(bm.IsFree(x)) && x < next.Length && forall y: nat :: y < x ==> !(old(bm.IsFree(y)) && InLowHalf(y))
      ensures forall y: nat :: bm.IsFree(y) <==> old(bm.IsFree(y)) && !(ok && y == x)
      ensures next[..] == if ok then old(next[..])[x := link] else old(next[..])
      ensures data[..] == if ok then old(data[..])[x := val] else old(data[..])
    {
      x := bm.FindFirst();
      ok := x >= 1;
      if ok {
        x := x - 1;
        assert x in bm.Free();
        var was := bm.ClearBit(x);
        data[x] := val;
        next[x] := link;
      } else {
        assert forall y: nat :: bm.IsFree(y) ==> y in bm.Free();
      }
    }

    /** init: on a fresh array the sentinels get the first two slots. */
    method Init()
      requires next.Length == data.Length >= bm.words.Length * 64 && bm.words.Length > 0
      requires forall y: nat :: y < bm.words.Length * 64 ==> bm.IsFree(y)
      modifies this, next, data, bm.words
      ensures Valid() && Keys() == {} && retired == [] && size == 0
    {
      assert bm.IsFree(0) && InLowHalf(0);
      var ok, head := NewNode(INT_MIN, Link(0, false));
      assert bm.IsFree(1) && InLowHalf(1);
      var tail;
      ok, tail := NewNode(INT_MAX, Link(next.Length, false));
      next[head] := Link(tail, false);
      size, retired, chain := 0, [], [head, tail];
      assert head == HEAD && tail == TAIL;
    }

    /** p_list_new, when there is no list to recover. */
    constructor (llSize: nat, threads: nat)
      requires llSize >= 64
      ensures Valid() && Keys() == {} && retired == [] && size == 0
      ensures tlog.Length == threads && forall i :: 0 <= i < threads ==> !tlog[i].inFlight
    {
      next := new Link[llSize](_ => Link(0, false));
      data := new int[llSize](_ => 0);
      bm := new Bitmap(llSize);
      tlog := new LogEntry[threads](_ => LogEntry(false, ReqAdd, 0));
      new;
      Init();
    }

    /** The inner loop of p_list_search: left, its successor as read, and right, with their positions. */
    method Traverse(val: int) returns (left: nat, leftNext: nat, t: nat, ghost l: nat, ghost r: nat)
      requires Valid() && val > INT_MIN
      ensures Found(next[..], data[..], chain, val, l, r)
      ensures left == chain[l] && leftNext == chain[l + 1] && t == chain[r]
    {
      t := HEAD;
      var tNext := next[HEAD];
      left, leftNext, l, r := 0, 0, 0, 0;
      while tNext.mark || data[t] < val
        invariant r < |chain| - 1 && t == chain[r] && tNext == next[t]
        invariant r > 0 ==> l < r && left == chain[l] && leftNext == chain[l + 1]
        invariant r > 0 ==> !next[left].mark && data[left] < val && forall k :: l < k < r ==> next[chain[k]].mark
        decreases |chain| - r
      {
        assert LinkOk(next[..], chain, r);
        if !tNext.mark {
          left, leftNext, l := t, tNext.idx, r;
        }
        t, r := tNext.idx, r + 1;
        if t == TAIL {
          break;
        }
        tNext := next[t];
      }
    }

    /** The loop of p_list_search that retires the nodes just unlinked, from `from` up to right. */
    method RetireRun(from: nat, right: nat, ghost whole: seq<nat>, ghost l: nat, ghost r: nat)
      requires l < r < |whole| && from == whole[l + 1] && right == whole[r]
      requires forall i :: l < i < r ==> whole[i] < next.Length && whole[i] != right && LinkOk(next[..], whole, i)
      modifies this`retired
      ensures retired == old(retired) + whole[l + 1..r]
    {
      var cur := from;
      ghost var k := l + 1;
      while cur != right
        invariant l < k <= r && cur == whole[k]
        invariant retired == old(retired) + whole[l + 1..k]
        decreases r - k
      {
        assert LinkOk(next[..], whole, k);
        retired := retired + [cur];
        cur := next[cur].idx;
        k := k + 1;
      }
    }

    /** The CAS of p_list_search that takes out the nodes between left and right. */
    method Snip(left: nat, leftNext: nat, right: nat, ghost l: nat, ghost r: nat)
      requires Valid() && l + 1 < r < |chain| && left == chain[l] && leftNext == chain[l + 1] && right == chain[r]
      requires !next[left].mark && forall k :: l < k < r ==> next[chain[k]].mark
      modifies this`retired, this`chain, next
      ensures Valid() && Keys() == old(Keys())
      ensures next[..] == old(next[..])[left := Link(right, false)]
      ensures chain == Cut(old(chain), l, r) && retired == old(retired) + old(chain[l + 1..r])
    {
      ghost var next0, data0, chain0 := next[..], data[..], chain;
      CutKeepsKeys(next0, data0, chain0, l, r);
      CutStaysApart(next0, data0, retired, chain0, l, r);
      CutStaysInUse(chain0, retired, l, r);
      assert LinkOk(next0, chain0, l) && next[left] == Link(leftNext, false);
      next[left] := Link(right, false);
      assert next[..] == next0[left := Link(right, false)];
      forall i | l < i < r ensures chain0[i] != right && LinkOk(next[..], chain0, i) {
        DifferentSlots(next0, data0, chain0, i, r);
        DifferentSlots(next0, data0, chain0, i, l);
        assert LinkOk(next0, chain0, i);
      }
      RetireRun(leftNext, right, chain0, l, r);
      chain := Cut(chain0, l, r);
    }

    /** One round of p_list_search. */
    method SearchRound(val: int) returns (left: nat, right: nat, ghost l: nat, ghost r: nat)
      requires Valid() && val > INT_MIN
      modifies this`retired, this`chain, next
      ensures Valid() && Keys() == old(Keys())
      ensures Found(old(next[..]), data[..], old(chain), val, l, r) && left == old(chain)[l] && right == old(chain)[r]
      ensures TookOut(old(next[..]), old(chain), old(retired), l, r)
      ensures !next[right].mark
    {
      var leftNext;
      left, leftNext, right, l, r := Traverse(val);
      if leftNext != right {
        ghost var next0, chain0 := next[..], chain;
        Snip(left, leftNext, right, l, r);
        FoundAfterCut(next0, data[..], chain0, val, l, r);
      } else {
        NothingToCut(next[..], data[..], chain, l, r);
      }
    }

    /** The memory as left by p_list_search: the nodes between positions l and r are out, and retired. */
    ghost predicate TookOut(next0: seq<Link>, chain0: seq<nat>, retired0: seq<nat>, l: nat, r: nat)
      reads this, next
    {
      && l < r < |chain0| && chain0[l] < |next0|
      && chain == Cut(chain0, l, r) && retired == retired0 + chain0[l + 1..r]
      && next[..] == next0[chain0[l] := Link(chain0[r], false)]
    }

    /** p_list_search, run alone. It ends in its first round: left and right are adjacent, left is the last
        unmarked node before val and right the first one not before it, or the tail. The marked nodes found
        in between are unlinked and retired, each once, and the key set stays as it is. */
    method Search(val: int) returns (left: nat, right: nat, ghost l: nat, ghost r: nat)
      requires Valid() && val > INT_MIN
      modifies this`retired, this`chain, next
      ensures Valid() && Keys() == old(Keys())
      ensures Found(next[..], data[..], chain, val, l, l + 1) && left == chain[l] && right == chain[l + 1]
      ensures Found(old(next[..]), data[..], old(chain), val, l, r)
      ensures TookOut(old(next[..]), old(chain), old(retired), l, r)
    {
      var done := false;
      left, right, l, r := 0, 0, 0, 0;
      ghost var next0, chain0, retired0, keys0 := next[..], chain, retired, Keys();
      while !done
        invariant Valid() && Keys() == keys0
        invariant !done ==> chain == chain0 && next[..] == next0 && retired == retired0
        invariant done ==> Found(next0, data[..], chain0, val, l, r) && left == chain0[l] && right == chain0[r]
        invariant done ==> TookOut(next0, chain0, retired0, l, r)
        decreases if done then 0 else 1
      {
        left, right, l, r := SearchRound(val);
        done := !next[right].mark;
      }
      FoundAfterCut(next0, data[..], chain0, val, l, r);
    }

    /** p_list_contains. */
    method ContainsKey(val: int) returns (present: bool)
      requires Valid()
      ensures present == (val in Keys())
    {
      var node := next[HEAD].idx;
      ghost var i := 1;
      assert LinkOk(next[..], chain, 0);
      while node != TAIL
        invariant 0 < i < |chain| && node == chain[i]
        invariant forall k :: 0 < k < i ==> next[chain[k]].mark || data[chain[k]] < val
        decreases |chain| - i
      {
        assert LinkOk(next[..], chain, i);
        if data[node] >= val && !next[node].mark {
          FirstNotBefore(next[..], data[..], chain, val, i);
          return data[node] == val;
        }
        node, i := next[node].idx, i + 1;
      }
      return false;
    }

    /** set_tlog. */
    method SetLog(tid: nat, req: Req, val: int)
      requires tid < tlog.Length
      modifies tlog
      ensures tlog[..] == old(tlog[..])[tid := LogEntry(true, req, val)]
    {
      tlog[tid] := tlog[tid].(req := req);
      tlog[tid] := tlog[tid].(val := val);
      tlog[tid] := tlog[tid].(inFlight := true);
    }

    /** clear_tlog. */
    method ClearLog(tid: nat)
      requires tid < tlog.Length
      modifies tlog
      ensures tlog[..] == old(tlog[..])[tid := old(tlog[tid]).(inFlight := false)]
    {
      tlog[tid] := tlog[tid].(inFlight := false);
    }

    /** The end of p_list_add: a new node between left and right. It fails when there is no slot for it. */
    method InsertBetween(val: int, left: nat, right: nat, ghost l: nat) returns (ok: bool)
      requires Valid() && l + 1 < |chain| && left == chain[l] && right == chain[l + 1] && !next[left].mark
      requires data[left] < val && (l + 1 < |chain| - 1 ==> val < data[right])
      modifies this`chain, next, data, bm.words
      ensures ok <==> exists y: nat :: old(bm.IsFree(y)) && InLowHalf(y)
      ensures Valid() && Keys() == old(Keys()) + if ok then {val} else {}
    {
      ghost var next0, data0 := next[..], data[..];
      var x;
      ok, x := NewNode(val, Link(right, false));
      if ok {
        assert x !in InUse(chain, retired);
        InsertAddsKey(next0, data0, chain, l, x, val);
        assert next[left] == Link(right, false) by {
          assert LinkOk(next0, chain, l);
        }
        next[left] := Link(x, false);
        assert next[..] == Linked(next0, chain, l, x) && data[..] == data0[x := val];
        chain := Insert(chain, l, x);
        InsertStaysApart(retired, old(chain), l, x);
        InsertIsInUse(old(chain), retired, l, x);
      }
    }

    /** p_list_search, and the test of its callers whether it found the key. */
    method Locate(val: int) returns (left: nat, right: nat, present: bool, ghost l: nat)
      requires Valid() && val > INT_MIN
      modifies this`retired, this`chain, next
      ensures Valid() && Keys() == old(Keys()) && present == (val in Keys())
      ensures l + 1 < |chain| && left == chain[l] && right == chain[l + 1]
      ensures !next[left].mark && data[left] < val
      ensures l + 1 < |chain| - 1 ==> !next[right].mark && data[right] >= val
      ensures present <==> l + 1 < |chain| - 1 && data[right] == val
      ensures old(retired) <= retired
    {
      ghost var r;
      left, right, l, r := Search(val);
      FoundDecides(next[..], data[..], chain, val, l, l + 1);
      present := right != TAIL && data[right] == val;
    }

    /** p_list_add, run alone. `ok` is false where the program ends for lack of memory. */
    method Add(tid: nat, val: int) returns (ok: bool, added: bool)
      requires Valid() && val > INT_MIN && tid < tlog.Length
      modifies this`retired, this`chain, next, data, bm.words, tlog
      ensures Valid()
      ensures ok <==> val in old(Keys()) || exists y: nat :: old(bm.IsFree(y)) && InLowHalf(y)
      ensures added == (ok && val !in old(Keys()))
      ensures Keys() == old(Keys()) + if added then {val} else {}
      ensures tlog[..] == if val in old(Keys()) then old(tlog[..]) else old(tlog[..])[tid := LogEntry(!ok, ReqAdd, val)]
    {
      var left, right, present;
      ghost var l;
      left, right, present, l := Locate(val);
      if present {
        return true, false;
      }
      SetLog(tid, ReqAdd, val);
      ok := InsertBetween(val, left, right, l);
      added := ok;
      if ok {
        ClearLog(tid);
      }
    }

    /** The first CAS of p_list_remove. */
    method Mark(right: nat, ghost i: nat)
      requires Valid() && 0 < i < |chain| - 1 && right == chain[i] && !next[right].mark
      modifies next
      ensures Valid() && Keys() == old(Keys()) - {data[right]}
      ensures next[..] == old(next[..])[right := Link(old(next[right]).idx, true)]
    {
      ghost var next0 := next[..];
      MarkDropsKey(next0, data[..], chain, i);
      DifferentSlots(next0, data[..], chain, 0, i);
      next[right] := Link(next[right].idx, true);
      assert next[..] == next0[right := Link(next0[right].idx, true)];
    }

    /** The second CAS of p_list_remove, and the retirement of the node it takes out. */
    method TakeOut(left: nat, right: nat, rightNext: nat, ghost l: nat)
      requires Valid() && l + 2 < |chain| && left == chain[l] && right == chain[l + 1] && rightNext == chain[l + 2]
      requires !next[left].mark && next[right].mark
      modifies this`retired, this`chain, next
      ensures Valid() && Keys() == old(Keys())
      ensures chain == Cut(old(chain), l, l + 2) && retired == old(retired) + [right]
    {
      ghost var next0, chain0 := next[..], chain;
      CutKeepsKeys(next0, data[..], chain, l, l + 2);
      CutStaysApart(next0, data[..], retired, chain, l, l + 2);
      CutStaysInUse(chain, retired, l, l + 2);
      assert LinkOk(next0, chain, l) && next[left] == Link(right, false);
      assert chain[l + 1..l + 2] == [right];
      next[left] := Link(rightNext, false);
      assert next[..] == next0[left := Link(rightNext, false)];
      retired := retired + [right];
      chain := Cut(chain, l, l + 2);
    }

    /** The part of p_list_remove that follows a successful search. */
    method RemoveBetween(left: nat, right: nat, ghost l: nat)
      requires Valid() && l + 2 < |chain| && left == chain[l] && right == chain[l + 1]
      requires !next[left].mark && !next[right].mark
      modifies this`retired, this`chain, next
      ensures Valid() && Keys() == old(Keys()) - {data[right]}
      ensures chain == Cut(old(chain), l, l + 2) && retired == old(retired) + [right]
    {
      var rightNext := next[right].idx;
      assert LinkOk(next[..], chain, l + 1);
      DifferentSlots(next[..], data[..], chain, l, l + 1);
      Mark(right, l + 1);
      TakeOut(left, right, rightNext, l);
    }

    /** p_list_remove, run alone. The node removed is the last one retired. */
    method Remove(tid: nat, val: int) returns (removed: bool)
      requires Valid() && val > INT_MIN && tid < tlog.Length
      modifies this`retired, this`chain, next, tlog
      ensures Valid()
      ensures removed == (val in old(Keys()))
      ensures Keys() == old(Keys()) - {val}
      ensures old(retired) <= retired
      ensures removed ==> |retired| > |old(retired)|
                          && retired[|retired| - 1] < data.Length && data[retired[|retired| - 1]] == val
      ensures tlog[..] == old(tlog[..])[tid := LogEntry(false, ReqRemove, val)]
    {
      SetLog(tid, ReqRemove, val);
      var left, right;
      ghost var l;
      left, right, removed, l := Locate(val);
      if removed {
        RemoveBetween(left, right, l);
      }
      ClearLog(tid);
    }

    ghost function Cells(): seq<C.Cell>
      reads this, next, data
      requires Shaped()
    {
      CellsOf(next[..], data[..], chain)
    }

    /** The inner loop of the compaction: the first node from here on that is not marked. */
    method SkipMarked(node: nat, ghost p: nat) returns (nextNode: nat, ghost q: nat)
      requires Shaped() && p < |chain| && node == chain[p]
      ensures p <= q < |chain| && nextNode == chain[q] && q == C.FirstUnmarked(Cells(), p)
    {
      nextNode, q := node, p;
      while next[nextNode].mark
        invariant p <= q < |chain| && nextNode == chain[q]
        invariant forall i :: p <= i < q ==> next[chain[i]].mark
        decreases |chain| - q
      {
        assert LinkOk(next[..], chain, q);
        nextNode, q := next[nextNode].idx, q + 1;
      }
      C.FirstIs(Cells(), p, q);
    }

    /** A marked node is linked past the first unmarked node behind it. */
    method CutOut(node: nat, nextNode: nat, ghost p: nat, ghost q: nat)
      requires Shaped() && p < q && q + 1 < |chain| && node == chain[p] && nextNode == chain[q] && !next[nextNode].mark
      requires InBitmap(chain)
      modifies this`chain, next
      ensures Shaped() && InBitmap(chain) && p + 1 < |chain|
      ensures forall i :: 0 <= i <= p ==> chain[i] == old(chain)[i]
      ensures Cells() == old(Cells()[..p] + [Cells()[p].(mark := false)] + Cells()[q + 1..])
    {
      ghost var next0 := next[..];
      assert LinkOk(next0, chain, q);
      CellsAfterCut(next0, data[..], chain, p, q);
      next[node] := next[nextNode];
      assert next[..] == next0[node := Link(chain[q + 1], false)];
      chain := Cut(chain, p, q + 1);
    }

    lemma TailIsLast(q: nat)
      requires Shaped() && q < |chain|
      ensures chain[q] == TAIL <==> q == |chain| - 1
    {}

    /** One node's turn in the compaction. */
    method CompactNode(node: nat, ghost p: nat)
      requires Shaped() && InBitmap(chain) && p + 1 < |chain| && node == chain[p]
      modifies this`chain, next
      ensures Shaped() && InBitmap(chain) && p + 1 < |chain|
      ensures forall i :: 0 <= i <= p ==> chain[i] == old(chain)[i]
      ensures Cells() == C.Turn(old(Cells()), p)
    {
      ghost var s := Cells();
      assert s[p].mark == next[node].mark;
      if next[node].mark {
        var nextNode;
        ghost var q;
        nextNode, q := SkipMarked(node, p);
        TailIsLast(q);
        C.TurnIs(s, p, q);
        if nextNode != TAIL {
          CutOut(node, nextNode, p, q);
        }
      } else {
        C.FirstIs(s, p, p);
        C.TurnIs(s, p, p);
      }
    }

    /** The allocator has handed out the first n slots of the chain, and the tail's. */
    ghost predicate Claimed(n: nat)
      reads this, bm.words
      requires n <= |chain|
    {
      forall x: nat :: bm.IsFree(x) <==> x < bm.words.Length * 64 && x != TAIL && x !in FirstSlots(chain, n)
    }

    /** The loop of recover stands at position p. */
    ghost predicate AtNode(node: nat, p: nat)
      reads this, bm.words
    {
      p < |chain| && InBitmap(chain) && node == chain[p] && Claimed(p + 1)
    }

    /** One round of the loop of recover. */
    method RecoverNode(node: nat, ghost p: nat) returns (nextNode: nat)
      requires Shaped() && AtNode(node, p) && node != TAIL
      modifies this`chain, this`size, next, bm.words
      ensures Shaped() && p + 1 < |old(chain)| && AtNode(nextNode, p + 1) && |chain| <= |old(chain)|
      ensures Cells() == C.Turn(old(Cells()), p)
      ensures size == old(size) + 1
    {
      ghost var chain0 := chain;
      CompactNode(node, p);
      assert LinkOk(next[..], chain, p);
      size := size + 1;
      var was := bm.ClearBit(next[node].idx);
      nextNode := next[node].idx;
      OneMoreSlot(chain0, chain, p + 1);
    }

    /** On the way to the compacted chain. */
    ghost predicate Halfway(node: nat, p: nat, goal: seq<C.Cell>)
      reads this, next, data, bm.words
    {
      Shaped() && AtNode(node, p) && size == p && C.LeadsTo(Cells(), p, goal)
    }

    method RecoverRound(node: nat, ghost p: nat, ghost goal: seq<C.Cell>) returns (nextNode: nat)
      requires Halfway(node, p, goal) && node != TAIL
      modifies this`chain, this`size, next, bm.words
      ensures Halfway(nextNode, p + 1, goal) && |chain| <= |old(chain)|
    {
      TailIsLast(p);
      C.LoopGoesOn(Cells(), p, goal);
      nextNode := RecoverNode(node, p);
    }

    /** The loop of recover: compaction, and the bitmap and size made to fit. */
    method CompactList()
      requires Shaped() && InBitmap(chain) && Claimed(1)
      modifies this`chain, this`size, next, bm.words
      ensures Shaped() && InBitmap(chain) && Claimed(|chain|)
      ensures Cells() == C.Compact(old(Cells()))
      ensures size == |chain| - 1
    {
      ghost var goal := C.Compact(Cells());
      C.LoopIsCompact(Cells());
      size := 0;
      var node := HEAD;
      ghost var p := 0;
      while node != TAIL
        invariant Halfway(node, p, goal)
        decreases |chain| - p
      {
        node := RecoverRound(node, p, goal);
        p := p + 1;
      }
      TailIsLast(p);
      C.LoopArrives(Cells(), p, goal);
    }

    /** The part of recover before the log: for every pattern of marks on a sorted chain it terminates, and
        leaves the compacted chain, its interior length in size, and clear bits for exactly its slots.
        CompactedKeys says what that means for the key set. */
    method Recover()
      requires Shaped() && InBitmap(chain) && retired == []
      requires forall x: nat :: x < bm.words.Length * 64 ==> bm.IsFree(x)
      modifies this`chain, this`size, next, bm.words
      ensures Shaped() && SlotsOk()
      ensures Cells() == C.Compact(old(Cells()))
      ensures size == |chain| - 2
      ensures forall x: nat :: bm.IsFree(x) <==> x < bm.words.Length * 64 && x !in chain
      ensures old(!next[HEAD].mark && data[HEAD] == INT_MIN) ==> Valid()
    {
      var was := bm.ClearBit(HEAD);
      was := bm.ClearBit(TAIL);
      ghost var all := Cells();
      assert chain[..1] == [HEAD];
      CompactList();
      size := size - 1;
      ClaimedAll();
      assert Cells()[0].slot == HEAD && all[0].slot == HEAD;
    }

    lemma ClaimedAll()
      requires Claimed(|chain|) && TAIL in chain && retired == []
      ensures SlotsOk()
      ensures forall x: nat :: bm.IsFree(x) <==> x < bm.words.Length * 64 && x !in chain
    {
      AllSlots(chain);
      assert forall x :: x in InUse(chain, retired) <==> x in chain;
    }

    /** What the replay of the log still has to do. */
    ghost predicate ReplayAt(i: nat, goal: set<int>)
      reads this, next, data, tlog
    {
      Shaped() && i <= tlog.Length && ReplayFrom(Keys(), tlog[..], i) == goal
    }

    predicate LoggedKeysOk()
      reads tlog
    {
      forall i :: 0 <= i < tlog.Length && tlog[i].inFlight ==> tlog[i].val > INT_MIN
    }

    /** One entry of the log: recover runs as thread 0. If there is no slot for an add the program ends in the
        middle of it, with the entry still in flight. */
    method RedoEntry(i: nat) returns (ok: bool)
      requires Valid() && i < tlog.Length && tlog[i].inFlight && tlog[i].val > INT_MIN
      modifies this`retired, this`chain, next, data, bm.words, tlog
      ensures Valid()
      ensures ok <==> old(tlog[i]).req.ReqRemove? || old(tlog[i]).val in old(Keys())
                      || exists y: nat :: old(bm.IsFree(y)) && InLowHalf(y)
      ensures !ok ==> Keys() == old(Keys()) && tlog[i] == old(tlog[i])
      ensures ok ==> Keys() == if old(tlog[i]).req.ReqAdd? then old(Keys()) + {old(tlog[i]).val}
                               else old(Keys()) - {old(tlog[i]).val}
      ensures ok ==> forall j :: 0 < j < tlog.Length && j != i ==> tlog[j] == old(tlog[j])
      ensures ok ==> !tlog[i].inFlight && (i == 0 || !tlog[0].inFlight || tlog[0] == old(tlog[0]))
    {
      var val := tlog[i].val;
      if tlog[i].req == ReqAdd {
        var added;
        ok, added := Add(0, val);
        if !ok {
          return;
        }
      } else {
        var removed := Remove(0, val);
        ok := true;
      }
      tlog[i] := tlog[i].(inFlight := false);
    }

    /** The replay loop of recover, not interrupted: afterwards a key is present exactly if the last entry that
        was in flight for it is an add, or there was none and it was present before, although the nested
        operations write to entry 0. It stops where the program ends for lack of memory. */
    method Replay() returns (ok: bool)
      requires Valid() && LoggedKeysOk()
      modifies this`retired, this`chain, next, data, bm.words, tlog
      ensures Valid()
      ensures ok ==> forall v :: v in Keys() <==>
                (exists j: nat :: LastFor(old(tlog[..]), v, j) && old(tlog[..])[j].req.ReqAdd?)
                || (NoneFor(old(tlog[..]), v, 0) && v in old(Keys()))
      ensures ok ==> forall i :: 0 <= i < tlog.Length ==> !tlog[i].inFlight
    {
      var i := 0;
      ghost var goal := ReplayFrom(Keys(), tlog[..], 0);
      while i < tlog.Length
        invariant Valid() && ReplayAt(i, goal)
        invariant forall j :: 0 <= j < i ==> !tlog[j].inFlight
        invariant forall j :: i <= j < tlog.Length ==> tlog[j] == old(tlog[j])
      {
        if tlog[i].inFlight {
          ghost var keys0, log0 := Keys(), tlog[..];
          ok := RedoEntry(i);
          if !ok {
            return;
          }
          OnlyRestMatters(Keys(), log0, tlog[..], i + 1);
        }
        i := i + 1;
      }
      LastEntriesDecide(old(Keys()), old(tlog[..]));
      return true;
    }

    ghost predicate InBitmap(slots: seq<nat>) {
      forall i :: 0 <= i < |slots| ==> slots[i] < bm.words.Length * 64
    }
  }

  lemma FirstNotBefore(next: seq<Link>, data: seq<int>, chain: seq<nat>, val: int, i: nat)
    requires IsList(next, data, chain) && 0 < i < |chain| - 1 && !next[chain[i]].mark && data[chain[i]] >= val
    requires forall k :: 0 < k < i ==> next[chain[k]].mark || data[chain[k]] < val
    ensures val in KeysOf(next, data, chain) <==> data[chain[i]] == val
  {
    if val in KeysOf(next, data, chain) {
      var k := KeyFrom(next, data, chain, val);
      assert KeyOrder(data, chain, i, k);
    }
  }

  lemma InsertStaysApart(retired: seq<nat>, chain: seq<nat>, l: nat, x: nat)
    requires Apart(retired, chain) && l < |chain| && x !in retired
    ensures Apart(retired, Insert(chain, l, x))
  {
    var c := Insert(chain, l, x);
    forall i: nat, j: nat ensures Differ(retired, c, i, j) {
      assert Differ(retired, chain, i, if j <= l then j else j - 1);
    }
  }
}
