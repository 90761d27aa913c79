/** What the mark compaction of recover (linkedlist/linkedlist.c:239-247) does to a chain. It reads a mark
    on a node as saying that the nodes after it are deleted, while remove marks the deleted node itself. */
module Compaction {

  /** A node on the chain: its slot, its key and its delete mark. */
  datatype Cell = Cell(slot: nat, key: int, mark: bool)

  /** Ends with the tail, which is not marked. */
  predicate Ended(s: seq<Cell>) { |s| > 0 && !s[|s| - 1].mark }

  /** The number of marked nodes at the front. */
  function MarkedRun(s: seq<Cell>): (j: nat)
    requires Ended(s)
    ensures j < |s| && !s[j].mark && forall i :: 0 <= i < j ==> s[i].mark
  {
    if s[0].mark then 1 + MarkedRun(s[1..]) else 0
  }

  /** The chain after compaction: a marked node is linked past the first unmarked node behind it, unless
      that is the tail, and loses its mark. */
  function Compact(s: seq<Cell>): (r: seq<Cell>)
    requires Ended(s)
    ensures Ended(r) && r[|r| - 1] == s[|s| - 1]
    ensures r[0].slot == s[0].slot && r[0].key == s[0].key && (r[0].mark ==> s[0].mark)
    ensures |s| >= 2 ==> |r| >= 2
  {
    if |s| == 1 then s
    else
      var j := MarkedRun(s);
      if 0 < j < |s| - 1 then [s[0].(mark := false)] + Compact(s[j + 1..])
      else [s[0]] + Compact(s[1..])
  }

  /** Strictly increasing keys; the tail's key is not compared. */
  ghost predicate Sorted(s: seq<Cell>) {
    forall i: nat, j: nat {:trigger InOrder(s, i, j)} :: InOrder(s, i, j)
  }

  predicate InOrder(s: seq<Cell>, i: nat, j: nat) {
    i < j < |s| - 1 ==> s[i].key < s[j].key
  }

  ghost predicate Above(s: seq<Cell>, key: int) {
    forall i :: 0 <= i < |s| - 1 ==> key < s[i].key
  }

  /** The slots and keys of r are some of those of s, in the same order. */
  ghost predicate IsSubchain(r: seq<Cell>, s: seq<Cell>)
    decreases |s|
  {
    if r == [] then true
    else if s == [] then false
    else if r[0].slot == s[0].slot && r[0].key == s[0].key then IsSubchain(r[1..], s[1..])
    else IsSubchain(r, s[1..])
  }

  lemma {:induction false} SubchainOfMore(r: seq<Cell>, s: seq<Cell>, n: nat)
    requires n <= |s| && IsSubchain(r, s[n..])
    requires r != [] ==> forall i :: 0 <= i < n ==> s[i].slot != r[0].slot
    ensures IsSubchain(r, s)
  {
    if n > 0 && r != [] {
      assert s[1..][n - 1..] == s[n..];
      SubchainOfMore(r, s[1..], n - 1);
    }
  }

  /** No slot occurs twice. */
  ghost predicate Distinct(s: seq<Cell>) {
    forall i, j :: 0 <= i < j < |s| ==> s[i].slot != s[j].slot
  }

  /** Compaction leaves a sub-chain. */
  lemma {:induction false} CompactIsSubchain(s: seq<Cell>)
    requires Ended(s) && Distinct(s)
    ensures IsSubchain(Compact(s), s)
  {
    if |s| == 1 {
      assert IsSubchain([], []);
      assert s[1..] == [];
    } else {
      var j := MarkedRun(s);
      if 0 < j < |s| - 1 {
        CompactIsSubchain(s[j + 1..]);
        assert s[1..][j..] == s[j + 1..];
        SubchainOfMore(Compact(s[j + 1..]), s[1..], j);
        assert Compact(s)[1..] == Compact(s[j + 1..]);
      } else {
        CompactIsSubchain(s[1..]);
        assert Compact(s)[1..] == Compact(s[1..]);
      }
    }
  }

  /** From node k up to the tail all nodes are marked. */
  predicate MarkedToTail(s: seq<Cell>, k: nat) {
    forall i :: k <= i < |s| - 1 ==> s[i].mark
  }

  lemma MarkedToTailRest(s: seq<Cell>, n: nat, k: nat)
    requires n <= k < |s|
    ensures MarkedToTail(s[n..], k - n) <==> MarkedToTail(s, k)
  {
    if MarkedToTail(s[n..], k - n) {
      forall i | k <= i < |s| - 1 ensures s[i].mark {
        assert s[n..][i - n].mark;
      }
    }
  }

  lemma {:induction false} SlotsOfCompact(s: seq<Cell>, slot: nat)
    requires Ended(s) && forall i :: 0 <= i < |s| ==> s[i].slot != slot
    ensures forall x :: x in Compact(s) ==> x.slot != slot
  {
    if |s| > 1 {
      var j := MarkedRun(s);
      SlotsOfCompact(if 0 < j < |s| - 1 then s[j + 1..] else s[1..], slot);
    }
  }

  /** Node k is left, and with which mark. */
  predicate Left(s: seq<Cell>, r: seq<Cell>, k: nat)
    requires k < |s|
  {
    s[k].(mark := s[k].mark && MarkedToTail(s, k)) in r
  }

  predicate Gone(s: seq<Cell>, r: seq<Cell>, k: nat)
    requires k < |s|
  {
    forall x :: x in r ==> x.slot != s[k].slot
  }

  lemma FirstIsLeft(s: seq<Cell>)
    requires Ended(s)
    ensures Left(s, Compact(s), 0)
  {
    assert s[0].(mark := s[0].mark && MarkedToTail(s, 0)) == Compact(s)[0];
  }

  /** The turn at the first node: the nodes up to the n-th go. */
  lemma FirstTurn(s: seq<Cell>) returns (n: nat)
    requires Ended(s) && |s| > 1
    ensures 0 < n < |s| && Ended(s[n..]) && Compact(s) == [Compact(s)[0]] + Compact(s[n..])
    ensures !s[n - 1].mark || MarkedToTail(s, n)
    ensures forall k: nat :: 0 < k < n ==> s[k - 1].mark && !MarkedToTail(s, k)
  {
    var j := MarkedRun(s);
    n := if 0 < j < |s| - 1 then j + 1 else 1;
    assert Compact(s) == [if n == 1 then s[0] else s[0].(mark := false)] + Compact(s[n..]);
    FirstRun(s, j, n);
  }

  lemma FirstRun(s: seq<Cell>, j: nat, n: nat)
    requires j < |s| && !s[j].mark && forall i :: 0 <= i < j ==> s[i].mark
    requires |s| > 1 && n == if 0 < j < |s| - 1 then j + 1 else 1
    ensures !s[n - 1].mark || MarkedToTail(s, n)
    ensures forall k: nat :: 0 < k < n ==> s[k - 1].mark && !MarkedToTail(s, k)
  {}

  lemma EarlierIsGone(s: seq<Cell>, c: Cell, n: nat, k: nat)
    requires 0 < k < n < |s| && Ended(s[n..]) && c.slot == s[0].slot && Distinct(s)
    ensures Gone(s, [c] + Compact(s[n..]), k)
  {
    SlotsOfCompact(s[n..], s[k].slot);
  }

  /** Whether node k is left can be told from the nodes from the n-th on. */
  lemma LaterIsLeft(s: seq<Cell>, rest: seq<Cell>, r: seq<Cell>, c: Cell, n: nat, k: nat)
    requires 0 < n <= k < |s| && rest == s[n..] && c.slot == s[0].slot && s[0].slot != s[k].slot
    requires if k == n || !s[k - 1].mark || MarkedToTail(rest, k - n) then Left(rest, r, k - n) else Gone(rest, r, k - n)
    requires k == n ==> !s[k - 1].mark || MarkedToTail(s, k)
    ensures if !s[k - 1].mark || MarkedToTail(s, k) then Left(s, [c] + r, k) else Gone(s, [c] + r, k)
  {
    MarkedToTailRest(s, n, k);
  }

  lemma DistinctRest(s: seq<Cell>, rest: seq<Cell>, n: nat, k: nat)
    requires Distinct(s) && 0 < n <= k < |s| && rest == s[n..]
    ensures Distinct(rest) && s[0].slot != s[k].slot && rest[k - n] == s[k] && (k > n ==> rest[k - n - 1] == s[k - 1])
  {}

  /** Which nodes are left, and with which marks: a node goes exactly if the node in front of it is marked, unless
      it and all nodes behind it up to the tail are marked. Of the others, only those keep their marks. */
  lemma {:induction false} CompactSurvivors(s: seq<Cell>, k: nat)
    requires Ended(s) && Distinct(s) && k < |s|
    ensures if k == 0 || !s[k - 1].mark || MarkedToTail(s, k) then Left(s, Compact(s), k) else Gone(s, Compact(s), k)
    decreases |s|
  {
    if k == 0 {
      FirstIsLeft(s);
    } else {
      var n := FirstTurn(s);
      var rest := s[n..];
      if k < n {
        EarlierIsGone(s, Compact(s)[0], n, k);
      } else {
        DistinctRest(s, rest, n, k);
        CompactSurvivors(rest, k - n);
        LaterIsLeft(s, rest, Compact(rest), Compact(s)[0], n, k);
      }
    }
  }

  lemma {:induction false} CompactStaysAbove(s: seq<Cell>, key: int)
    requires Ended(s) && Above(s, key)
    ensures Above(Compact(s), key)
  {
    if |s| > 1 {
      var j := MarkedRun(s);
      var rest := if 0 < j < |s| - 1 then s[j + 1..] else s[1..];
      assert Above(rest, key);
      CompactStaysAbove(rest, key);
      AboveCons(Compact(s)[0], Compact(rest), key);
      assert Compact(s) == [Compact(s)[0]] + Compact(rest);
    }
  }

  lemma AboveCons(c: Cell, s: seq<Cell>, key: int)
    requires |s| > 0 && Above(s, key) && key < c.key
    ensures Above([c] + s, key)
  {}

  lemma SortedCons(c: Cell, s: seq<Cell>)
    requires |s| > 0 && Sorted(s) && Above(s, c.key)
    ensures Sorted([c] + s)
  {
    forall i: nat, j: nat ensures InOrder([c] + s, i, j) {
      assert i > 0 && j > 0 ==> InOrder(s, i - 1, j - 1);
    }
  }

  lemma SortedRest(s: seq<Cell>, n: nat)
    requires Sorted(s) && 0 < n < |s|
    ensures Sorted(s[n..]) && Above(s[n..], s[0].key)
  {
    forall i: nat, j: nat ensures InOrder(s[n..], i, j) {
      assert InOrder(s, i + n, j + n);
    }
    forall i | 0 <= i < |s| - n - 1 ensures s[0].key < s[n..][i].key {
      assert InOrder(s, 0, i + n);
    }
  }

  lemma {:induction false} CompactStaysSorted(s: seq<Cell>)
    requires Ended(s) && Sorted(s)
    ensures Sorted(Compact(s))
  {
    if |s| > 1 {
      var j := MarkedRun(s);
      var n := if 0 < j < |s| - 1 then j + 1 else 1;
      var rest := s[n..];
      SortedRest(s, n);
      CompactStaysSorted(rest);
      CompactStaysAbove(rest, s[0].key);
      SortedCons(s[0].(mark := s[0].mark && n == 1), Compact(rest));
    }
  }

  lemma {:induction false} CompactWithoutMarks(s: seq<Cell>)
    requires Ended(s) && forall i :: 0 <= i < |s| ==> !s[i].mark
    ensures Compact(s) == s
  {
    if |s| > 1 {
      CompactWithoutMarks(s[1..]);
    }
  }

  /** The keys of the unmarked nodes before the tail. */
  ghost function Keys(s: seq<Cell>): set<int> {
    set i | 0 <= i < |s| - 1 && !s[i].mark :: s[i].key
  }

  /** Marked nodes come last: none is followed by an unmarked one before the tail. */
  ghost predicate MarksTrail(s: seq<Cell>) {
    forall i: nat, j: nat {:trigger MarkStays(s, i, j)} :: MarkStays(s, i, j)
  }

  predicate MarkStays(s: seq<Cell>, i: nat, j: nat) {
    i < j < |s| - 1 && s[i].mark ==> s[j].mark
  }

  lemma KeysOfCons(c: Cell, s: seq<Cell>)
    requires |s| > 0
    ensures Keys([c] + s) == Keys(s) + if c.mark then {} else {c.key}
  {
    var t := [c] + s;
    forall k | k in Keys(s) ensures k in Keys(t) {
      var i :| 0 <= i < |s| - 1 && !s[i].mark && s[i].key == k;
      assert t[i + 1] == s[i];
    }
    forall k | k in Keys(t) ensures k in Keys(s) || (k == c.key && !c.mark) {
      var i :| 0 <= i < |t| - 1 && !t[i].mark && t[i].key == k;
      assert i > 0 ==> t[i] == s[i - 1];
    }
    assert !c.mark ==> t[0].key in Keys(t);
  }

  lemma AboveIsAbsent(s: seq<Cell>, key: int)
    requires Above(s, key)
    ensures key !in Keys(s)
  {}

  /** An unmarked node in front makes no difference. */
  lemma TrailOfRest(s: seq<Cell>)
    requires |s| > 1 && !s[0].mark
    ensures MarksTrail(s) <==> MarksTrail(s[1..])
  {
    if MarksTrail(s) {
      forall i: nat, j: nat ensures MarkStays(s[1..], i, j) {
        assert MarkStays(s, i + 1, j + 1);
      }
    }
    if MarksTrail(s[1..]) {
      forall i: nat, j: nat ensures MarkStays(s, i, j) {
        assert i > 0 && j > 0 ==> MarkStays(s[1..], i - 1, j - 1);
      }
    }
  }

  lemma TrailOfRun(s: seq<Cell>)
    requires |s| > 1 && Ended(s) && MarkedRun(s) == |s| - 1
    ensures MarksTrail(s) && MarksTrail(s[1..])
  {}

  /** Where nodes are cut out, a deleted key comes back. */
  lemma CuttingChangesKeys(s: seq<Cell>)
    requires Ended(s) && Sorted(s) && 0 < MarkedRun(s) < |s| - 1
    ensures Keys(Compact(s)) != Keys(s) && !MarksTrail(s)
  {
    var j := MarkedRun(s);
    SortedRest(s, 1);
    assert s == [s[0]] + s[1..];
    KeysOfCons(s[0], s[1..]);
    AboveIsAbsent(s[1..], s[0].key);
    KeysOfCons(s[0].(mark := false), Compact(s[j + 1..]));
    assert !MarkStays(s, 0, j);
  }

  /** Otherwise the first node stays as it is. */
  lemma KeepingFirst(s: seq<Cell>)
    requires |s| > 1 && Ended(s) && Sorted(s) && (MarkedRun(s) == 0 || MarkedRun(s) == |s| - 1)
    ensures Keys(Compact(s)) == Keys(s) <==> Keys(Compact(s[1..])) == Keys(s[1..])
  {
    SortedRest(s, 1);
    assert s == [s[0]] + s[1..];
    KeysOfCons(s[0], s[1..]);
    KeysOfCons(s[0], Compact(s[1..]));
    AboveIsAbsent(s[1..], s[0].key);
    CompactStaysAbove(s[1..], s[0].key);
    AboveIsAbsent(Compact(s[1..]), s[0].key);
  }

  lemma {:induction false} KeepsKeysIff(s: seq<Cell>)
    requires Ended(s) && Sorted(s)
    ensures Keys(Compact(s)) == Keys(s) <==> MarksTrail(s)
  {
    if |s| > 1 {
      var j := MarkedRun(s);
      if 0 < j < |s| - 1 {
        CuttingChangesKeys(s);
      } else {
        KeepingFirst(s);
        SortedRest(s, 1);
        KeepsKeysIff(s[1..]);
        if j == 0 {
          TrailOfRest(s);
        } else {
          TrailOfRun(s);
        }
      }
    }
  }

  /** The key set of a list: the sentinel in front has no key of its own. */
  ghost function ListKeys(s: seq<Cell>): set<int>
    requires |s| > 0
  {
    Keys(s[1..])
  }

  /** Compaction keeps the key set of a list exactly when no marked node precedes an unmarked one. */
  lemma CompactKeepsKeysIff(s: seq<Cell>)
    requires |s| >= 2 && Ended(s) && Sorted(s) && !s[0].mark
    ensures ListKeys(Compact(s)) == ListKeys(s) <==> MarksTrail(s[1..])
  {
    SortedRest(s, 1);
    assert MarkedRun(s) == 0 && Compact(s)[1..] == Compact(s[1..]);
    KeepsKeysIff(s[1..]);
  }

  /** Where it does not: with a deleted node in front of one that is present, the deleted key comes back and
      the other is lost. */
  lemma CompactCanSwapKeys(head: Cell, a: Cell, b: Cell, tail: Cell)
    requires !head.mark && a.mark && !b.mark && !tail.mark && a.key < b.key
    ensures ListKeys([head, a, b, tail]) == {b.key}
    ensures ListKeys(Compact([head, a, b, tail])) == {a.key}
  {
    var s := [head, a, b, tail];
    var t := [a, b, tail];
    assert s[1..] == t && t[2..] == [tail] && t[1..] == [b, tail];
    assert MarkedRun(s) == 0 && MarkedRun(t[1..]) == 0 && MarkedRun(t) == 1;
    assert Compact(t) == [a.(mark := false), tail];
    assert Compact(s) == [head, a.(mark := false), tail];
    assert Compact(s)[1..] == [a.(mark := false), tail];
    KeysOfCons(a, [b, tail]);
    KeysOfCons(b, [tail]);
    KeysOfCons(a.(mark := false), [tail]);
    assert [a] + [b, tail] == t && [b] + [tail] == [b, tail] && [a.(mark := false)] + [tail] == Compact(s)[1..];
  }

  lemma Regroup(done: seq<Cell>, c: Cell, rest: seq<Cell>)
    ensures done + ([c] + rest) == (done + [c]) + rest
  {}

  // The loop, position by position.

  function FirstUnmarked(s: seq<Cell>, p: nat): (q: nat)
    requires Ended(s) && p < |s|
    ensures p <= q < |s| && !s[q].mark && forall i :: p <= i < q ==> s[i].mark
    decreases |s| - p
  {
    if s[p].mark then FirstUnmarked(s, p + 1) else p
  }

  /** One node's turn: it is linked past the first unmarked node behind it. */
  function Turn(s: seq<Cell>, p: nat): (t: seq<Cell>)
    requires Ended(s) && p + 1 < |s|
    ensures Ended(t) && p + 1 < |t| <= |s|
  {
    var q := FirstUnmarked(s, p);
    if p < q < |s| - 1 then s[..p] + [s[p].(mark := false)] + s[q + 1..] else s
  }

  lemma TurnIs(s: seq<Cell>, p: nat, q: nat)
    requires Ended(s) && p + 1 < |s| && q == FirstUnmarked(s, p)
    ensures Turn(s, p) == if p < q < |s| - 1 then s[..p] + [s[p].(mark := false)] + s[q + 1..] else s
  {}

  /** The nodes from position p on have their turns. */
  function Loop(s: seq<Cell>, p: nat): seq<Cell>
    requires Ended(s) && p < |s|
    decreases |s| - p
  {
    if p + 1 == |s| then s else Loop(Turn(s, p), p + 1)
  }

  lemma FirstIs(s: seq<Cell>, p: nat, q: nat)
    requires Ended(s) && p <= q < |s| && !s[q].mark && forall i :: p <= i < q ==> s[i].mark
    ensures FirstUnmarked(s, p) == q
  {}

  lemma RunIsFirst(s: seq<Cell>, p: nat)
    requires Ended(s) && p < |s|
    ensures Ended(s[p..]) && MarkedRun(s[p..]) == FirstUnmarked(s, p) - p
  {
    var rest, q := s[p..], FirstUnmarked(s, p);
    var j := MarkedRun(rest);
    assert rest[q - p] == s[q] && rest[j] == s[p + j];
  }

  lemma CompactOfRun(s: seq<Cell>, j: nat)
    requires Ended(s) && j == MarkedRun(s) && |s| > 1
    ensures Compact(s) == if 0 < j < |s| - 1 then [s[0].(mark := false)] + Compact(s[j + 1..]) else [s[0]] + Compact(s[1..])
  {}

  lemma CutSlices(s: seq<Cell>, p: nat, q: nat, c: Cell)
    requires p <= q < |s|
    ensures s[p..][q - p + 1..] == s[q + 1..]
    ensures var t := s[..p] + [c] + s[q + 1..]; t[..p + 1] == s[..p] + [c] && t[p + 1..] == s[q + 1..]
  {}

  lemma RestOfRun(s: seq<Cell>, p: nat, q: nat, c: Cell)
    requires Ended(s) && p < q < |s| - 1 && q - p == MarkedRun(s[p..]) && c == s[p].(mark := false)
    ensures Ended(s[q + 1..]) && Compact(s[p..]) == [c] + Compact(s[q + 1..])
  {
    var rest := s[p..];
    CompactOfRun(rest, q - p);
    assert rest[0] == s[p] && rest[q - p + 1..] == s[q + 1..];
  }

  lemma TurnCuts(s: seq<Cell>, p: nat)
    requires Ended(s) && p < |s| && p < FirstUnmarked(s, p) < |s| - 1
    ensures var t := Turn(s, p);
            Ended(s[p..]) && Ended(t[p + 1..]) && s[..p] + Compact(s[p..]) == t[..p + 1] + Compact(t[p + 1..])
  {
    var q, c := FirstUnmarked(s, p), s[p].(mark := false);
    RunIsFirst(s, p);
    CutSlices(s, p, q, c);
    RestOfRun(s, p, q, c);
    var t := Turn(s, p);
    assert t[p + 1..] == s[q + 1..] && t[..p + 1] == s[..p] + [c];
    Regroup(s[..p], c, Compact(t[p + 1..]));
  }

  lemma TurnKeeps(s: seq<Cell>, p: nat)
    requires Ended(s) && p + 1 < |s| && (FirstUnmarked(s, p) == p || FirstUnmarked(s, p) == |s| - 1)
    ensures Ended(s[p..]) && Ended(s[p + 1..]) && s[..p] + Compact(s[p..]) == s[..p + 1] + Compact(s[p + 1..])
  {
    var rest := s[p..];
    RunIsFirst(s, p);
    CompactOfRun(rest, FirstUnmarked(s, p) - p);
    assert rest[1..] == s[p + 1..] && s[..p + 1] == s[..p] + [s[p]];
    Regroup(s[..p], s[p], Compact(s[p + 1..]));
  }

  lemma TurnStep(s: seq<Cell>, p: nat)
    requires Ended(s) && p + 1 < |s|
    ensures var t := Turn(s, p);
            Ended(s[p..]) && Ended(t[p + 1..]) && s[..p] + Compact(s[p..]) == t[..p + 1] + Compact(t[p + 1..])
  {
    if p < FirstUnmarked(s, p) < |s| - 1 {
      TurnCuts(s, p);
    } else {
      TurnKeeps(s, p);
    }
  }

  lemma {:induction false} LoopCompacts(s: seq<Cell>, p: nat)
    requires Ended(s) && p < |s|
    ensures Ended(s[p..]) && Loop(s, p) == s[..p] + Compact(s[p..])
    decreases |s| - p
  {
    if p + 1 < |s| {
      TurnStep(s, p);
      LoopCompacts(Turn(s, p), p + 1);
    } else {
      assert s == s[..p] + s[p..];
    }
  }

  /** The loop, standing at position p, will end with this chain. */
  ghost predicate LeadsTo(s: seq<Cell>, p: nat, goal: seq<Cell>) {
    Ended(s) && p < |s| && Loop(s, p) == goal
  }

  /** The loop computes the compaction: from the first node on it leads there, every turn keeps to the way,
      and at the tail it has arrived. */
  lemma LoopIsCompact(s: seq<Cell>)
    requires Ended(s)
    ensures LeadsTo(s, 0, Compact(s))
  {
    LoopCompacts(s, 0);
    assert s[0..] == s && s[..0] == [];
  }

  lemma LoopGoesOn(s: seq<Cell>, p: nat, goal: seq<Cell>)
    requires LeadsTo(s, p, goal) && p + 1 < |s|
    ensures LeadsTo(Turn(s, p), p + 1, goal)
  {}

  lemma LoopArrives(s: seq<Cell>, p: nat, goal: seq<Cell>)
    requires LeadsTo(s, p, goal) && p + 1 == |s|
    ensures s == goal
  {}

  // Crashes within the loop. A turn writes and persists one word, so a crash leaves the chain as it is
  // after some number of turns.

  /** The chain after the first n turns of the loop, or all of them if it has ended before. */
  function Turns(s: seq<Cell>, n: nat): (t: seq<Cell>)
    requires Ended(s)
    ensures Ended(t)
  {
    if n == 0 then s else
      var t := Turns(s, n - 1);
      if n < |t| then Turn(t, n - 1) else t
  }

  /** The first p nodes would not change if they had another turn. */
  ghost predicate Settled(s: seq<Cell>, p: nat)
    requires Ended(s)
  {
    p < |s| && forall i :: 0 <= i < p ==> IsSettled(s, i)
  }

  predicate IsSettled(s: seq<Cell>, i: nat)
    requires Ended(s) && i < |s|
  {
    FirstUnmarked(s, i) == i || FirstUnmarked(s, i) == |s| - 1
  }

  lemma RunGoesOn(s: seq<Cell>, i: nat, p: nat)
    requires Ended(s) && i <= p < |s| && FirstUnmarked(s, i) == |s| - 1
    ensures FirstUnmarked(s, p) == |s| - 1
  {
    FirstIs(s, p, |s| - 1);
  }

  lemma TurnSettles(s: seq<Cell>, p: nat)
    requires Ended(s) && p + 1 < |s| && Settled(s, p)
    ensures Settled(Turn(s, p), p + 1)
  {
    var t := Turn(s, p);
    forall i | 0 <= i < p + 1 ensures IsSettled(t, i) {
      if i < p {
        assert IsSettled(s, i);
        if FirstUnmarked(s, i) == |s| - 1 {
          RunGoesOn(s, i, p);
        } else {
          assert !t[i].mark;
        }
      }
    }
  }

  /** Going over settled nodes again changes nothing. */
  lemma {:induction false} LoopSkips(s: seq<Cell>, i: nat, p: nat)
    requires Ended(s) && i <= p && Settled(s, p)
    ensures Loop(s, i) == Loop(s, p)
    decreases p - i
  {
    if i < p {
      assert IsSettled(s, i);
      LoopSkips(s, i + 1, p);
    }
  }

  lemma {:induction false} TurnsLeadOn(s: seq<Cell>, n: nat) returns (p: nat)
    requires Ended(s)
    ensures var t := Turns(s, n);
            LeadsTo(t, p, Compact(s)) && Settled(t, p) && (p == n || (p < n && p == |t| - 1))
  {
    if n == 0 {
      p := 0;
      LoopIsCompact(s);
    } else {
      p := TurnsLeadOn(s, n - 1);
      var t := Turns(s, n - 1);
      if n < |t| {
        LoopGoesOn(t, p, Compact(s));
        TurnSettles(t, p);
        p := n;
      }
    }
  }

  /** Starting over, after a crash between any two turns, ends with the same chain. */
  lemma TurnsKeepCompact(s: seq<Cell>, n: nat)
    requires Ended(s)
    ensures Compact(Turns(s, n)) == Compact(s)
  {
    var p := TurnsLeadOn(s, n);
    LoopSkips(Turns(s, n), 0, p);
    LoopIsCompact(Turns(s, n));
  }
}
