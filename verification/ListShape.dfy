/** Sorted chains of nodes in a slot array, as sequences: what the operations of the list do to them when
    nobody else interferes. */
module ListShape {
  import opened ListCommon

  ghost predicate LinkOk(next: seq<Link>, chain: seq<nat>, i: nat) {
    i + 1 < |chain| ==> chain[i] < |next| && next[chain[i]].idx == chain[i + 1]
  }

  ghost predicate KeyOrder(data: seq<int>, chain: seq<nat>, i: nat, j: nat) {
    i < j < |chain| - 1 && chain[i] < |data| && chain[j] < |data| ==> data[chain[i]] < data[chain[j]]
  }

  /** A chain from head to tail in strictly increasing key order; the tail's key is not compared. Nodes may
      be marked, except the tail. */
  ghost predicate IsList(next: seq<Link>, data: seq<int>, chain: seq<nat>) {
    && |chain| >= 2 && chain[0] == HEAD && chain[|chain| - 1] == TAIL
    && |next| == |data| && (forall i :: 0 <= i < |chain| ==> chain[i] < |next|)
    && (forall i: nat {:trigger LinkOk(next, chain, i)} :: LinkOk(next, chain, i))
    && (forall i: nat, j: nat {:trigger KeyOrder(data, chain, i, j)} :: KeyOrder(data, chain, i, j))
    && (forall i :: 0 <= i < |chain| - 1 ==> chain[i] != TAIL)
    && !next[TAIL].mark
  }

  /** The keys of the unmarked nodes between the sentinels. */
  ghost function KeysOf(next: seq<Link>, data: seq<int>, chain: seq<nat>): set<int>
    requires IsList(next, data, chain)
  {
    set i | 0 < i < |chain| - 1 && !next[chain[i]].mark :: data[chain[i]]
  }

  lemma KeyIn(next: seq<Link>, data: seq<int>, chain: seq<nat>, i: nat)
    requires IsList(next, data, chain) && 0 < i < |chain| - 1 && !next[chain[i]].mark
    ensures data[chain[i]] in KeysOf(next, data, chain)
  {}

  lemma KeyFrom(next: seq<Link>, data: seq<int>, chain: seq<nat>, v: int) returns (i: nat)
    requires IsList(next, data, chain) && v in KeysOf(next, data, chain)
    ensures 0 < i < |chain| - 1 && !next[chain[i]].mark && data[chain[i]] == v
  {
    i :| 0 < i < |chain| - 1 && !next[chain[i]].mark && data[chain[i]] == v;
  }

  lemma DifferentSlots(next: seq<Link>, data: seq<int>, chain: seq<nat>, i: nat, j: nat)
    requires IsList(next, data, chain) && i < |chain| && j < |chain| && i != j
    ensures chain[i] != chain[j]
  {
    assert KeyOrder(data, chain, i, j) && KeyOrder(data, chain, j, i);
  }

  /** Where a search for val ends: chain[l] is the last unmarked node before the key, and only marked nodes
      lie between it and chain[r], the first unmarked node not before the key, or the tail. */
  ghost predicate Found(next: seq<Link>, data: seq<int>, chain: seq<nat>, val: int, l: nat, r: nat)
    requires IsList(next, data, chain)
  {
    && l < r < |chain|
    && !next[chain[l]].mark && data[chain[l]] < val
    && (r < |chain| - 1 ==> !next[chain[r]].mark && data[chain[r]] >= val)
    && (forall k :: l < k < r ==> next[chain[k]].mark)
  }

  /** So the search decides whether the key is present. */
  lemma FoundDecides(next: seq<Link>, data: seq<int>, chain: seq<nat>, val: int, l: nat, r: nat)
    requires IsList(next, data, chain) && Found(next, data, chain, val, l, r)
    ensures val in KeysOf(next, data, chain) <==> r < |chain| - 1 && data[chain[r]] == val
    ensures chain[r] == TAIL <==> r == |chain| - 1
  {
    if val in KeysOf(next, data, chain) {
      var i :| 0 < i < |chain| - 1 && !next[chain[i]].mark && data[chain[i]] == val;
      assert KeyOrder(data, chain, i, l) && KeyOrder(data, chain, r, i);
    }
  }

  /** The chain without the nodes strictly between positions l and r. */
  ghost function Cut(chain: seq<nat>, l: nat, r: nat): (c: seq<nat>)
    requires l < r < |chain|
    ensures |c| == |chain| - (r - l - 1)
    ensures forall i {:trigger c[i]} :: 0 <= i < |c| ==> c[i] == if i <= l then chain[i] else chain[i + (r - l - 1)]
  {
    chain[..l + 1] + chain[r..]
  }

  lemma NothingToCut(next: seq<Link>, data: seq<int>, chain: seq<nat>, l: nat, r: nat)
    requires IsList(next, data, chain) && l < r < |chain| && chain[l + 1] == chain[r] && !next[chain[l]].mark
    ensures l + 1 == r && Cut(chain, l, r) == chain && chain[l + 1..r] == []
    ensures next[chain[l] := Link(chain[r], false)] == next
  {
    assert LinkOk(next, chain, l);
    if l + 1 < r {
      DifferentSlots(next, data, chain, l + 1, r);
    }
  }

  lemma CutIsList(next: seq<Link>, data: seq<int>, chain: seq<nat>, l: nat, r: nat)
    requires IsList(next, data, chain) && l < r < |chain|
    ensures IsList(next[chain[l] := Link(chain[r], false)], data, Cut(chain, l, r))
  {
    var next', c, d := next[chain[l] := Link(chain[r], false)], Cut(chain, l, r), r - l - 1;
    forall i: nat ensures LinkOk(next', c, i) {
      assert LinkOk(next, chain, i) && LinkOk(next, chain, i + d);
      if i + 1 < |c| && i != l {
        DifferentSlots(next, data, chain, l, if i < l then i else i + d);
      }
    }
    forall i: nat, j: nat ensures KeyOrder(data, c, i, j) {
      assert KeyOrder(data, chain, if i <= l then i else i + d, if j <= l then j else j + d);
    }
  }

  /** Taking out marked nodes behind an unmarked one keeps the keys. */
  lemma CutKeepsKeys(next: seq<Link>, data: seq<int>, chain: seq<nat>, l: nat, r: nat)
    requires IsList(next, data, chain) && l < r < |chain|
    requires !next[chain[l]].mark && forall k :: l < k < r ==> next[chain[k]].mark
    ensures IsList(next[chain[l] := Link(chain[r], false)], data, Cut(chain, l, r))
    ensures KeysOf(next[chain[l] := Link(chain[r], false)], data, Cut(chain, l, r)) == KeysOf(next, data, chain)
  {
    CutIsList(next, data, chain, l, r);
    var next', c, d := next[chain[l] := Link(chain[r], false)], Cut(chain, l, r), r - l - 1;
    forall v | v in KeysOf(next, data, chain) ensures v in KeysOf(next', data, c) {
      var i := KeyFrom(next, data, chain, v);
      KeyIn(next', data, c, if i <= l then i else i - d);
    }
    forall v | v in KeysOf(next', data, c) ensures v in KeysOf(next, data, chain) {
      var i := KeyFrom(next', data, c, v);
      KeyIn(next, data, chain, if i <= l then i else i + d);
    }
  }

  /** After the marked nodes are taken out, the two ends of the search are adjacent. */
  lemma FoundAfterCut(next: seq<Link>, data: seq<int>, chain: seq<nat>, val: int, l: nat, r: nat)
    requires IsList(next, data, chain) && Found(next, data, chain, val, l, r)
    ensures IsList(next[chain[l] := Link(chain[r], false)], data, Cut(chain, l, r))
    ensures Found(next[chain[l] := Link(chain[r], false)], data, Cut(chain, l, r), val, l, l + 1)
    ensures Cut(chain, l, r)[l] == chain[l] && Cut(chain, l, r)[l + 1] == chain[r]
  {
    CutIsList(next, data, chain, l, r);
    DifferentSlots(next, data, chain, l, r);
  }

  ghost function Insert(chain: seq<nat>, l: nat, x: nat): (c: seq<nat>)
    requires l < |chain|
    ensures |c| == |chain| + 1
    ensures forall i {:trigger c[i]} :: 0 <= i < |c| ==> c[i] == if i <= l then chain[i] else if i == l + 1 then x else chain[i - 1]
  {
    chain[..l + 1] + [x] + chain[l + 1..]
  }

  /** The links after a node x was linked in behind position l. */
  ghost function Linked(next: seq<Link>, chain: seq<nat>, l: nat, x: nat): seq<Link>
    requires l + 1 < |chain| && x < |next| && chain[l] < |next|
  {
    next[x := Link(chain[l + 1], false)][chain[l] := Link(x, false)]
  }

  /** A place in the chain where a new node with key val belongs. */
  ghost predicate Gap(next: seq<Link>, data: seq<int>, chain: seq<nat>, l: nat, x: nat, val: int)
    requires IsList(next, data, chain)
  {
    && l + 1 < |chain| && x < |next| && x !in chain
    && data[chain[l]] < val && (l + 1 < |chain| - 1 ==> val < data[chain[l + 1]])
  }

  lemma InsertLinks(next: seq<Link>, data: seq<int>, chain: seq<nat>, l: nat, x: nat, val: int, i: nat)
    requires IsList(next, data, chain) && Gap(next, data, chain, l, x, val)
    ensures LinkOk(Linked(next, chain, l, x), Insert(chain, l, x), i)
  {
    assert LinkOk(next, chain, i) && (i > 0 ==> LinkOk(next, chain, i - 1));
    if i < |chain| && i != l && i != l + 1 {
      DifferentSlots(next, data, chain, l, if i < l then i else i - 1);
    }
  }

  lemma InsertOrder(next: seq<Link>, data: seq<int>, chain: seq<nat>, l: nat, x: nat, val: int, i: nat, j: nat)
    requires IsList(next, data, chain) && Gap(next, data, chain, l, x, val)
    ensures KeyOrder(data[x := val], Insert(chain, l, x), i, j)
  {
    var i0, j0 := if i <= l then i else i - 1, if j <= l then j else j - 1;
    assert KeyOrder(data, chain, i0, j0);
    assert KeyOrder(data, chain, i0, l) && KeyOrder(data, chain, l + 1, j0);
  }

  lemma InsertIsList(next: seq<Link>, data: seq<int>, chain: seq<nat>, l: nat, x: nat, val: int)
    requires IsList(next, data, chain) && Gap(next, data, chain, l, x, val)
    ensures IsList(Linked(next, chain, l, x), data[x := val], Insert(chain, l, x))
  {
    var next', data', c := Linked(next, chain, l, x), data[x := val], Insert(chain, l, x);
    forall i: nat ensures LinkOk(next', c, i) {
      InsertLinks(next, data, chain, l, x, val, i);
    }
    forall i | 0 <= i < |c| - 1 ensures c[i] < |next| && c[i] != TAIL
        && data'[c[i]] == if i <= l then data[chain[i]] else if i == l + 1 then val else data[chain[i - 1]] {
      assert chain[|chain| - 1] == TAIL;
    }
    assert c[|c| - 1] == TAIL;
    forall i: nat, j: nat ensures KeyOrder(data', c, i, j) {
      InsertOrder(next, data, chain, l, x, val, i, j);
    }
  }

  lemma InsertKeepsKeys(next: seq<Link>, data: seq<int>, chain: seq<nat>, l: nat, x: nat, val: int, v: int)
    requires IsList(next, data, chain) && Gap(next, data, chain, l, x, val) && !next[chain[l]].mark
    requires IsList(Linked(next, chain, l, x), data[x := val], Insert(chain, l, x))
    requires v in KeysOf(next, data, chain)
    ensures v in KeysOf(Linked(next, chain, l, x), data[x := val], Insert(chain, l, x))
  {
    var i := KeyFrom(next, data, chain, v);
    assert chain[i] != x;
    KeyIn(Linked(next, chain, l, x), data[x := val], Insert(chain, l, x), if i <= l then i else i + 1);
  }

  lemma InsertBringsKey(next: seq<Link>, data: seq<int>, chain: seq<nat>, l: nat, x: nat, val: int, v: int)
    requires IsList(next, data, chain) && Gap(next, data, chain, l, x, val) && !next[chain[l]].mark
    requires IsList(Linked(next, chain, l, x), data[x := val], Insert(chain, l, x))
    requires v in KeysOf(Linked(next, chain, l, x), data[x := val], Insert(chain, l, x))
    ensures v == val || v in KeysOf(next, data, chain)
  {
    var i := KeyFrom(Linked(next, chain, l, x), data[x := val], Insert(chain, l, x), v);
    if i != l + 1 {
      var j := if i <= l then i else i - 1;
      assert chain[j] != x;
      KeyIn(next, data, chain, j);
    }
  }

  lemma InsertAddsKey(next: seq<Link>, data: seq<int>, chain: seq<nat>, l: nat, x: nat, val: int)
    requires IsList(next, data, chain) && Gap(next, data, chain, l, x, val) && !next[chain[l]].mark
    ensures IsList(Linked(next, chain, l, x), data[x := val], Insert(chain, l, x))
    ensures KeysOf(Linked(next, chain, l, x), data[x := val], Insert(chain, l, x)) == KeysOf(next, data, chain) + {val}
  {
    InsertIsList(next, data, chain, l, x, val);
    var next', data', c := Linked(next, chain, l, x), data[x := val], Insert(chain, l, x);
    KeyIn(next', data', c, l + 1);
    forall v | v in KeysOf(next, data, chain) ensures v in KeysOf(next', data', c) {
      InsertKeepsKeys(next, data, chain, l, x, val, v);
    }
    forall v | v in KeysOf(next', data', c) ensures v in KeysOf(next, data, chain) + {val} {
      InsertBringsKey(next, data, chain, l, x, val, v);
    }
  }

  /** Marking a node takes its key out of the set. */
  lemma MarkDropsKey(next: seq<Link>, data: seq<int>, chain: seq<nat>, r: nat)
    requires IsList(next, data, chain) && 0 < r < |chain| - 1 && !next[chain[r]].mark
    ensures var next' := next[chain[r] := Link(next[chain[r]].idx, true)];
            && IsList(next', data, chain)
            && KeysOf(next', data, chain) == KeysOf(next, data, chain) - {data[chain[r]]}
  {
    var next' := next[chain[r] := Link(next[chain[r]].idx, true)];
    forall i: nat ensures LinkOk(next', chain, i) {
      assert LinkOk(next, chain, i);
    }
    forall v | v in KeysOf(next, data, chain) && v != data[chain[r]] ensures v in KeysOf(next', data, chain) {
      var i :| 0 < i < |chain| - 1 && !next[chain[i]].mark && data[chain[i]] == v;
    }
    forall v | v in KeysOf(next', data, chain) ensures v in KeysOf(next, data, chain) && v != data[chain[r]] {
      var i :| 0 < i < |chain| - 1 && !next'[chain[i]].mark && data[chain[i]] == v;
      assert i != r && KeyOrder(data, chain, i, r) && KeyOrder(data, chain, r, i);
    }
  }
}
