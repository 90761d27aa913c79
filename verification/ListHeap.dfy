/** What each memory effect does to the list as a whole: it keeps the heap invariant, changes the key set
    in the one intended way, and leaves other threads' slots alone (`Evolves`). */
module ListHeap {
  import opened ListCommon
  import opened ListMachine
  import opened ListInv

  /** The ledger changes an effect of thread p can make to a slot. */
  predicate SlotMoves(p: nat, snips: nat, epoch: nat, a: Slot, b: Slot) {
    b == a ||
    match a
    case Free => b == Private(p)
    case Private(o) => o == p && (b == Free || b == Linked)
    case Linked => b == Unlinked(p, snips)
    case Unlinked(o, at) => o == p && b == Retired(p, at, epoch)
    case Retired(o, _, _) => o == p && b == Free
  }

  ghost predicate SlotEvolves(sh: Shared, sh': Shared, p: nat, x: nat) {
    && SlotMoves(p, sh.snips, sh.epoch, St(sh, x), St(sh', x))
    && (St(sh, x) != Free && St(sh, x) != Private(p) ==> Dat(sh', x) == Dat(sh, x))
    && (St(sh, x).Private? && St(sh, x) != Private(p) ==> Nxt(sh', x) == Nxt(sh, x))
    && (Published(sh, x) && (Nxt(sh, x).mark || sh'.wins == sh.wins) ==> Nxt(sh', x) == Nxt(sh, x))
    && (Published(sh, x) && Nxt(sh', x) != Nxt(sh, x) ==> IsLinked(sh', x))
    && (LineSame(sh, sh', x) || LineCopied(sh, sh', x))
  }

  predicate LineSame(sh: Shared, sh': Shared, x: nat) {
    DNxt(sh', x) == DNxt(sh, x) && DDat(sh', x) == DDat(sh, x)
  }

  predicate LineCopied(sh: Shared, sh': Shared, x: nat) {
    DNxt(sh', x) == Nxt(sh, x) && DDat(sh', x) == Dat(sh, x)
  }

  /** What other threads may rely on while thread p makes a step. */
  ghost predicate Evolves(c: Config, sh: Shared, sh': Shared, p: nat) {
    && Sizes(c, sh) && Sizes(c, sh')
    && sh.snips <= sh'.snips && sh.epoch <= sh'.epoch && sh.wins <= sh'.wins
    && |sh.hist| <= |sh'.hist|
    && (forall k :: 0 <= k < |sh.hist| ==> sh'.hist[k] == sh.hist[k])
    && (forall q :: q != p ==> ResOf(sh', q) == ResOf(sh, q))
    && (forall x: nat :: SlotEvolves(sh, sh', p, x))
  }

  lemma KeysSame(sh: Shared, sh': Shared)
    requires |sh.slot| == |sh'.slot|
    requires forall x: nat :: IsMember(sh', x) == IsMember(sh, x) && (IsMember(sh, x) ==> Dat(sh', x) == Dat(sh, x))
    ensures Keys(sh') == Keys(sh)
  {
    forall d | d in Keys(sh) ensures d in Keys(sh') {
      var x :| 0 <= x < |sh.slot| && IsMember(sh, x) && Dat(sh, x) == d;
      assert IsMember(sh', x) && Dat(sh', x) == d;
    }
    forall d | d in Keys(sh') ensures d in Keys(sh) {
      var x :| 0 <= x < |sh'.slot| && IsMember(sh', x) && Dat(sh', x) == d;
      assert IsMember(sh, x) && Dat(sh, x) == d;
    }
  }

  predicate LedgerStep(c: Config, sh: Shared, sh': Shared, x: nat) {
    GoneOk(sh, x) && BitOk(c, sh, x) ==> GoneOk(sh', x) && BitOk(c, sh', x)
  }

  lemma LedgerFromSteps(c: Config, sh: Shared, sh': Shared)
    requires LedgerOk(c, sh) && forall x: nat :: LedgerStep(c, sh, sh', x)
    ensures LedgerOk(c, sh')
  {
    forall x: nat ensures GoneOk(sh', x) && BitOk(c, sh', x) {
      assert GoneOk(sh, x) && BitOk(c, sh, x) && LedgerStep(c, sh, sh', x);
    }
  }

  /** Effects that leave links, keys and the ledger's linked part alone keep the heap invariant. */
  lemma SameChainKeepsHeap(c: Config, sh: Shared, sh': Shared)
    requires HeapOk(c, sh) && Sizes(c, sh')
    requires sh'.hist == sh.hist
    requires forall x: nat :: IsLinked(sh', x) == IsLinked(sh, x)
    requires forall x: nat :: IsLinked(sh, x) ==> Nxt(sh', x) == Nxt(sh, x) && Dat(sh', x) == Dat(sh, x)
    requires forall x: nat :: LedgerStep(c, sh, sh', x)
    ensures HeapOk(c, sh')
  {
    KeysSame(sh, sh');
    LedgerFromSteps(c, sh, sh');
    forall x: nat | IsLinked(sh', x) && x != TAIL ensures SuccessorOk(sh', x) {
      assert SuccessorOk(sh, x);
    }
    forall x: nat, y: nat | IsLinked(sh', x) && IsLinked(sh', y) && x != TAIL ensures Adjacent(sh', x, y) {
      assert SuccessorOk(sh, x) && Adjacent(sh, x, y);
    }
    forall x: nat, y: nat | IsLinked(sh', x) && IsLinked(sh', y) && x != y ensures Ordered(sh', x, y) {
      assert Ordered(sh, x, y);
    }
    forall x: nat | IsLinked(sh', x) && x != HEAD ensures Lt(sh', HEAD, x) {
      assert Lt(sh, HEAD, x);
    }
  }

  lemma AllocKeeps(c: Config, sh: Shared, p: nat, x: nat)
    requires HeapOk(c, sh) && Bit(sh, x)
    ensures HeapOk(c, AllocNode(sh, p, x)) && Evolves(c, sh, AllocNode(sh, p, x), p)
    ensures St(sh, x) == Free && x < c.slots
  {
    assert BitOk(c, sh, x);
    SameChainKeepsHeap(c, sh, AllocNode(sh, p, x));
  }

  lemma FreeKeeps(c: Config, sh: Shared, p: nat, x: nat)
    requires HeapOk(c, sh)
    requires St(sh, x) == Private(p) || (St(sh, x).Retired? && St(sh, x).owner == p)
    ensures HeapOk(c, FreeNode(sh, x)) && Evolves(c, sh, FreeNode(sh, x), p)
  {
    SameChainKeepsHeap(c, sh, FreeNode(sh, x));
  }

  lemma RetireKeeps(c: Config, sh: Shared, p: nat, x: nat)
    requires HeapOk(c, sh) && St(sh, x).Unlinked? && St(sh, x).owner == p
    ensures HeapOk(c, RetireNode(sh, p, x)) && Evolves(c, sh, RetireNode(sh, p, x), p)
  {
    SameChainKeepsHeap(c, sh, RetireNode(sh, p, x));
  }

  lemma PrivateWriteKeeps(c: Config, sh: Shared, p: nat, x: nat, l: Link, d: int)
    requires HeapOk(c, sh) && St(sh, x) == Private(p)
    ensures HeapOk(c, SetNxt(sh, x, l)) && Evolves(c, sh, SetNxt(sh, x, l), p)
    ensures HeapOk(c, SetDat(sh, x, d)) && Evolves(c, sh, SetDat(sh, x, d), p)
  {
    SameChainKeepsHeap(c, sh, SetNxt(sh, x, l));
    SameChainKeepsHeap(c, sh, SetDat(sh, x, d));
  }

  lemma PersistKeeps(c: Config, sh: Shared, p: nat, x: nat)
    requires HeapOk(c, sh)
    ensures HeapOk(c, Persist(sh, x)) && Evolves(c, sh, Persist(sh, x), p)
  {
    SameChainKeepsHeap(c, sh, Persist(sh, x));
  }

  lemma ReserveKeeps(c: Config, sh: Shared, p: nat, r: Res)
    requires HeapOk(c, sh)
    ensures HeapOk(c, SetRes(sh, p, r)) && Evolves(c, sh, SetRes(sh, p, r), p)
  {
    SameChainKeepsHeap(c, sh, SetRes(sh, p, r));
  }

  lemma BumpKeeps(c: Config, sh: Shared, p: nat)
    requires HeapOk(c, sh)
    ensures HeapOk(c, sh.(epoch := sh.epoch + 1)) && Evolves(c, sh, sh.(epoch := sh.epoch + 1), p)
  {
    SameChainKeepsHeap(c, sh, sh.(epoch := sh.epoch + 1));
  }

  /** No member has a key strictly between a linked node's and its successor's. */
  lemma NothingBetween(sh: Shared, x: nat, d: int)
    requires ChainOk(sh) && IsLinked(sh, x) && x != TAIL
    requires Dat(sh, x) < d && (Nxt(sh, x).idx == TAIL || d < Dat(sh, Nxt(sh, x).idx))
    ensures d !in Keys(sh)
  {
    forall y: nat | IsMember(sh, y) ensures Dat(sh, y) != d {
      assert IsLinked(sh, y) && Adjacent(sh, x, y);
    }
  }

  /** A key has at most one linked node. */
  lemma MarkedMeansAbsent(sh: Shared, x: nat)
    requires ChainOk(sh) && IsLinked(sh, x) && x != TAIL && Nxt(sh, x).mark
    ensures Dat(sh, x) !in Keys(sh)
  {
    forall y: nat | IsMember(sh, y) ensures Dat(sh, y) != Dat(sh, x) {
      assert IsLinked(sh, y) && y != x && Ordered(sh, x, y);
    }
  }

  lemma MemberMeansPresent(sh: Shared, x: nat)
    requires IsMember(sh, x)
    ensures Dat(sh, x) in Keys(sh)
  {
    assert x < |sh.slot|;
  }

  // Linking a new node between two adjacent ones.

  ghost predicate CanLink(sh: Shared, p: nat, left: nat, right: nat, x: nat) {
    && IsLinked(sh, left) && left != TAIL && Nxt(sh, left) == Link(right, false)
    && St(sh, x) == Private(p) && Nxt(sh, x) == Link(right, false)
    && Dat(sh, left) < Dat(sh, x) && (right == TAIL || Dat(sh, x) < Dat(sh, right))
  }

  lemma LinkedAfterLink(c: Config, sh: Shared, p: nat, left: nat, right: nat, x: nat, y: nat)
    requires HeapOk(c, sh) && CanLink(sh, p, left, right, x)
    ensures var sh' := LinkNode(sh, left, x);
            && IsLinked(sh', y) == (IsLinked(sh, y) || y == x)
            && Dat(sh', y) == Dat(sh, y)
            && Nxt(sh', y) == (if y == left then Link(x, false) else Nxt(sh, y))
  {}

  lemma LinkKeepsChain(c: Config, sh: Shared, p: nat, left: nat, right: nat, x: nat)
    requires HeapOk(c, sh) && CanLink(sh, p, left, right, x)
    ensures ChainOk(LinkNode(sh, left, x))
  {
    var sh' := LinkNode(sh, left, x);
    forall y: nat ensures IsLinked(sh', y) == (IsLinked(sh, y) || y == x) && Dat(sh', y) == Dat(sh, y)
                       && Nxt(sh', y) == (if y == left then Link(x, false) else Nxt(sh, y)) {
      LinkedAfterLink(c, sh, p, left, right, x, y);
    }
    assert SuccessorOk(sh, left);
    forall y: nat | IsLinked(sh, y) ensures (y == left || Ordered(sh, y, left)) && Adjacent(sh, left, y) {}
    forall y: nat | IsLinked(sh', y) && y != HEAD ensures Lt(sh', HEAD, y) {
      assert (left != HEAD ==> Lt(sh, HEAD, left)) && (y != x ==> Lt(sh, HEAD, y));
    }
    forall y: nat | IsLinked(sh', y) && y != TAIL ensures SuccessorOk(sh', y) {
      assert y != x ==> SuccessorOk(sh, y);
    }
    forall y: nat, z: nat | IsLinked(sh', y) && IsLinked(sh', z) && y != z ensures Ordered(sh', y, z) {
      assert y != x && z != x ==> Ordered(sh, y, z);
    }
    forall y: nat, z: nat | IsLinked(sh', y) && IsLinked(sh', z) && y != TAIL ensures Adjacent(sh', y, z) {
      assert y != x && z != x ==> Adjacent(sh, y, z);
      assert y != x ==> SuccessorOk(sh, y) && Adjacent(sh, y, left);
    }
  }

  lemma LinkChangesKeys(c: Config, sh: Shared, p: nat, left: nat, right: nat, x: nat)
    requires HeapOk(c, sh) && CanLink(sh, p, left, right, x)
    ensures Dat(sh, x) !in Keys(sh)
    ensures Keys(LinkNode(sh, left, x)) == Keys(sh) + {Dat(sh, x)}
  {
    var sh' := LinkNode(sh, left, x);
    NothingBetween(sh, left, Dat(sh, x));
    forall d | d in Keys(sh) + {Dat(sh, x)} ensures d in Keys(sh') {
      var y :| 0 <= y < |sh.slot| && (y == x || IsMember(sh, y)) && Dat(sh, y) == d;
      LinkedAfterLink(c, sh, p, left, right, x, y);
      assert IsMember(sh', y);
    }
    forall d | d in Keys(sh') ensures d in Keys(sh) + {Dat(sh, x)} {
      var y :| 0 <= y < |sh'.slot| && IsMember(sh', y) && Dat(sh', y) == d;
      LinkedAfterLink(c, sh, p, left, right, x, y);
      assert y == x || IsMember(sh, y);
    }
  }

  lemma LinkKeeps(c: Config, sh: Shared, p: nat, left: nat, right: nat, x: nat)
    requires HeapOk(c, sh) && CanLink(sh, p, left, right, x)
    ensures HeapOk(c, LinkNode(sh, left, x)) && Evolves(c, sh, LinkNode(sh, left, x), p)
  {
    LinkKeepsChain(c, sh, p, left, right, x);
    var sh1 := SetSt(SetNxt(sh, left, Link(x, false)), x, Linked);
    var sh' := LinkNode(sh, left, x);
    KeysSame(sh1, sh');
    forall y: nat ensures LedgerStep(c, sh, sh', y) && SlotEvolves(sh, sh', p, y) {
      LinkedAfterLink(c, sh, p, left, right, x, y);
      assert GoneOk(sh, y);
    }
    LedgerFromSteps(c, sh, sh');
  }

  // Marking a node.

  lemma MarkKeepsChain(c: Config, sh: Shared, x: nat)
    requires HeapOk(c, sh) && IsMember(sh, x)
    ensures ChainOk(MarkNode(sh, x))
  {
    var sh' := MarkNode(sh, x);
    forall y: nat | IsLinked(sh', y) && y != TAIL ensures SuccessorOk(sh', y) {
      assert SuccessorOk(sh, y);
    }
    forall y: nat, z: nat | IsLinked(sh', y) && IsLinked(sh', z) && y != TAIL ensures Adjacent(sh', y, z) {
      assert Adjacent(sh, y, z);
    }
    forall y: nat, z: nat | IsLinked(sh', y) && IsLinked(sh', z) && y != z ensures Ordered(sh', y, z) {
      assert Ordered(sh, y, z);
    }
    forall y: nat | IsLinked(sh', y) && y != HEAD ensures Lt(sh', HEAD, y) {
      assert Lt(sh, HEAD, y);
    }
  }

  lemma MarkChangesKeys(c: Config, sh: Shared, x: nat)
    requires HeapOk(c, sh) && IsMember(sh, x)
    ensures Dat(sh, x) in Keys(sh)
    ensures Keys(MarkNode(sh, x)) == Keys(sh) - {Dat(sh, x)}
  {
    var sh' := MarkNode(sh, x);
    MemberMeansPresent(sh, x);
    forall d | d in Keys(sh) - {Dat(sh, x)} ensures d in Keys(sh') {
      var y :| 0 <= y < |sh.slot| && IsMember(sh, y) && Dat(sh, y) == d;
      assert IsMember(sh', y) && Dat(sh', y) == d;
    }
    forall d | d in Keys(sh') ensures d in Keys(sh) - {Dat(sh, x)} {
      var y :| 0 <= y < |sh'.slot| && IsMember(sh', y) && Dat(sh', y) == d;
      assert y != x && IsMember(sh, y) && Dat(sh, y) == d;
      assert Ordered(sh, x, y);
    }
  }

  lemma MarkKeeps(c: Config, sh: Shared, p: nat, x: nat)
    requires HeapOk(c, sh) && IsMember(sh, x)
    ensures HeapOk(c, MarkNode(sh, x)) && Evolves(c, sh, MarkNode(sh, x), p)
  {
    MarkKeepsChain(c, sh, x);
    var sh1, sh' := SetNxt(sh, x, Link(Nxt(sh, x).idx, true)), MarkNode(sh, x);
    KeysSame(sh1, sh');
    forall y: nat ensures LedgerStep(c, sh, sh', y) && SlotEvolves(sh, sh', p, y) {}
    LedgerFromSteps(c, sh, sh');
  }

  // Unlinking a run of marked nodes.

  ghost predicate CanSnip(sh: Shared, left: nat, path: seq<nat>, right: nat) {
    && IsLinked(sh, left) && left != TAIL && |path| > 0
    && Nxt(sh, left) == Link(path[0], false)
    && (forall i :: 0 <= i < |path| ==> SnipNode(sh, path, right, i))
  }

  ghost predicate SnipNode(sh: Shared, path: seq<nat>, right: nat, i: nat)
    requires i < |path|
  {
    Nxt(sh, path[i]) == Link(if i + 1 < |path| then path[i + 1] else right, true)
  }

  /** The nodes on the path are linked, after left and before right, and nothing else is. */
  lemma {:induction false} SnipPathLinked(sh: Shared, left: nat, path: seq<nat>, right: nat, i: nat)
    requires ChainOk(sh) && CanSnip(sh, left, path, right) && i < |path|
    ensures IsLinked(sh, path[i]) && path[i] != TAIL && path[i] != HEAD && Lt(sh, left, path[i])
    ensures forall y: nat :: IsLinked(sh, y) && Lt(sh, left, y) && y !in path[..i + 1] ==> Lt(sh, path[i], y)
  {
    assert SnipNode(sh, path, right, i);
    if i == 0 {
      assert SuccessorOk(sh, left);
      forall y: nat | IsLinked(sh, y) && Lt(sh, left, y) && y !in path[..1] ensures Lt(sh, path[0], y) {
        assert Adjacent(sh, left, y) && path[..1] == [path[0]];
      }
    } else {
      SnipPathLinked(sh, left, path, right, i - 1);
      assert SnipNode(sh, path, right, i - 1) && SuccessorOk(sh, path[i - 1]);
      forall y: nat | IsLinked(sh, y) && Lt(sh, left, y) && y !in path[..i + 1] ensures Lt(sh, path[i], y) {
        assert path[..i + 1] == path[..i] + [path[i]];
        assert Adjacent(sh, path[i - 1], y);
      }
    }
  }

  lemma SnipRightLinked(sh: Shared, left: nat, path: seq<nat>, right: nat)
    requires ChainOk(sh) && CanSnip(sh, left, path, right)
    ensures IsLinked(sh, right) && Lt(sh, left, right) && right !in path
    ensures forall y: nat :: IsLinked(sh, y) && Lt(sh, left, y) && y !in path ==> y == right || Lt(sh, right, y)
    ensures forall i :: 0 <= i < |path| ==> Lt(sh, path[i], right)
  {
    var m := |path| - 1;
    SnipPathLinked(sh, left, path, right, m);
    assert SnipNode(sh, path, right, m) && SuccessorOk(sh, path[m]) && path[..m + 1] == path;
    forall y: nat | IsLinked(sh, y) && Lt(sh, left, y) && y !in path ensures y == right || Lt(sh, right, y) {
      assert Adjacent(sh, path[m], y);
    }
    SnipPathSorted(sh, left, path, right);
    forall i | 0 <= i < |path| ensures Lt(sh, path[i], right) {
      assert i < m ==> Lt(sh, path[i], path[m]);
    }
  }

  lemma SnipPathSorted(sh: Shared, left: nat, path: seq<nat>, right: nat)
    requires ChainOk(sh) && CanSnip(sh, left, path, right)
    ensures forall i, j :: 0 <= i < j < |path| ==> Lt(sh, path[i], path[j])
  {
    forall i, j | 0 <= i < j < |path| ensures Lt(sh, path[i], path[j]) {
      SnipPathOrdered(sh, left, path, right, i, j);
    }
  }

  lemma {:induction false} SnipPathOrdered(sh: Shared, left: nat, path: seq<nat>, right: nat, i: nat, j: nat)
    requires ChainOk(sh) && CanSnip(sh, left, path, right) && i < j < |path|
    ensures Lt(sh, path[i], path[j])
  {
    SnipPathLinked(sh, left, path, right, j - 1);
    assert SnipNode(sh, path, right, j - 1) && SuccessorOk(sh, path[j - 1]);
    if i < j - 1 {
      SnipPathOrdered(sh, left, path, right, i, j - 1);
    }
  }

  /** Only left points into the path from outside. */
  lemma SnipPathEntered(sh: Shared, left: nat, path: seq<nat>, right: nat, x: nat)
    requires ChainOk(sh) && CanSnip(sh, left, path, right)
    requires IsLinked(sh, x) && x != TAIL && x != left && x !in path
    ensures Nxt(sh, x).idx !in path
  {
    assert SuccessorOk(sh, x);
    assert Ordered(sh, left, x) && Adjacent(sh, x, left);
    forall i | 0 <= i < |path| ensures path[i] != Nxt(sh, x).idx {
      SnipPathLinked(sh, left, path, right, i);
      if Lt(sh, left, x) {
        assert path[..i + 1] <= path;
        assert x !in path[..i + 1];
      }
    }
  }

  lemma SnipEffect(sh: Shared, p: nat, left: nat, right: nat, path: seq<nat>, y: nat)
    requires |sh.slot| == |sh.next| && left < |sh.next|
    ensures var sh' := SnipNodes(sh, p, left, right, path);
            && St(sh', y) == (if y in path && y < |sh.slot| then Unlinked(p, sh.snips) else St(sh, y))
            && Dat(sh', y) == Dat(sh, y)
            && Nxt(sh', y) == (if y == left then Link(right, false) else Nxt(sh, y))
  {}

  lemma SnipKeepsChain(c: Config, sh: Shared, p: nat, left: nat, path: seq<nat>, right: nat)
    requires HeapOk(c, sh) && CanSnip(sh, left, path, right)
    ensures ChainOk(SnipNodes(sh, p, left, right, path))
    ensures forall y: nat :: IsLinked(SnipNodes(sh, p, left, right, path), y) == (IsLinked(sh, y) && y !in path)
    ensures left !in path
  {
    var sh' := SnipNodes(sh, p, left, right, path);
    SnipRightLinked(sh, left, path, right);
    forall i | 0 <= i < |path| ensures IsLinked(sh, path[i]) && path[i] != TAIL && path[i] != HEAD && path[i] != left {
      SnipPathLinked(sh, left, path, right, i);
    }
    forall y: nat ensures IsLinked(sh', y) == (IsLinked(sh, y) && y !in path) && Dat(sh', y) == Dat(sh, y)
                       && Nxt(sh', y) == (if y == left then Link(right, false) else Nxt(sh, y)) {
      SnipEffect(sh, p, left, right, path, y);
    }
    SnipKeepsOrder(c, sh, sh', left, path, right);
  }

  lemma SnipKeepsOrder(c: Config, sh: Shared, sh': Shared, left: nat, path: seq<nat>, right: nat)
    requires HeapOk(c, sh) && CanSnip(sh, left, path, right)
    requires left !in path && HEAD !in path && TAIL !in path
    requires forall y: nat :: IsLinked(sh', y) == (IsLinked(sh, y) && y !in path)
    requires forall y: nat :: Dat(sh', y) == Dat(sh, y)
    requires forall y: nat :: Nxt(sh', y) == (if y == left then Link(right, false) else Nxt(sh, y))
    ensures ChainOk(sh')
  {
    SnipRightLinked(sh, left, path, right);
    forall y: nat | IsLinked(sh', y) && y != TAIL ensures SuccessorOk(sh', y) {
      if y != left {
        SnipPathEntered(sh, left, path, right, y);
        assert SuccessorOk(sh, y);
      }
    }
    forall y: nat, z: nat | IsLinked(sh', y) && IsLinked(sh', z) && y != TAIL ensures Adjacent(sh', y, z) {
      assert Adjacent(sh, y, z);
    }
    forall y: nat, z: nat | IsLinked(sh', y) && IsLinked(sh', z) && y != z ensures Ordered(sh', y, z) {
      assert Ordered(sh, y, z);
    }
    forall y: nat | IsLinked(sh', y) && y != HEAD ensures Lt(sh', HEAD, y) {
      assert Lt(sh, HEAD, y);
    }
  }

  lemma SnipKeepsKeys(c: Config, sh: Shared, p: nat, left: nat, path: seq<nat>, right: nat)
    requires HeapOk(c, sh) && CanSnip(sh, left, path, right)
    ensures Keys(SnipNodes(sh, p, left, right, path)) == Keys(sh)
  {
    var sh' := SnipNodes(sh, p, left, right, path);
    SnipKeepsChain(c, sh, p, left, path, right);
    forall y: nat ensures IsMember(sh', y) == IsMember(sh, y) && Dat(sh', y) == Dat(sh, y) {
      SnipEffect(sh, p, left, right, path, y);
      if y in path {
        var i :| 0 <= i < |path| && path[i] == y;
        assert SnipNode(sh, path, right, i);
      }
    }
    KeysSame(sh, sh');
  }

  lemma SnipKeeps(c: Config, sh: Shared, p: nat, left: nat, path: seq<nat>, right: nat)
    requires HeapOk(c, sh) && CanSnip(sh, left, path, right)
    ensures HeapOk(c, SnipNodes(sh, p, left, right, path))
    ensures Evolves(c, sh, SnipNodes(sh, p, left, right, path), p)
  {
    var sh' := SnipNodes(sh, p, left, right, path);
    SnipKeepsChain(c, sh, p, left, path, right);
    SnipKeepsKeys(c, sh, p, left, path, right);
    forall y: nat ensures SlotEvolves(sh, sh', p, y) && LedgerStep(c, sh, sh', y) {
      SnipEffect(sh, p, left, right, path, y);
      if y in path {
        var i :| 0 <= i < |path| && path[i] == y;
        assert SnipNode(sh, path, right, i);
        SnipPathLinked(sh, left, path, right, i);
      }
    }
    LedgerFromSteps(c, sh, sh');
  }
}
