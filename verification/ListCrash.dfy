/** What a crash leaves behind, and what recovery makes of it: the durable image of every state of a steady run
    is a sorted chain, as the recovery of the list requires. */
module ListCrash {
  import opened ListCommon
  import opened ListMachine
  import opened ListInv
  import opened ListHeap
  import opened ListSafety
  import opened ListDurable
  import Shape = ListShape

  // The allocator only hands out slots it can find.

  predicate UsedIsFindable(c: Config, sh: Shared, x: nat) {
    St(sh, x) == Free || x == HEAD || x == TAIL || Findable(c, x)
  }

  ghost predicate UsedAreFindable(c: Config, sh: Shared) {
    forall x: nat {:trigger UsedIsFindable(c, sh, x)} :: UsedIsFindable(c, sh, x)
  }

  lemma OnlyAllocTakes(c: Config, sh: Shared, p: nat, t: Thread, op: Op, val: int, x: nat, y: nat)
    requires |sh.slot| == |sh.next|
    requires St(sh, y) == Free && St(Move(c, sh, p, t, op, val, x).0, y).Private?
    ensures t.pc == AAlloc && y == x
  {}

  lemma MoveKeepsFindable(c: Config, s: State, p: nat, op: Op, val: int, x: nat, s': State)
    requires Inv(c, s) && SteadyStepBy(c, s, p, op, val, x, s') && UsedAreFindable(c, s.sh)
    ensures UsedAreFindable(c, s'.sh)
  {
    StepKeepsInv(c, s, p, op, val, x, s');
    forall y: nat ensures UsedIsFindable(c, s'.sh, y) {
      assert UsedIsFindable(c, s.sh, y) && SlotEvolves(s.sh, s'.sh, p, y);
      if St(s.sh, y) == Free && St(s'.sh, y).Private? {
        OnlyAllocTakes(c, s.sh, p, s.th[p], op, val, x, y);
      }
    }
  }

  lemma StepKeepsFindable(c: Config, s: State, s': State)
    requires SoundStep(c, {s}, s') && UsedAreFindable(c, s.sh)
    ensures UsedAreFindable(c, s'.sh)
  {
    assert SoundAt(c, s, s');
    if x :| WriteBack(s, x, s') {
      forall y: nat ensures UsedIsFindable(c, s'.sh, y) {
        assert UsedIsFindable(c, s.sh, y) && St(s'.sh, y) == St(s.sh, y);
      }
    } else {
      var p, op, val, x :| SteadyStepBy(c, s, p, op, val, x, s');
      MoveKeepsFindable(c, s, p, op, val, x, s');
    }
  }

  /** In every state of every steady run each slot in use can be found by the allocator, sentinels aside. */
  lemma {:induction false} RunsUseFindable(c: Config, run: seq<State>, n: nat)
    requires SteadyRun(c, run) && n < |run|
    ensures UsedAreFindable(c, run[n].sh)
  {
    if n > 0 {
      RunsUseFindable(c, run, n - 1);
      StepOfRun(c, run, n);
      StepKeepsFindable(c, run[n - 1], run[n]);
    }
  }

  lemma PathIsList(sh: Shared, path: seq<nat>)
    requires |sh.slot| == |sh.dnext| == |sh.ddata| && !DNxt(sh, TAIL).mark && TAIL < |sh.slot|
    requires IsDurablePath(sh, path)
    ensures Shape.IsList(sh.dnext, sh.ddata, path)
  {
    forall i: nat ensures Shape.LinkOk(sh.dnext, path, i) {
      assert i + 1 < |path| ==> DNxt(sh, path[i]).idx == path[i + 1];
    }
    forall i: nat, j: nat ensures Shape.KeyOrder(sh.ddata, path, i, j) {
      assert i < j < |path| - 1 ==> DDat(sh, path[i]) < DDat(sh, path[j]);
    }
  }

  /** Crash anywhere after the head's line has been persisted: persistent memory holds a list that recovery
      accepts, from slot 0 to slot 1, in slots that the bitmap covers. */
  lemma CrashImageIsList(c: Config, run: seq<State>, n: nat)
    requires SteadyRun(c, run) && n < |run| && !HeadIsStale(run[n].sh)
    ensures var next, data := run[n].sh.dnext, run[n].sh.ddata;
            exists chain :: Shape.IsList(next, data, chain) && !next[HEAD].mark && data[HEAD] == INT_MIN
              && forall i :: 0 <= i < |chain| ==> chain[i] == HEAD || chain[i] == TAIL || Findable(c, chain[i])
  {
    var sh := run[n].sh;
    DurableImageIsSorted(c, run, n);
    var path :| IsDurablePath(sh, path);
    RunsKeepInv(c, run, n);
    RunsUseFindable(c, run, n);
    PathIsList(sh, path);
    forall i | 0 <= i < |path| ensures path[i] == HEAD || path[i] == TAIL || Findable(c, path[i]) {
      assert UsedIsFindable(c, sh, path[i]) && BitOk(c, sh, path[i]);
    }
  }
}
