/** What callers of the ring get, for every run of any number of producers and consumers. */
module RingResults {
  import opened Ring
  import opened RingSafety

  function Last(run: seq<State>): State
    requires |run| > 0
  {
    run[|run| - 1]
  }

  /** Every push ticket below last_head_ has finished writing its slot and every pop ticket below
      last_tail_ has finished copying, although either variable may move backwards; no call still copying
      has a ticket below them. */
  lemma TicketSoundness(c: Config, run: seq<State>)
    requires Run(c, run)
    ensures forall t: nat :: t < Last(run).push.last ==> t in Last(run).push.done
    ensures forall t: nat :: t < Last(run).pop.last ==> t in Last(run).pop.done
    ensures forall r: Role, i: nat :: i < |SideOf(Last(run), r).actors| && SideOf(Last(run), r).actors[i].pc == Copy ==>
              SideOf(Last(run), r).actors[i].ticket >= SideOf(Last(run), r).last
  {
    RunsKeepInv(c, run, |run| - 1);
    forall r: Role, i: nat | i < |SideOf(Last(run), r).actors| && SideOf(Last(run), r).actors[i].pc == Copy
      ensures SideOf(Last(run), r).actors[i].ticket >= SideOf(Last(run), r).last
    {
      CopyFacts(c, Last(run), r, i);
    }
  }

  ghost predicate Extends(s: State, s': State) {
    && (forall t :: t in s.pushed ==> t in s'.pushed && s'.pushed[t] == s.pushed[t])
    && (forall t :: t in s.popped ==> t in s'.popped && s'.popped[t] == s.popped[t])
  }

  lemma StepExtends(c: Config, s: State, r: Role, i: nat, v: seq<int>)
    requires Shape(c, s) && i < |SideOf(s, r).actors|
    requires s.push.next !in s.pushed
    requires r.Pop? && s.pop.actors[i].pc == Copy ==> s.pop.actors[i].ticket !in s.popped
    ensures Extends(s, Next(c, s, r, i, v))
  {}

  lemma InvStepExtends(c: Config, s: State, s': State)
    requires Inv(c, s) && Step(c, s, s')
    ensures Extends(s, s')
  {
    var r, i: nat, v :| StepBy(c, s, r, i, v, s');
    var a := SideOf(s, r).actors[i];
    if a.pc == Copy {
      assert Holds(a, a.ticket) && a.ticket !in SideOf(s, r).done;
    }
    StepExtends(c, s, r, i, v);
  }

  /** The value pushed and the value popped with a ticket are settled once: later steps only add. */
  lemma {:induction false} HistoryOnlyGrows(c: Config, run: seq<State>, n: nat, m: nat)
    requires Run(c, run) && n <= m < |run|
    ensures Extends(run[n], run[m])
  {
    if n < m {
      HistoryOnlyGrows(c, run, n, m - 1);
      RunsKeepInv(c, run, m - 1);
      assert StepAt(c, run, m);
      InvStepExtends(c, run[m - 1], run[m]);
      ExtendsChain(run[n], run[m - 1], run[m]);
    }
  }

  lemma ExtendsChain(s: State, s': State, s'': State)
    requires Extends(s, s') && Extends(s', s'')
    ensures Extends(s, s'')
  {}

  // Calls.

  predicate Busy(s: State, r: Role, i: nat) {
    i < |SideOf(s, r).actors| && SideOf(s, r).actors[i].pc != Idle
  }

  /** Thread i of side r, idle in state k, is called in the step after it, a push with argument v, and has not
      gone idle again by state n. */
  ghost predicate CallFrom(c: Config, run: seq<State>, r: Role, i: nat, k: nat, n: nat, v: seq<int>) {
    && k < n < |run|
    && i < |SideOf(run[k], r).actors| && SideOf(run[k], r).actors[i].pc == Idle
    && StepBy(c, run[k], r, i, v, run[k + 1])
    && (forall m: nat {:trigger Busy(run[m], r, i)} :: k < m <= n ==> Busy(run[m], r, i))
  }

  /** A call of push with argument v has drawn ticket t. */
  ghost predicate PushOf(c: Config, run: seq<State>, t: nat, v: seq<int>) {
    exists i: nat, k: nat, n: nat :: CallFrom(c, run, Push, i, k, n, v) && KeepsTicket(run[n].push, i, t)
  }

  /** Producer i is pushing v. */
  ghost predicate Pushing(s: State, i: nat, v: seq<int>) {
    && i < |s.push.actors| && s.push.actors[i].buf == v
    && forall t: nat :: KeepsTicket(s.push, i, t) ==> t in s.pushed && s.pushed[t] == v
  }

  lemma CallBeginsPushing(c: Config, s: State, i: nat, v: seq<int>, s': State)
    requires StepBy(c, s, Push, i, v, s') && s.push.actors[i].pc == Idle
    ensures Pushing(s', i, v)
  {}

  /** A step changes one thread's locals. */
  lemma StepLeavesOthers(c: Config, s: State, r: Role, j: nat, w: seq<int>, s': State, r': Role, i: nat)
    requires StepBy(c, s, r, j, w, s') && i < |SideOf(s, r').actors| && (r != r' || i != j)
    ensures i < |SideOf(s', r').actors| && SideOf(s', r').actors[i] == SideOf(s, r').actors[i]
  {
    if SideOf(s, r).actors[j].pc == Copy {
      NextCopies(c, s, r, j, w);
    } else {
      NextMoves(c, s, r, j, w);
    }
  }

  lemma StillPushing(s: State, s': State, i: nat, v: seq<int>)
    requires Pushing(s, i, v) && Extends(s, s') && i < |s'.push.actors| && s'.push.actors[i] == s.push.actors[i]
    ensures Pushing(s', i, v)
  {
    assert forall t: nat :: KeepsTicket(s'.push, i, t) ==> KeepsTicket(s.push, i, t);
  }

  lemma StepKeepsPushing(c: Config, s: State, s': State, i: nat, v: seq<int>)
    requires Inv(c, s) && Step(c, s, s') && Busy(s, Push, i) && Pushing(s, i, v)
    ensures Pushing(s', i, v)
  {
    var r, j: nat, w :| StepBy(c, s, r, j, w, s');
    if r == Push && j == i {
      OwnStepKeepsPushing(c, s, i, w, v);
    } else {
      InvStepExtends(c, s, s');
      StepLeavesOthers(c, s, r, j, w, s', Push, i);
      StillPushing(s, s', i, v);
    }
  }

  lemma StepIsCall(c: Config, s: State, s': State, i: nat) returns (v: seq<int>)
    requires Step(c, s, s') && Busy(s', Push, i) && !Busy(s, Push, i)
    ensures StepBy(c, s, Push, i, v, s') && i < |s.push.actors| && s.push.actors[i].pc == Idle
  {
    var r, j: nat, w :| StepBy(c, s, r, j, w, s');
    StepKeepsCount(c, s, r, j, w, s');
    if r != Push || j != i {
      StepLeavesOthers(c, s, r, j, w, s', Push, i);
      assert false;
    }
    v := w;
  }

  lemma StepKeepsCount(c: Config, s: State, r: Role, j: nat, w: seq<int>, s': State)
    requires StepBy(c, s, r, j, w, s')
    ensures |s'.push.actors| == |s.push.actors|
  {
    if SideOf(s, r).actors[j].pc == Copy {
      NextCopies(c, s, r, j, w);
    } else {
      NextMoves(c, s, r, j, w);
    }
  }

  lemma OwnStepKeepsPushing(c: Config, s: State, i: nat, w: seq<int>, v: seq<int>)
    requires Shape(c, s) && Busy(s, Push, i) && Pushing(s, i, v)
    ensures Pushing(Next(c, s, Push, i, w), i, v)
  {
    var s' := Next(c, s, Push, i, w);
    assert forall t: nat :: KeepsTicket(s'.push, i, t) ==>
        KeepsTicket(s.push, i, t) || (s.push.actors[i].pc == Draw && t == s.push.next);
  }

  lemma {:induction false} PushingStays(c: Config, run: seq<State>, i: nat, m: nat, n: nat, v: seq<int>)
    requires Run(c, run) && m <= n < |run| && Pushing(run[m], i, v)
    requires forall j: nat {:trigger Busy(run[j], Push, i)} :: m <= j <= n ==> Busy(run[j], Push, i)
    ensures Pushing(run[n], i, v)
    decreases n
  {
    if m < n {
      assert StepAt(c, run, n) && Busy(run[n - 1], Push, i);
      PushingStays(c, run, i, m, n - 1, v);
      RunsKeepInv(c, run, n - 1);
      StepKeepsPushing(c, run[n - 1], run[n], i, v);
    }
  }

  /** From the call to its end a push carries its argument, and that is what is recorded with the ticket it
      draws. */
  lemma CallPushesItsArgument(c: Config, run: seq<State>, i: nat, k: nat, n: nat, v: seq<int>)
    requires Run(c, run) && CallFrom(c, run, Push, i, k, n, v)
    ensures Pushing(run[n], i, v)
  {
    CallBeginsPushing(c, run[k], i, v, run[k + 1]);
    PushingStays(c, run, i, k + 1, n, v);
  }

  /** Whoever is not idle has been called. */
  lemma {:induction false} CallOf(c: Config, run: seq<State>, i: nat, n: nat) returns (k: nat, v: seq<int>)
    requires Run(c, run) && n < |run| && Busy(run[n], Push, i)
    ensures CallFrom(c, run, Push, i, k, n, v)
    decreases n
  {
    assert n > 0 && StepAt(c, run, n);
    if Busy(run[n - 1], Push, i) {
      k, v := CallOf(c, run, i, n - 1);
    } else {
      k := n - 1;
      v := StepIsCall(c, run[k], run[n], i);
    }
  }

  /** A ticket recorded is one that a call has drawn. */
  lemma {:induction false} PushedHasCall(c: Config, run: seq<State>, n: nat, t: nat)
    requires Run(c, run) && n < |run| && t in run[n].pushed
    ensures PushOf(c, run, t, run[n].pushed[t])
    decreases n
  {
    assert n > 0 && StepAt(c, run, n);
    if t in run[n - 1].pushed {
      PushedHasCall(c, run, n - 1, t);
      HistoryOnlyGrows(c, run, n - 1, n);
    } else {
      var r, i: nat, w :| StepBy(c, run[n - 1], r, i, w, run[n]);
      assert r == Push && KeepsTicket(run[n].push, i, t);
      var k, v := CallOf(c, run, i, n);
      CallPushesItsArgument(c, run, i, k, n, v);
    }
  }

  /** And what is recorded with it is the argument of that call, for good. */
  lemma PushOfIsPushed(c: Config, run: seq<State>, t: nat, v: seq<int>)
    requires Run(c, run) && PushOf(c, run, t, v)
    ensures t in Last(run).pushed && Last(run).pushed[t] == v
  {
    var i: nat, k: nat, n: nat :| CallFrom(c, run, Push, i, k, n, v) && KeepsTicket(run[n].push, i, t);
    CallPushesItsArgument(c, run, i, k, n, v);
    HistoryOnlyGrows(c, run, n, |run| - 1);
  }

  /** Nothing lost, duplicated or reordered. Each ticket below head_ was drawn by a call of push; a pop that
      has finished with the ticket, or is about to return, has got the argument of that call. Each ticket
      below tail_ has been popped or is in the hands of one pop. */
  lemma Exactness(c: Config, run: seq<State>)
    requires Run(c, run)
    ensures var s := Last(run);
            && (forall t: nat :: t < s.push.next <==> t in s.pushed)
            && (forall t :: t in s.pushed ==> PushOf(c, run, t, s.pushed[t]))
            && (forall t, v :: PushOf(c, run, t, v) ==> t in s.pushed && s.pushed[t] == v)
            && (forall t, v :: PushOf(c, run, t, v) && t in s.popped ==> s.popped[t] == v)
            && (forall t :: t in s.popped ==> PushOf(c, run, t, s.popped[t]))
            && (forall i :: 0 <= i < |s.pop.actors| && s.pop.actors[i].pc in {Save, Clear} ==>
                  PushOf(c, run, s.pop.actors[i].ticket, s.pop.actors[i].buf))
            && (forall t: nat :: t < s.pop.next ==> (t !in s.popped <==> HeldFrom(s.pop, 0, t)))
            && (forall i, j :: 0 <= i < j < |s.pop.actors| && Active(s.pop.actors[i]) && Active(s.pop.actors[j]) ==>
                  s.pop.actors[i].ticket != s.pop.actors[j].ticket)
  {
    RunsKeepInv(c, run, |run| - 1);
    var s := Last(run);
    forall t | t in s.pushed ensures PushOf(c, run, t, s.pushed[t]) {
      PushedHasCall(c, run, |run| - 1, t);
    }
    forall t, v | PushOf(c, run, t, v) ensures t in s.pushed && s.pushed[t] == v {
      PushOfIsPushed(c, run, t, v);
    }
    forall i, j | 0 <= i < j < |s.pop.actors| && Active(s.pop.actors[i]) && Active(s.pop.actors[j])
      ensures s.pop.actors[i].ticket != s.pop.actors[j].ticket
    {
      HoldersDiffer(s.pop, i, j);
    }
    forall i | 0 <= i < |s.pop.actors| && s.pop.actors[i].pc in {Save, Clear}
      ensures PushOf(c, run, s.pop.actors[i].ticket, s.pop.actors[i].buf)
    {
      assert ReaderOk(c, s, s.pop.actors[i]);
    }
  }

  /** Two different calls are never copying to or from the same slot at the same time. */
  lemma SlotExclusion(c: Config, run: seq<State>, r: Role, i: nat, r': Role, j: nat)
    requires Run(c, run)
    requires i < |SideOf(Last(run), r).actors| && SideOf(Last(run), r).actors[i].pc == Copy
    requires j < |SideOf(Last(run), r').actors| && SideOf(Last(run), r').actors[j].pc == Copy
    requires r != r' || i != j
    ensures SlotOf(c, SideOf(Last(run), r).actors[i].ticket) != SlotOf(c, SideOf(Last(run), r').actors[j].ticket)
  {
    RunsKeepInv(c, run, |run| - 1);
    var s := Last(run);
    var t, u := SideOf(s, r).actors[i].ticket, SideOf(s, r').actors[j].ticket;
    CopyFacts(c, s, r, i);
    CopyFacts(c, s, r', j);
    if r == r' {
      HoldersDiffer(SideOf(s, r), i, j);
    }
    if SlotOf(c, t) == SlotOf(c, u) {
      if t < u {
        SameSlotMeansPopped(c, t, u, s.push, s.pop);
      } else if u < t {
        SameSlotMeansPopped(c, u, t, s.push, s.pop);
      }
    }
  }

  lemma CopyFacts(c: Config, s: State, r: Role, i: nat)
    requires Inv(c, s) && i < |SideOf(s, r).actors| && SideOf(s, r).actors[i].pc == Copy
    ensures var t := SideOf(s, r).actors[i].ticket;
            Served(c, Push, s.pop, t) && t !in SideOf(s, r).done && (r.Pop? ==> t in s.push.done)
  {
    var a := SideOf(s, r).actors[i];
    assert Holds(a, a.ticket);
    if r.Pop? {
      assert Served(c, Pop, s.push, a.ticket);
    }
  }

  /** The tickets in a half-open interval. */
  function Interval(lo: nat, n: nat): (r: set<nat>)
    ensures |r| == n
    ensures forall t :: t in r <==> lo <= t < lo + n
  {
    if n == 0 then {} else Interval(lo, n - 1) + {lo + n - 1}
  }

  lemma {:induction false} LargestMember(x: set<nat>) returns (m: nat)
    requires x != {}
    ensures m in x && forall t :: t in x ==> t <= m
    decreases |x|
  {
    m :| m in x;
    if x != {m} {
      var rest := x - {m};
      assert x == rest + {m};
      var m' := LargestMember(rest);
      m := if m' > m then m' else m;
    }
  }

  /** At most Q_SIZE tickets are written and not yet copied out, and they lie in one window. */
  lemma Bounded(c: Config, run: seq<State>)
    requires Run(c, run)
    ensures |Last(run).push.done - Last(run).pop.done| <= c.size
    ensures forall t, u :: t in Last(run).push.done - Last(run).pop.done && u in Last(run).push.done ==> u < t + c.size
  {
    RunsKeepInv(c, run, |run| - 1);
    var s := Last(run);
    var live := s.push.done - s.pop.done;
    forall t, u | t in live && u in s.push.done ensures u < t + c.size {
      assert Served(c, Push, s.pop, u);
    }
    if live != {} {
      var m := LargestMember(live);
      var lo := if m + 1 >= c.size then m + 1 - c.size else 0;
      assert live <= Interval(lo, c.size);
      SubsetIsSmaller(live, Interval(lo, c.size));
    }
  }

  lemma {:induction false} SubsetIsSmaller(x: set<nat>, y: set<nat>)
    requires x <= y
    ensures |x| <= |y|
    decreases |x|
  {
    if x != {} {
      var e :| e in x;
      SubsetIsSmaller(x - {e}, y - {e});
    }
  }
}
