/** Pushes survive crashes: the value of a push that has returned is in the queue after recovery, unless it was
    popped before, if the thread has announced nothing since. */
module RingDurability {
  import opened Masking
  import opened Ring
  import opened RingSafety
  import opened RingResults
  import opened RingCrash
  import opened RingRecovery
  import opened RingSurvivors
  import opened RingQueue

  // What a push leaves behind.

  /** A push that has saved its position. */
  predicate HasSaved(side: Side, i: nat) {
    i < |side.actors| && i < |side.pos| && (side.actors[i].pc == Clear ==> side.pos[i] == At(side.actors[i].ticket))
  }

  lemma OwnStepSaves(c: Config, s: State, i: nat, v: seq<int>, s': State)
    requires StepBy(c, s, Push, i, v, s') && HasSaved(s.push, i)
    ensures HasSaved(s'.push, i)
    ensures s.push.actors[i].pc != Save ==> s'.push.pos[i] == s.push.pos[i]
  {}

  lemma OtherStepSaves(c: Config, s: State, r: Role, j: nat, v: seq<int>, s': State, i: nat)
    requires StepBy(c, s, r, j, v, s') && i < |s.push.pos| && (r != Push || i != j)
    ensures i < |s'.push.pos| && s'.push.pos[i] == s.push.pos[i]
  {}

  lemma StepSaves(c: Config, s: State, s': State, i: nat)
    requires Step(c, s, s') && HasSaved(s.push, i)
    ensures HasSaved(s'.push, i)
    ensures s.push.actors[i].pc != Save ==> s'.push.pos[i] == s.push.pos[i]
  {
    var r, j: nat, v :| StepBy(c, s, r, j, v, s');
    if r == Push && j == i {
      OwnStepSaves(c, s, i, v, s');
    } else {
      OtherStepSaves(c, s, r, j, v, s', i);
      StepLeavesOthers(c, s, r, j, v, s', Push, i);
    }
  }

  lemma {:induction false} RunsSave(c: Config, run: seq<State>, n: nat, i: nat)
    requires Run(c, run) && n < |run| && i < c.producers
    ensures HasSaved(run[n].push, i)
  {
    if n > 0 {
      RunsSave(c, run, n - 1, i);
      assert StepAt(c, run, n);
      StepSaves(c, run[n - 1], run[n], i);
    }
  }

  /** Producer i has nothing announced: it is idle, or at the beginning of a push. */
  predicate AtRest(s: State, i: nat) {
    i < |s.push.actors| && s.push.actors[i].pc in {Idle, Read, Announce}
  }

  /** Producer i, called with v after state k, has drawn ticket t and returns in the step from state m; up to
      state n it has announced nothing since. */
  ghost predicate Returned(c: Config, run: seq<State>, i: nat, k: nat, m: nat, n: nat, v: seq<int>, t: nat) {
    && m < n < |run| && CallFrom(c, run, Push, i, k, m, v)
    && i < |run[m].push.actors| && run[m].push.actors[i].pc == Clear && run[m].push.actors[i].ticket == t
    && (forall j: nat {:trigger AtRest(run[j], i)} :: m < j <= n ==> AtRest(run[j], i))
  }

  lemma {:induction false} PositionStays(c: Config, run: seq<State>, i: nat, m: nat, n: nat)
    requires Run(c, run) && m <= n < |run| && i < c.producers && i < |run[m].push.pos|
    requires i < |run[m].push.actors| && run[m].push.actors[i].pc == Clear
    requires forall j: nat {:trigger AtRest(run[j], i)} :: m < j <= n ==> AtRest(run[j], i)
    ensures i < |run[n].push.pos| && run[n].push.pos[i] == run[m].push.pos[i]
    decreases n
  {
    if m < n {
      PositionStays(c, run, i, m, n - 1);
      assert StepAt(c, run, n) && (n - 1 > m ==> AtRest(run[n - 1], i));
      RunsSave(c, run, n - 1, i);
      StepSaves(c, run[n - 1], run[n], i);
    }
  }

  /** So its ticket is saved, its value recorded, and the slot holds the value until the ticket is popped. */
  lemma ReturnedIsSaved(c: Config, run: seq<State>, i: nat, k: nat, m: nat, n: nat, v: seq<int>, t: nat)
    requires Run(c, run) && Returned(c, run, i, k, m, n, v, t)
    ensures var s := run[n];
            && Shape(c, s) && i < c.producers && s.push.pos[i] == At(t) && s.push.ann[i] == Max
            && t in s.push.done && t < s.push.next
            && (t !in s.popped ==> t !in s.pop.done && s.slots[t % c.size] == v)
  {
    var s := run[n];
    RunsKeepCrashInv(c, run, m);
    RunsKeepCrashInv(c, run, n);
    RunsSave(c, run, m, i);
    PositionStays(c, run, i, m, n);
    CallPushesItsArgument(c, run, i, k, m, v);
    assert KeepsTicket(run[m].push, i, t);
    HistoryOnlyGrows(c, run, m, n);
    assert AtRest(run[n], i) && AnnouncedOk(s.push, s.push.actors[i], s.push.ann[i]);
    assert Saves(s.push, i, t);
    assert t in s.pushed && s.pushed[t] == v;
    if t !in s.popped {
      assert Stored(c, s, t);
    }
  }

  // Where it stands when the ring crashes.

  /** Pops beyond the recomputed head need a stale announcement. */
  lemma PoppedAboveIsStale(c: Config, s: State, t: nat)
    requires CrashInv(c, s) && t in s.pop.done && LowestOf(s.push) <= t
    ensures exists k: nat :: StaleAt(s.push, k, LowestOf(s.push))
  {
    assert WayIsFree(c, Pop, s.push, t) && Released(s.push, LowestOf(s.push));
    ReleasedIsStale(s.push);
  }

  /** With nothing stale, a saved ticket is not the recomputed head, and above it nothing has been popped. */
  lemma SavedIsPlaced(c: Config, s: State, i: nat, t: nat)
    requires CrashInv(c, s) && NothingStale(s.push) && AtRest(s, i) && Saves(s.push, i, t) && t < s.push.next
    ensures t != LowestOf(s.push)
    ensures LowestOf(s.push) < t ==> t !in s.pop.done
    ensures t < LowestOf(s.pop) ==> t in s.pop.done
  {
    LowestIs(s.push);
    if LowestOf(s.push) < t && t in s.pop.done {
      PoppedAboveIsStale(c, s, t);
    }
    if t < LowestOf(s.pop) {
      BelowIsDone(s.pop, t);
    }
  }

  /** The arrays and counters hold what the ring held in state s. */
  ghost predicate Holds(q: Queue, c: Config, s: State)
    reads q, q.slots, q.heads, q.tails, q.posPush, q.posPop
  {
    && q.Valid() && q.producers == c.producers && q.consumers == c.consumers && q.size == c.size
    && q.slots[..] == s.slots && q.head == s.push.next && q.tail == s.pop.next
    && q.heads[..q.producers] == s.push.ann && q.posPush[..q.producers] == s.push.pos
    && q.tails[..q.consumers] == s.pop.ann && q.posPop[..q.consumers] == s.pop.pos
  }

  lemma PushesBelow31(side: Side)
    requires TicketsOk(side) && SavedOk(side) && side.next < 0x8000_0000
    ensures |side.ann| == |side.pos| && Below31(LowestOf(side), side.ann, side.pos)
  {
    forall i | 0 <= i < |side.pos| && side.pos[i].At? ensures side.pos[i].n < side.next {
      assert Saves(side, i, side.pos[i].n);
    }
  }

  lemma PopsInOrder(size: nat, side: Side, last: nat)
    requires TicketsOk(side) && SavedOk(side) && LowestOf(side) <= last <= LowestOf(side) + size && last < 0x8000_0000
    ensures |side.ann| == |side.pos| && PopsOk(size, LowestOf(side), last, side.ann, side.pos)
  {
    forall i, k | 0 <= i < k < |side.pos| && side.pos[i].At? ensures side.pos[i] != side.pos[k] {
      assert Saves(side, i, side.pos[i].n);
      assert !Saves(side, k, side.pos[i].n);
    }
  }

  lemma StateIsInOrder(c: Config, run: seq<State>, n: nat)
    requires Run(c, run) && n < |run| && NothingStale(run[n].push) && NothingStale(run[n].pop)
    requires run[n].push.next < 0x8000_0000
    ensures var push, pop := run[n].push, run[n].pop;
            && |push.ann| == |push.pos| && |pop.ann| == |pop.pos|
            && Recoverable(c.size, LowestOf(push), LowestOf(pop), push.ann, push.pos)
            && Below31(LowestOf(push), push.ann, push.pos)
            && PopsOk(c.size, LowestOf(pop), LowestOf(push), pop.ann, pop.pos)
  {
    SteadyCrashIsRecoverable(c, run, n);
    RunsKeepCrashInv(c, run, n);
    PushesBelow31(run[n].push);
    PopsInOrder(c.size, run[n].pop, LowestOf(run[n].push));
  }

  lemma CrashIsInOrder(q: Queue, c: Config, run: seq<State>, n: nat)
    requires Run(c, run) && n < |run| && Holds(q, c, run[n])
    requires NothingStale(run[n].push) && NothingStale(run[n].pop)
    requires run[n].push.next < 0x8000_0000 && c.size <= 0x1_0000_0000
    ensures q.OldLast() == LowestOf(run[n].push) && q.OldTail() == LowestOf(run[n].pop)
    ensures q.LeftInOrder()
  {
    StateIsInOrder(c, run, n);
  }

  /** There are pops to move. */
  ghost predicate SomePopMoves(s: State) {
    exists j :: 0 <= j < |s.pop.ann| && j < |s.pop.pos| && s.pop.ann[j] == Max && s.pop.pos[j].At?
                && LowestOf(s.pop) < s.pop.pos[j].n < LowestOf(s.push)
  }

  lemma NoPopMoves(c: Config, s: State)
    requires Shape(c, s) && !SomePopMoves(s)
    ensures SavedBetween(s.pop.ann, s.pop.pos, LowestOf(s.pop), At(LowestOf(s.push))) == {}
  {}

  /** The queue holds v between the two positions. */
  ghost predicate Contains(slots: seq<seq<int>>, tail: nat, head: nat, v: seq<int>) {
    |slots| > 0 && exists u: nat :: tail <= u < head && slots[u % |slots|] == v
  }

  lemma AboveSurvives(c: Config, s: State, i: nat, now: seq<seq<int>>, saved: seq<Pos>, tail: nat, head: nat,
                      t: nat, v: seq<int>)
    requires Shape(c, s) && i < c.producers == |saved| && |now| == c.size > 0
    requires s.push.ann[i] == Max && s.push.pos[i] == At(t) && LowestOf(s.push) < t && s.slots[t % c.size] == v
    requires tail <= LowestOf(s.push)
    requires PushOutcome(s.slots, c.size, now, saved, s.push.ann, s.push.pos, LowestOf(s.push), head, i)
    ensures Contains(now, tail, head, v)
  {
    var u := LowestOf(s.push) + |SavedBetween(s.push.ann, s.push.pos, LowestOf(s.push), s.push.pos[i])|;
    assert now[u % |now|] == v;
  }

  lemma BelowSurvives(c: Config, s: State, now: seq<seq<int>>, tail: nat, head: nat, t: nat, v: seq<int>)
    requires Shape(c, s) && |now| == c.size > 0 && !SomePopMoves(s) && s.slots[t % c.size] == v
    requires tail <= t < LowestOf(s.push) <= head
    requires SlotOutcome(s.slots, c.size, now, s.pop.ann, s.pop.pos, LowestOf(s.pop), LowestOf(s.push), t)
    ensures Contains(now, tail, head, v)
  {
    assert now[t % |now|] == v;
  }

  lemma ReturnedSurvives(c: Config, run: seq<State>, i: nat, k: nat, m: nat, n: nat, v: seq<int>, t: nat,
                         now: seq<seq<int>>, saved: seq<Pos>, tail: nat, head: nat)
    requires Run(c, run) && Returned(c, run, i, k, m, n, v, t) && NothingStale(run[n].push)
    requires Shape(c, run[n]) && |now| == c.size > 0 && |saved| == c.producers
    requires tail <= LowestOf(run[n].push) <= head && (!SomePopMoves(run[n]) ==> tail == LowestOf(run[n].pop))
    requires forall j: nat :: j < c.producers ==>
               PushOutcome(run[n].slots, c.size, now, saved, run[n].push.ann, run[n].push.pos,
                           LowestOf(run[n].push), head, j)
    requires forall u: nat :: LowestOf(run[n].pop) <= u < LowestOf(run[n].push) ==>
               SlotOutcome(run[n].slots, c.size, now, run[n].pop.ann, run[n].pop.pos,
                           LowestOf(run[n].pop), LowestOf(run[n].push), u)
    ensures t in run[n].popped || Contains(now, tail, head, v) || (t < LowestOf(run[n].push) && SomePopMoves(run[n]))
  {
    ReturnedIsSaved(c, run, i, k, m, n, v, t);
    RunsKeepCrashInv(c, run, n);
    assert AtRest(run[n], i);
    SavedIsPlaced(c, run[n], i, t);
    if t !in run[n].popped {
      if LowestOf(run[n].push) < t {
        AboveSurvives(c, run[n], i, now, saved, tail, head, t, v);
      } else if !SomePopMoves(run[n]) {
        BelowSurvives(c, run[n], now, tail, head, t, v);
      }
    }
  }

  /** What recovery does with state s, by RecoverSurvivors. */
  ghost predicate Recovered(c: Config, s: State, now: seq<seq<int>>, saved: seq<Pos>, tail: nat, head: nat)
    requires Shape(c, s)
  {
    var (last, first) := (LowestOf(s.push), LowestOf(s.pop));
    && |now| == c.size > 0 && |saved| == c.producers
    && head == last + |SavedBetween(s.push.ann, s.push.pos, last, Max)|
    && tail == first + |SavedBetween(s.pop.ann, s.pop.pos, first, At(last))| <= last
    && (forall j: nat :: j < c.producers ==> PushOutcome(s.slots, c.size, now, saved, s.push.ann, s.push.pos, last, head, j))
    && (forall u: nat :: first <= u < last ==> SlotOutcome(s.slots, c.size, now, s.pop.ann, s.pop.pos, first, last, u))
  }

  ghost predicate Survives(c: Config, run: seq<State>, n: nat, now: seq<seq<int>>, tail: nat, head: nat) {
    n < |run| &&
    forall i: nat, k: nat, m: nat, v: seq<int>, t: nat :: Returned(c, run, i, k, m, n, v, t) ==>
      || t in run[n].popped
      || Contains(now, tail, head, v)
      || (t < LowestOf(run[n].push) && SomePopMoves(run[n]))
  }

  lemma AllSurvive(c: Config, run: seq<State>, n: nat, now: seq<seq<int>>, saved: seq<Pos>, tail: nat, head: nat)
    requires Run(c, run) && n < |run| && NothingStale(run[n].push)
    requires Shape(c, run[n]) && Recovered(c, run[n], now, saved, tail, head)
    ensures Survives(c, run, n, now, tail, head)
  {
    if !SomePopMoves(run[n]) {
      NoPopMoves(c, run[n]);
    }
    forall i: nat, k: nat, m: nat, v: seq<int>, t: nat | Returned(c, run, i, k, m, n, v, t)
      ensures t in run[n].popped || Contains(now, tail, head, v) || (t < LowestOf(run[n].push) && SomePopMoves(run[n]))
    {
      ReturnedSurvives(c, run, i, k, m, n, v, t, now, saved, tail, head);
    }
  }

  /** Recovery after a crash in state n of a run, in which no announcement is stale and tickets are below 2^31:
      the value of each push that has returned, from a thread that has announced nothing since, is in the queue,
      or was popped before the crash. Only if there are pops to move and the push is below the recomputed head
      does the code not promise that (RingRecovery.PopHalfIsRightIff). */
  method RecoverAfterCrash(q: Queue, ghost c: Config, ghost run: seq<State>, ghost n: nat)
    requires Run(c, run) && n < |run| && Holds(q, c, run[n])
    requires NothingStale(run[n].push) && NothingStale(run[n].pop)
    requires run[n].push.next < 0x8000_0000 && c.size <= 0x1_0000_0000
    modifies q, q.slots, q.heads, q.tails, q.posPush, q.posPop
    ensures q.Valid() && Survives(c, run, n, q.slots[..], q.tail, q.head)
  {
    RunsKeepInv(c, run, n);
    CrashIsInOrder(q, c, run, n);
    q.RecoverSurvivors();
    AllSurvive(c, run, n, q.slots[..], q.posPush[..q.producers], q.tail, q.head);
  }
}
