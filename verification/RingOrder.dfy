/** The order of tickets is the order of calls in time, so values leave the ring in the order in which they
    were pushed. */
module RingOrder {
  import opened Ring
  import opened RingCrash
  import opened RingResults
  import opened RingSafety

  /** In a step a side's counter does not go down, and a thread comes by a ticket only by drawing it from
      there. */
  predicate TicketStep(side: Side, side': Side, j: nat) {
    && side.next <= side'.next
    && forall t: nat :: KeepsTicket(side', j, t) ==> KeepsTicket(side, j, t) || side.next <= t
  }

  lemma StepDraws(c: Config, s: State, s': State, r: Role, j: nat)
    requires CrashInv(c, s) && Step(c, s, s')
    ensures TicketStep(SideOf(s, r), SideOf(s', r), j)
  {
    var r', i: nat, v :| StepBy(c, s, r', i, v, s');
    StepKeepChange(c, s, r', i, v);
    LastIsIrrelevant(SideOf(s, Flip(r')), SideOf(s', Flip(r')).last);
    if r == r' {
      assert KeepChange(SideOf(s, r), SideOf(s', r), i);
    } else {
      assert r == Flip(r');
    }
  }

  lemma StepOfRunDraws(c: Config, run: seq<State>, n: nat, r: Role, j: nat)
    requires Run(c, run) && 0 < n < |run|
    ensures TicketStep(SideOf(run[n - 1], r), SideOf(run[n], r), j)
  {
    RunsKeepCrashInv(c, run, n - 1);
    assert StepAt(c, run, n);
    StepDraws(c, run[n - 1], run[n], r, j);
  }

  lemma {:induction false} CounterGrows(c: Config, run: seq<State>, n: nat, m: nat, r: Role)
    requires Run(c, run) && n <= m < |run|
    ensures SideOf(run[n], r).next <= SideOf(run[m], r).next
    decreases m
  {
    if n < m {
      CounterGrows(c, run, n, m - 1, r);
      StepOfRunDraws(c, run, m, r, 0);
    }
  }

  /** A ticket kept later, by a thread that kept none before, is not below the counter then. */
  lemma {:induction false} LaterDrawIsHigher(c: Config, run: seq<State>, n: nat, m: nat, r: Role, j: nat, t: nat)
    requires Run(c, run) && n <= m < |run|
    requires forall u: nat :: !KeepsTicket(SideOf(run[n], r), j, u)
    requires KeepsTicket(SideOf(run[m], r), j, t)
    ensures SideOf(run[n], r).next <= t
    decreases m
  {
    if n < m {
      StepOfRunDraws(c, run, m, r, j);
      if KeepsTicket(SideOf(run[m - 1], r), j, t) {
        LaterDrawIsHigher(c, run, n, m - 1, r, j, t);
      } else {
        CounterGrows(c, run, n, m - 1, r);
      }
    }
  }

  /** The call by which thread i keeps ticket t in state n has drawn it before thread j, idle in state k, is
      called; from then to state m thread j has drawn ticket u. */
  ghost predicate DrawnBefore(run: seq<State>, r: Role, i: nat, t: nat, j: nat, u: nat, n: nat, k: nat, m: nat) {
    && n <= k <= m < |run|
    && KeepsTicket(SideOf(run[n], r), i, t)
    && j < |SideOf(run[k], r).actors| && SideOf(run[k], r).actors[j].pc == Idle
    && KeepsTicket(SideOf(run[m], r), j, u)
  }

  /** The order in time: if one call of a side has returned, or just drawn its ticket, before another is
      called, its ticket is the lower one. */
  lemma EarlierCallLowerTicket(c: Config, run: seq<State>, r: Role, i: nat, t: nat, j: nat, u: nat,
                              n: nat, k: nat, m: nat)
    requires Run(c, run) && DrawnBefore(run, r, i, t, j, u, n, k, m)
    ensures t < u
  {
    RunsKeepCrashInv(c, run, n);
    CounterGrows(c, run, n, k, r);
    LaterDrawIsHigher(c, run, k, m, r, j, u);
  }

  /** First in, first out: if a push with ticket t has returned before a push with ticket u is called, then no
      pop that gets the value of u has returned before the pop that gets the value of t is called. */
  lemma FirstInFirstOut(c: Config, run: seq<State>, i: nat, j: nat, t: nat, u: nat, n: nat, k: nat, m: nat,
                        x: nat, y: nat, n': nat, k': nat, m': nat)
    requires Run(c, run) && DrawnBefore(run, Push, i, t, j, u, n, k, m)
    ensures !DrawnBefore(run, Pop, x, u, y, t, n', k', m')
  {
    EarlierCallLowerTicket(c, run, Push, i, t, j, u, n, k, m);
    if DrawnBefore(run, Pop, x, u, y, t, n', k', m') {
      EarlierCallLowerTicket(c, run, Pop, x, u, y, t, n', k', m');
    }
  }

  // Announcements.

  /** What thread i has read of the counter, or announced before drawing, is at least lo. */
  predicate HasReadFrom(side: Side, i: nat, lo: nat) {
    && i < |side.actors| && i < |side.ann|
    && (side.actors[i].pc == Announce ==> lo <= side.actors[i].low)
    && (side.actors[i].pc == Draw || side.actors[i].pc == Publish ==> side.ann[i].At? && lo <= side.ann[i].n)
  }

  lemma OwnStepReads(c: Config, s: State, r: Role, i: nat, v: seq<int>, s': State, lo: nat)
    requires StepBy(c, s, r, i, v, s') && HasReadFrom(SideOf(s, r), i, lo) && lo <= SideOf(s, r).next
    ensures HasReadFrom(SideOf(s', r), i, lo)
  {
    if SideOf(s, r).actors[i].pc == Copy {
      NextCopies(c, s, r, i, v);
      CopiesOn(c, s, r, i, v, s');
    } else {
      NextMoves(c, s, r, i, v);
    }
  }

  lemma CopiesOn(c: Config, s: State, r: Role, i: nat, v: seq<int>, s': State)
    requires StepBy(c, s, r, i, v, s') && SideOf(s, r).actors[i].pc == Copy
    ensures i < |SideOf(s', r).actors| && i < |SideOf(s', r).ann|
    ensures SideOf(s', r).actors[i].pc == Copy || SideOf(s', r).actors[i].pc == Save
  {}

  lemma OtherStepReads(c: Config, s: State, r: Role, j: nat, v: seq<int>, s': State, r': Role, i: nat, lo: nat)
    requires StepBy(c, s, r, j, v, s') && HasReadFrom(SideOf(s, r'), i, lo) && (r != r' || i != j)
    ensures HasReadFrom(SideOf(s', r'), i, lo)
  {
    StepLeavesOthers(c, s, r, j, v, s', r', i);
    OtherKeepsAnnouncing(c, s, r, j, v, s', r', i);
  }

  lemma OtherKeepsAnnouncing(c: Config, s: State, r: Role, j: nat, v: seq<int>, s': State, r': Role, i: nat)
    requires StepBy(c, s, r, j, v, s') && i < |SideOf(s, r').ann| && (r != r' || i != j)
    ensures i < |SideOf(s', r').ann| && SideOf(s', r').ann[i] == SideOf(s, r').ann[i]
  {
    if SideOf(s, r).actors[j].pc != Copy {
      NextMoves(c, s, r, j, v);
    }
  }

  lemma StepReads(c: Config, s: State, s': State, r: Role, i: nat, lo: nat)
    requires Step(c, s, s') && HasReadFrom(SideOf(s, r), i, lo) && lo <= SideOf(s, r).next
    ensures HasReadFrom(SideOf(s', r), i, lo)
  {
    var r', j: nat, v :| StepBy(c, s, r', j, v, s');
    if r' == r && j == i {
      OwnStepReads(c, s, r, i, v, s', lo);
    } else {
      OtherStepReads(c, s, r', j, v, s', r, i, lo);
    }
  }

  lemma {:induction false} CallReadsFrom(c: Config, run: seq<State>, r: Role, i: nat, k: nat, n: nat)
    requires Run(c, run) && k <= n < |run| && HasReadFrom(SideOf(run[k], r), i, SideOf(run[k], r).next)
    ensures HasReadFrom(SideOf(run[n], r), i, SideOf(run[k], r).next)
    decreases n
  {
    if k < n {
      CallReadsFrom(c, run, r, i, k, n - 1);
      CounterGrows(c, run, k, n - 1, r);
      assert StepAt(c, run, n);
      StepReads(c, run[n - 1], run[n], r, i, SideOf(run[k], r).next);
    }
  }

  /** A position announced before the ticket is drawn is a value that the counter has had since the call, not
      above its present one. So an announcement can only be stale by the tickets drawn meanwhile. */
  lemma StaleIsRecent(c: Config, run: seq<State>, r: Role, i: nat, k: nat, n: nat, v: seq<int>, m: nat)
    requires Run(c, run) && CallFrom(c, run, r, i, k, n, v) && StaleAt(SideOf(run[n], r), i, m)
    ensures SideOf(run[k], r).next <= m <= SideOf(run[n], r).next
  {
    RunsKeepCrashInv(c, run, n);
    CallReadsFrom(c, run, r, i, k, n);
    assert AnnouncedOk(SideOf(run[n], r), SideOf(run[n], r).actors[i], SideOf(run[n], r).ann[i]);
  }
}
