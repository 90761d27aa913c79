/** The ring-buffer queue as a state machine. Producers and consumers interleave arbitrarily; each step
    makes at most one access to shared memory, and a slot is copied one word at a time.

    Pushing and popping run the same protocol on the two sides of the queue: draw a ticket from the own
    counter, announce it, wait until the other side's last finished ticket allows it, copy, withdraw
    the announcement. Only the distance to the other side differs, see `Distance`. */
module Ring {
  import opened Masking

  /** Number of producers and consumers, number of slots, words per slot. */
  datatype Config = Config(producers: nat, consumers: nat, size: nat, words: nat)

  ghost predicate ValidConfig(c: Config) {
    IsPow2(c.size) && c.words > 0
  }

  /** An announced position; `Max` is the all-ones word that announces nothing. */
  datatype Pos = At(n: nat) | Max

  datatype Role = Push | Pop

  /** Where a thread is inside push or pop. */
  datatype PC = Idle | Read | Announce | Draw | Publish | Test | ScanInit | Scan | Retest | Copy | Save | Clear

  /** A thread's locals: `buf` is the value pushed or the words popped so far, `low` the counter value
      read first, `min` and `j` belong to the minimum scan, `k` counts the words copied. */
  datatype Actor = Actor(pc: PC, buf: seq<int>, low: nat, ticket: nat, min: nat, j: nat, k: nat)

  /** One side of the queue. For pushes: `next` is head_, `last` is last_head_, `ann` holds each
      thread's announced head, `pos` its pos_push. For pops: tail_, last_tail_, tail, pos_pop.
      `done` is a history set: the tickets whose words have all been copied. */
  datatype Side = Side(next: nat, last: nat, ann: seq<Pos>, pos: seq<Pos>, actors: seq<Actor>, done: set<nat>)

  /** `pushed` and `popped` are history: the value pushed with, and popped with, each ticket. */
  datatype State = State(push: Side, pop: Side, slots: seq<seq<int>>,
                         pushed: map<nat, seq<int>>, popped: map<nat, seq<int>>)

  function Flip(r: Role): Role { if r.Push? then Pop else Push }

  function SideOf(s: State, r: Role): Side { if r.Push? then s.push else s.pop }

  function WithSide(s: State, r: Role, side: Side): State {
    if r.Push? then s.(push := side) else s.(pop := side)
  }

  /** A ticket may be served once it is below the other side's last position plus this distance. */
  function Distance(c: Config, r: Role): nat { if r.Push? then c.size else 0 }

  /** The slot of a ticket: `t & Q_MASK`. */
  function SlotOf(c: Config, t: nat): (x: nat)
    requires ValidConfig(c)
    ensures x < c.size && x == t % c.size
  {
    SlotIsMod(t, c.size);
    BitAnd(t, c.size - 1)
  }

  function MinPos(m: nat, p: Pos): nat {
    if p.At? && p.n < m then p.n else m
  }

  ghost predicate SideShape(side: Side, n: nat) {
    |side.ann| == |side.pos| == |side.actors| == n
  }

  ghost predicate ActorShape(c: Config, r: Role, a: Actor) {
    && (a.pc == Copy ==> a.k < c.words)
    && (r.Push? && a.pc != Idle ==> |a.buf| == c.words)
  }

  ghost predicate Shape(c: Config, s: State) {
    && ValidConfig(c)
    && SideShape(s.push, c.producers)
    && SideShape(s.pop, c.consumers)
    && |s.slots| == c.size
    && (forall x :: 0 <= x < c.size ==> |s.slots[x]| == c.words)
    && (forall i :: 0 <= i < c.producers ==> ActorShape(c, Push, s.push.actors[i]))
    && (forall i :: 0 <= i < c.consumers ==> ActorShape(c, Pop, s.pop.actors[i]))
  }

  function SetActor(side: Side, i: nat, a: Actor): Side
    requires i < |side.actors|
  {
    side.(actors := side.actors[i := a])
  }

  /** The transfer of one word between the caller's buffer and the slot of its ticket. The last word
      completes the ticket. */
  function CopyWord(c: Config, s: State, r: Role, i: nat): State
    requires Shape(c, s) && i < |SideOf(s, r).actors| && SideOf(s, r).actors[i].pc == Copy
  {
    var me := SideOf(s, r);
    var a := me.actors[i];
    var x := SlotOf(c, a.ticket);
    var last := a.k + 1 == c.words;
    var pc := if last then Save else Copy;
    if r.Push? then
      var slots := s.slots[x := s.slots[x][a.k := a.buf[a.k]]];
      var side := SetActor(me, i, a.(pc := pc, k := a.k + 1));
      s.(slots := slots, push := if last then side.(done := side.done + {a.ticket}) else side)
    else
      var buf := a.buf + [s.slots[x][a.k]];
      var side := SetActor(me, i, a.(pc := pc, k := a.k + 1, buf := buf));
      s.(pop := if last then side.(done := side.done + {a.ticket}) else side,
         popped := if last then s.popped[a.ticket := buf] else s.popped)
  }

  /** What a step of thread i, outside its copy phase, does to its own side. `v` is the argument if the
      step is a call of push. */
  function MoveMine(c: Config, r: Role, me: Side, other: Side, i: nat, v: seq<int>): Side
    requires i < |me.actors| == |me.ann| == |me.pos|
  {
    var a := me.actors[i];
    match a.pc
    case Idle =>
      SetActor(me, i, a.(pc := Read, buf := if r.Push? then v else []))
    case Read =>
      SetActor(me, i, a.(pc := Announce, low := me.next))
    case Announce =>
      SetActor(me, i, a.(pc := Draw)).(ann := me.ann[i := At(a.low)])
    case Draw =>
      SetActor(me, i, a.(pc := Publish, ticket := me.next)).(next := me.next + 1)
    case Publish =>
      SetActor(me, i, a.(pc := Test)).(ann := me.ann[i := At(a.ticket)])
    case Test =>
      var pc := if a.ticket >= other.last + Distance(c, r) then ScanInit else Copy;
      SetActor(me, i, a.(pc := pc, k := 0))
    case ScanInit =>
      SetActor(me, i, a.(pc := Scan, min := other.next, j := 0))
    case Scan =>
      if a.j < |other.ann| then
        SetActor(me, i, a.(min := MinPos(a.min, other.ann[a.j]), j := a.j + 1))
      else
        SetActor(me, i, a.(pc := Retest))
    case Retest =>
      var pc := if a.ticket < other.last + Distance(c, r) then Copy else Test;
      SetActor(me, i, a.(pc := pc, k := 0))
    case Copy =>
      me
    case Save =>
      SetActor(me, i, a.(pc := Clear)).(pos := me.pos[i := At(a.ticket)])
    case Clear =>
      SetActor(me, i, a.(pc := Idle)).(ann := me.ann[i := Max])
  }

  /** The only write to the other side: a completed scan stores its minimum. */
  function MoveOther(a: Actor, other: Side): Side {
    if a.pc == Scan && a.j >= |other.ann| then other.(last := a.min) else other
  }

  /** One step of thread i of side r. */
  function Next(c: Config, s: State, r: Role, i: nat, v: seq<int>): State
    requires Shape(c, s) && i < |SideOf(s, r).actors|
  {
    var me, other := SideOf(s, r), SideOf(s, Flip(r));
    var a := me.actors[i];
    if a.pc == Copy then
      CopyWord(c, s, r, i)
    else
      var s' := WithSide(WithSide(s, r, MoveMine(c, r, me, other, i, v)), Flip(r), MoveOther(a, other));
      if r.Push? && a.pc == Draw then s'.(pushed := s.pushed[me.next := a.buf]) else s'
  }

  ghost predicate Step(c: Config, s: State, s': State) {
    exists r: Role, i: nat, v: seq<int> :: StepBy(c, s, r, i, v, s')
  }

  ghost predicate StepBy(c: Config, s: State, r: Role, i: nat, v: seq<int>, s': State) {
    && Shape(c, s)
    && i < |SideOf(s, r).actors|
    && (r.Push? ==> |v| == c.words)
    && s' == Next(c, s, r, i, v)
  }

  function FreshSide(n: nat): Side {
    Side(0, 0, seq(n, _ => Max), seq(n, _ => Max), seq(n, _ => Actor(Idle, [], 0, 0, 0, 0, 0)), {})
  }

  /** The state the constructor leaves behind; the slots hold arbitrary words. */
  ghost predicate Init(c: Config, s: State) {
    && Shape(c, s)
    && s.push == FreshSide(c.producers)
    && s.pop == FreshSide(c.consumers)
    && s.pushed == map[] && s.popped == map[]
  }

  ghost predicate Run(c: Config, run: seq<State>) {
    && |run| > 0
    && Init(c, run[0])
    && (forall n :: 0 < n < |run| ==> StepAt(c, run, n))
  }

  ghost predicate StepAt(c: Config, run: seq<State>, n: nat)
    requires 0 < n < |run|
  {
    Step(c, run[n - 1], run[n])
  }
}
