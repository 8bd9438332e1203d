/** The per-zone replica engine (arena-replica): tick-tagged inputs, applied in canonical order. The
    world is abstract: what an input and a tick do to it is a parameter. */
module Replica {
  import opened Protocol
  import opened Sorting
  import opened Wrappers

  const INPUT_DELAY: Tick := 8
  const MAX_CATCHUP: Tick := 16

  datatype Frame = Frame(seqNo: nat, clientTick: Tick, buttons: bv16, yaw: real, pitch: real, weaponSlot: nat)

  datatype Input =
    | Join(teamPref: Option<Team>, name: string)
    | Intent(frame: Frame)
    | Leave
    | ZoneSwitch(x: int, z: int)

  datatype Entry = Entry(author: NodeId, seqNo: nat, input: Input)

  datatype Tagged = Tagged(tick: Tick, entry: Entry)

  /** What the engine asks of the simulated world. */
  datatype Sim<!W> = Sim(
    playerEntity: (W, NodeId) -> Option<EntityId>,
    spawnPlayer: (W, NodeId, Team) -> W,
    setInput: (W, EntityId, Frame) -> W,
    removeEntity: (W, EntityId) -> W,
    tick: W -> W)

  /** One participant's intent: joining twice changes nothing, intent without a body is
      dropped, and crossing zones is not the simulation's business. */
  function ApplyInput<W>(sim: Sim<W>, w: W, author: NodeId, input: Input): W {
    var body := sim.playerEntity(w, author);
    match input
    case Join(pref, _) =>
      if body.Some? then w else sim.spawnPlayer(w, author, if pref.Some? then pref.value else Red)
    case Intent(frame) => if body.Some? then sim.setInput(w, body.value, frame) else w
    case Leave => if body.Some? then sim.removeEntity(w, body.value) else w
    case ZoneSwitch(_, _) => w
  }

  predicate EntryLeq(a: Entry, b: Entry) {
    if a.author == b.author then a.seqNo <= b.seqNo else LexLeq(a.author, b.author)
  }

  lemma EntryOrder()
    ensures TotalPreorder<Entry>(EntryLeq)
    ensures forall a: Entry, b: Entry :: EntryLeq(a, b) && EntryLeq(b, a) <==>
            a.author == b.author && a.seqNo == b.seqNo
  {
    LexOrder();
  }

  function ApplyAll<W>(sim: Sim<W>, w: W, batch: seq<Entry>): W {
    if batch == [] then w
    else
      var n := |batch| - 1;
      ApplyInput(sim, ApplyAll(sim, w, batch[..n]), batch[n].author, batch[n].input)
  }

  /** The order a tick's inputs are applied in. */
  function Canonical(batch: seq<Entry>): seq<Entry> {
    SortBy(batch, EntryLeq)
  }

  /** One simulated tick: its inputs by (author, seq), then the step. */
  function TickWorld<W>(sim: Sim<W>, w: W, batch: seq<Entry>): W {
    sim.tick(ApplyAll(sim, w, Canonical(batch)))
  }

  // ---- the engine ----

  datatype State<W> = State(world: W, now: Tick, scheduled: map<Tick, seq<Entry>>)

  function BatchAt<W>(s: State<W>, t: Tick): seq<Entry> {
    if t in s.scheduled then s.scheduled[t] else []
  }

  function ScheduleIn<W>(s: State<W>, t: Tagged): State<W> {
    if t.tick < s.now then s else s.(scheduled := s.scheduled[t.tick := BatchAt(s, t.tick) + [t.entry]])
  }

  function TickOnce<W>(sim: Sim<W>, s: State<W>): State<W> {
    State(TickWorld(sim, s.world, BatchAt(s, s.now)), s.now + 1, s.scheduled - {s.now})
  }

  function TickUntil<W>(sim: Sim<W>, s: State<W>, target: Tick): State<W>
    decreases target - s.now
  {
    if s.now >= target then s else TickUntil(sim, TickOnce(sim, s), target)
  }

  /** A gap longer than the catch-up budget is skipped, inputs and all. */
  function CatchUp<W>(s: State<W>, target: Tick): State<W> {
    if target - s.now > MAX_CATCHUP then
      var floor := target - MAX_CATCHUP;
      State(s.world, floor, map t | t in s.scheduled && t >= floor :: s.scheduled[t])
    else s
  }

  function AdvanceIn<W>(sim: Sim<W>, s: State<W>, target: Tick): State<W> {
    TickUntil(sim, CatchUp(s, target), target)
  }

  class Engine<!W> {
    const sim: Sim<W>
    var world: W
    var now: Tick
    var scheduled: map<Tick, seq<Entry>>

    constructor (sim: Sim<W>, world: W, now: Tick)
      ensures this.sim == sim && Abs() == State(world, now, map[])
    {
      this.sim, this.world, this.now, scheduled := sim, world, now, map[];
    }

    function Abs(): State<W>
      reads this
    {
      State(world, now, scheduled)
    }

    method Schedule(author: NodeId, tick: Tick, seqNo: nat, input: Input) returns (accepted: bool)
      modifies this
      ensures Abs() == ScheduleIn(old(Abs()), Tagged(tick, Entry(author, seqNo, input)))
      ensures accepted <==> tick >= old(now)
    {
      if tick < now { return false; }
      scheduled := scheduled[tick := BatchAt(Abs(), tick) + [Entry(author, seqNo, input)]];
      return true;
    }

    /** A local input goes `INPUT_DELAY` ticks ahead; the tagged copy is what gets broadcast. */
    method ScheduleLocal(author: NodeId, seqNo: nat, input: Input) returns (t: Tagged)
      requires now <= TICK_MAX
      modifies this
      ensures t == Tagged(if old(now) + INPUT_DELAY <= TICK_MAX then old(now) + INPUT_DELAY else TICK_MAX,
                          Entry(author, seqNo, input))
      ensures Abs() == ScheduleIn(old(Abs()), t)
    {
      var at := if now + INPUT_DELAY <= TICK_MAX then now + INPUT_DELAY else TICK_MAX;
      scheduled := scheduled[at := BatchAt(Abs(), at) + [Entry(author, seqNo, input)]];
      t := Tagged(at, Entry(author, seqNo, input));
    }

    /** Adopt the quorum's snapshot; inputs scheduled ahead still apply at their ticks. */
    method Reseed(snapshot: W, tick: Tick)
      modifies this
      ensures Abs() == State(snapshot, tick, old(scheduled))
    {
      world, now := snapshot, tick;
    }

    method AdvanceTo(target: Tick)
      modifies this
      ensures Abs() == AdvanceIn(sim, old(Abs()), target)
    {
      if target - now > MAX_CATCHUP {
        var floor := target - MAX_CATCHUP;
        scheduled := map t | t in scheduled && t >= floor :: scheduled[t];
        now := floor;
      }
      while now < target
        invariant TickUntil(sim, Abs(), target) == AdvanceIn(sim, old(Abs()), target)
      {
        ApplyScheduled();
      }
    }

    method ApplyScheduled()
      modifies this
      ensures Abs() == TickOnce(sim, old(Abs()))
    {
      var inputs := Canonical(BatchAt(Abs(), now));
      scheduled := scheduled - {now};
      for i := 0 to |inputs|
        invariant scheduled == old(scheduled) - {now} && now == old(now)
        invariant world == ApplyAll(sim, old(world), inputs[..i])
      {
        assert inputs[..i+1][..i] == inputs[..i];
        world := ApplyInput(sim, world, inputs[i].author, inputs[i].input);
      }
      assert inputs[..|inputs|] == inputs;
      world, now := sim.tick(world), now + 1;
    }
  }

  // ---- the canonical meaning of an input log ----

  /** The inputs of one tick, in log order. */
  function Inputs(log: seq<Tagged>, t: Tick): seq<Entry> {
    if log == [] then []
    else
      var n := |log| - 1;
      Inputs(log[..n], t) + if log[n].tick == t then [log[n].entry] else []
  }

  /** The world a log leads to: every tick from `start`, its inputs by (author, seq), one step. */
  function WorldAt<W>(sim: Sim<W>, w: W, start: Tick, log: seq<Tagged>, t: Tick): W
    decreases t
  {
    if t <= start then w
    else TickWorld(sim, WorldAt(sim, w, start, log, t - 1), Inputs(log, t - 1))
  }

  datatype Op<W> = Schedule(t: Tagged) | Advance(target: Tick) | Reseed(snapshot: W, tick: Tick)

  function StepOp<W>(sim: Sim<W>, s: State<W>, op: Op<W>): State<W> {
    match op
    case Schedule(t) => ScheduleIn(s, t)
    case Advance(target) => AdvanceIn(sim, s, target)
    case Reseed(snapshot, tick) => State(snapshot, tick, s.scheduled)
  }

  function Run<W>(sim: Sim<W>, w: W, start: Tick, ops: seq<Op<W>>): State<W> {
    if ops == [] then State(w, start, map[]) else StepOp(sim, Run(sim, w, start, ops[..|ops|-1]), ops[|ops|-1])
  }

  /** The inputs a run accepted, in arrival order: all that were not late. */
  function Accepted<W>(sim: Sim<W>, w: W, start: Tick, ops: seq<Op<W>>): seq<Tagged> {
    if ops == [] then []
    else
      var before, s, op := Accepted(sim, w, start, ops[..|ops|-1]), Run(sim, w, start, ops[..|ops|-1]), ops[|ops|-1];
      if op.Schedule? && op.t.tick >= s.now then before + [op.t] else before
  }

  predicate Skips<W>(s: State<W>, op: Op<W>) {
    op.Advance? && op.target - s.now > MAX_CATCHUP
  }

  /** No advance outruns the catch-up budget, and nobody reseeds. */
  predicate Smooth<W>(sim: Sim<W>, w: W, start: Tick, ops: seq<Op<W>>) {
    ops != [] ==>
      var before, op := ops[..|ops|-1], ops[|ops|-1];
      Smooth(sim, w, start, before) && !op.Reseed? && !Skips(Run(sim, w, start, before), op)
  }

  /** What an engine is simulating: the inputs of a log, from a world at a tick. */
  datatype Chapter<W> = Chapter(world: W, start: Tick, log: seq<Tagged>)

  /** The replica has simulated exactly the log so far, and holds exactly what is still due. */
  ghost predicate Follows<W>(s: State<W>, sim: Sim<W>, c: Chapter<W>) {
    && c.start <= s.now
    && s.world == WorldAt(sim, c.world, c.start, c.log, s.now)
    && forall t :: t >= s.now ==> BatchAt(s, t) == Inputs(c.log, t)
  }

  lemma OtherTick(log: seq<Tagged>, x: Tagged, t: Tick)
    ensures Inputs(log + [x], t) == Inputs(log, t) + if x.tick == t then [x.entry] else []
  {
    assert (log + [x])[..|log|] == log;
  }

  lemma NextWorld<W>(sim: Sim<W>, w: W, start: Tick, log: seq<Tagged>, t: Tick)
    requires t > start
    ensures WorldAt(sim, w, start, log, t) == TickWorld(sim, WorldAt(sim, w, start, log, t - 1), Inputs(log, t - 1))
  {
  }

  /** An input for a tick not yet simulated does not touch the past. */
  lemma {:induction false} FutureInputKeepsPast<W>(sim: Sim<W>, w: W, start: Tick, log: seq<Tagged>, x: Tagged, t: Tick)
    requires t <= x.tick
    ensures WorldAt(sim, w, start, log + [x], t) == WorldAt(sim, w, start, log, t)
    decreases t
  {
    if t > start {
      FutureInputKeepsPast(sim, w, start, log, x, t - 1);
      OtherTick(log, x, t - 1);
      assert Inputs(log, t - 1) + [] == Inputs(log, t - 1);
      NextWorld(sim, w, start, log, t);
      NextWorld(sim, w, start, log + [x], t);
    }
  }

  lemma {:induction false} TickUntilFollows<W>(s: State<W>, sim: Sim<W>, c: Chapter<W>, target: Tick)
    requires Follows(s, sim, c)
    ensures Follows(TickUntil(sim, s, target), sim, c)
    decreases target - s.now
  {
    if s.now < target {
      var next := TickOnce(sim, s);
      forall t | t >= next.now
        ensures BatchAt(next, t) == Inputs(c.log, t)
      {
        assert BatchAt(s, t) == Inputs(c.log, t);
      }
      TickUntilFollows(next, sim, c, target);
    }
  }

  // ---- every run, with skips and reseeds ----

  /** The log without the inputs of the ticks from `lo` up to `hi`. */
  function Without(log: seq<Tagged>, lo: Tick, hi: Tick): seq<Tagged> {
    if log == [] then []
    else
      var x := log[|log|-1];
      Without(log[..|log|-1], lo, hi) + if lo <= x.tick < hi then [] else [x]
  }

  lemma {:induction false} WithoutInputs(log: seq<Tagged>, lo: Tick, hi: Tick, t: Tick)
    ensures Inputs(Without(log, lo, hi), t) == if lo <= t < hi then [] else Inputs(log, t)
  {
    if log != [] {
      var front, x := log[..|log|-1], log[|log|-1];
      WithoutInputs(front, lo, hi, t);
      if lo <= x.tick < hi {
        assert Without(front, lo, hi) + [] == Without(front, lo, hi);
        assert Inputs(front, t) + [] == Inputs(front, t);
      } else {
        OtherTick(Without(front, lo, hi), x, t);
      }
    }
  }

  /** An advance uses up the ticks it simulates, a skip loses everything before the target, and a
      reseed loses nothing. */
  function HeldAfter<W>(s: State<W>, held: seq<Tagged>, op: Op<W>): seq<Tagged> {
    match op
    case Schedule(x) => if x.tick < s.now then held else held + [x]
    case Advance(target) => Without(held, if Skips(s, op) then 0 else s.now, target)
    case Reseed(_, _) => held
  }

  /** The accepted inputs that are still scheduled. */
  function Held<W>(sim: Sim<W>, w: W, start: Tick, ops: seq<Op<W>>): seq<Tagged> {
    if ops == [] then []
    else
      var before, op := ops[..|ops|-1], ops[|ops|-1];
      HeldAfter(Run(sim, w, start, before), Held(sim, w, start, before), op)
  }

  lemma {:induction false} TickUntilUses<W>(sim: Sim<W>, s: State<W>, target: Tick, t: Tick)
    ensures BatchAt(TickUntil(sim, s, target), t) == if s.now <= t < target then [] else BatchAt(s, t)
    ensures TickUntil(sim, s, target).now == if s.now < target then target else s.now
    decreases target - s.now
  {
    if s.now < target {
      TickUntilUses(sim, TickOnce(sim, s), target, t);
    }
  }

  lemma CatchUpHolds<W>(s: State<W>, target: Tick, t: Tick)
    ensures target - s.now <= MAX_CATCHUP ==> CatchUp(s, target) == s
    ensures target - s.now > MAX_CATCHUP ==> CatchUp(s, target).world == s.world
    ensures target - s.now > MAX_CATCHUP ==> CatchUp(s, target).now == target - MAX_CATCHUP
    ensures target - s.now > MAX_CATCHUP ==>
              BatchAt(CatchUp(s, target), t) == if t < target - MAX_CATCHUP then [] else BatchAt(s, t)
  {
  }

  lemma HeldStep<W>(sim: Sim<W>, s: State<W>, held: seq<Tagged>, op: Op<W>, t: Tick)
    requires BatchAt(s, t) == Inputs(held, t)
    ensures BatchAt(StepOp(sim, s, op), t) == Inputs(HeldAfter(s, held, op), t)
  {
    match op
    case Schedule(x) => OtherTick(held, x, t);
    case Advance(target) =>
      CatchUpHolds(s, target, t);
      TickUntilUses(sim, CatchUp(s, target), target, t);
      WithoutInputs(held, if Skips(s, op) then 0 else s.now, target, t);
    case Reseed(_, _) =>
  }

  /** The schedule is what the calls say is held, tick by tick and in arrival order. */
  lemma {:induction false} ScheduleIsHeld<W>(sim: Sim<W>, w: W, start: Tick, ops: seq<Op<W>>, t: Tick)
    ensures BatchAt(Run(sim, w, start, ops), t) == Inputs(Held(sim, w, start, ops), t)
  {
    if ops != [] {
      var before, op := ops[..|ops|-1], ops[|ops|-1];
      ScheduleIsHeld(sim, w, start, before, t);
      HeldStep(sim, Run(sim, w, start, before), Held(sim, w, start, before), op, t);
    }
  }

  /** A chapter begins with the engine, at every reseed, and at every skip - which keeps the world
      as it was, sets it down `MAX_CATCHUP` ticks short of the target, and never simulates what
      lies between. The inputs still held carry over. */
  function ChapterAfter<W>(s: State<W>, held: seq<Tagged>, c: Chapter<W>, op: Op<W>): Chapter<W> {
    match op
    case Schedule(x) => if x.tick < s.now then c else c.(log := c.log + [x])
    case Advance(target) => if Skips(s, op) then Chapter(s.world, target - MAX_CATCHUP, held) else c
    case Reseed(snapshot, tick) => Chapter(snapshot, tick, held)
  }

  function ChapterOf<W>(sim: Sim<W>, w: W, start: Tick, ops: seq<Op<W>>): Chapter<W> {
    if ops == [] then Chapter(w, start, [])
    else
      var before, op := ops[..|ops|-1], ops[|ops|-1];
      ChapterAfter(Run(sim, w, start, before), Held(sim, w, start, before), ChapterOf(sim, w, start, before), op)
  }

  lemma ScheduleFollows<W>(s: State<W>, sim: Sim<W>, c: Chapter<W>, x: Tagged)
    requires Follows(s, sim, c) && x.tick >= s.now
    ensures Follows(ScheduleIn(s, x), sim, c.(log := c.log + [x]))
  {
    FutureInputKeepsPast(sim, c.world, c.start, c.log, x, s.now);
    forall t | t >= s.now
      ensures BatchAt(ScheduleIn(s, x), t) == Inputs(c.log + [x], t)
    {
      OtherTick(c.log, x, t);
    }
  }

  lemma SkipFollows<W>(s: State<W>, sim: Sim<W>, held: seq<Tagged>, target: Tick)
    requires target - s.now > MAX_CATCHUP && forall t :: BatchAt(s, t) == Inputs(held, t)
    ensures Follows(AdvanceIn(sim, s, target), sim, Chapter(s.world, target - MAX_CATCHUP, held))
  {
    var s' := CatchUp(s, target);
    forall t | t >= s'.now
      ensures BatchAt(s', t) == Inputs(held, t)
    {
      CatchUpHolds(s, target, t);
    }
    TickUntilFollows(s', sim, Chapter(s.world, target - MAX_CATCHUP, held), target);
  }

  lemma StepFollows<W>(sim: Sim<W>, s: State<W>, held: seq<Tagged>, c: Chapter<W>, op: Op<W>)
    requires Follows(s, sim, c) && forall t :: BatchAt(s, t) == Inputs(held, t)
    ensures Follows(StepOp(sim, s, op), sim, ChapterAfter(s, held, c, op))
  {
    match op
    case Schedule(x) => if x.tick >= s.now { ScheduleFollows(s, sim, c, x); }
    case Advance(target) =>
      if Skips(s, op) {
        SkipFollows(s, sim, held, target);
      } else {
        TickUntilFollows(s, sim, c, target);
      }
    case Reseed(snapshot, tick) =>
      forall t
        ensures BatchAt(StepOp(sim, s, op), t) == Inputs(held, t)
      {
        assert BatchAt(s, t) == Inputs(held, t);
      }
  }

  /** Over every run - late inputs, skips and reseeds in any interleaving - the engine computes the
      canonical meaning of its chapter: no order of arrivals and advances shows in the world. */
  lemma {:induction false} RunFollowsChapter<W>(sim: Sim<W>, w: W, start: Tick, ops: seq<Op<W>>)
    ensures Follows(Run(sim, w, start, ops), sim, ChapterOf(sim, w, start, ops))
  {
    if ops != [] {
      var before, op := ops[..|ops|-1], ops[|ops|-1];
      RunFollowsChapter(sim, w, start, before);
      var s, c, held := Run(sim, w, start, before), ChapterOf(sim, w, start, before), Held(sim, w, start, before);
      forall t
        ensures BatchAt(s, t) == Inputs(held, t)
      {
        ScheduleIsHeld(sim, w, start, before, t);
      }
      StepFollows(sim, s, held, c, op);
    }
  }

  lemma {:induction false} SmoothRunsAreOneChapter<W>(sim: Sim<W>, w: W, start: Tick, ops: seq<Op<W>>)
    requires Smooth(sim, w, start, ops)
    ensures ChapterOf(sim, w, start, ops) == Chapter(w, start, Accepted(sim, w, start, ops))
  {
    if ops != [] {
      SmoothRunsAreOneChapter(sim, w, start, ops[..|ops|-1]);
    }
  }

  /** So over a run that never skips or reseeds the world is the meaning of all it accepted. */
  lemma RunFollowsLog<W>(sim: Sim<W>, w: W, start: Tick, ops: seq<Op<W>>)
    requires Smooth(sim, w, start, ops)
    ensures Follows(Run(sim, w, start, ops), sim, Chapter(w, start, Accepted(sim, w, start, ops)))
  {
    RunFollowsChapter(sim, w, start, ops);
    SmoothRunsAreOneChapter(sim, w, start, ops);
  }

  /** From `mid` on the two logs lead to the same canonical batches. */
  ghost predicate SameFrom(log: seq<Tagged>, log': seq<Tagged>, mid: Tick) {
    forall u :: u >= mid ==> Canonical(Inputs(log, u)) == Canonical(Inputs(log', u))
  }

  lemma SameTick<W>(sim: Sim<W>, w: W, log: seq<Tagged>, log': seq<Tagged>, mid: Tick, u: Tick)
    requires SameFrom(log, log', mid) && u >= mid
    ensures TickWorld(sim, w, Inputs(log, u)) == TickWorld(sim, w, Inputs(log', u))
  {
  }

  lemma OneTickOn<W>(sim: Sim<W>, w: W, w': W, mid: Tick, log: seq<Tagged>, c: Chapter<W>, t: Tick)
    requires c.start <= mid < t && SameFrom(log, c.log, mid)
    requires w' == WorldAt(sim, w, mid, log, t - 1) == WorldAt(sim, c.world, c.start, c.log, t - 1)
    ensures WorldAt(sim, w, mid, log, t) == WorldAt(sim, c.world, c.start, c.log, t)
  {
    NextWorld(sim, c.world, c.start, c.log, t);
    NextWorld(sim, w, mid, log, t);
    SameTick(sim, w', log, c.log, mid, t - 1);
  }

  /** The meaning of a log goes on from any tick of it. */
  lemma {:induction false} WorldContinues<W>(sim: Sim<W>, c: Chapter<W>, w: W, mid: Tick, log: seq<Tagged>, t: Tick)
    requires c.start <= mid <= t && SameFrom(log, c.log, mid)
    requires w == WorldAt(sim, c.world, c.start, c.log, mid)
    ensures WorldAt(sim, w, mid, log, t) == WorldAt(sim, c.world, c.start, c.log, t)
    decreases t
  {
    if t == mid {
      assert WorldAt(sim, w, mid, log, t) == w;
    } else {
      WorldContinues(sim, c, w, mid, log, t - 1);
      OneTickOn(sim, w, WorldAt(sim, w, mid, log, t - 1), mid, log, c, t);
    }
  }

  /** A replica that strayed, or never was there, is with the log again once its last chapter began
      on the log's world and holds the log's inputs, whatever its run was before: from there on, in
      any order and interleaving, it is at the log's world of its tick. */
  lemma RejoinedRunFollowsLog<W>(sim: Sim<W>, w: W, start: Tick, ops: seq<Op<W>>, c: Chapter<W>)
    requires var own := ChapterOf(sim, w, start, ops);
             && c.start <= own.start
             && own.world == WorldAt(sim, c.world, c.start, c.log, own.start)
             && SameFrom(own.log, c.log, own.start)
    ensures var s := Run(sim, w, start, ops);
            s.world == WorldAt(sim, c.world, c.start, c.log, s.now)
  {
    var own, s := ChapterOf(sim, w, start, ops), Run(sim, w, start, ops);
    RunFollowsChapter(sim, w, start, ops);
    WorldContinues(sim, c, own.world, own.start, own.log, s.now);
  }

  /** Inputs left behind by a reseed to a later tick. The next advance drops them only if it skips;
      otherwise they stay scheduled, and a reseed back to an earlier tick would apply them. */
  lemma StaleInputsDroppedIff<W>(sim: Sim<W>, s: State<W>, target: Tick, t: Tick)
    requires t < s.now && BatchAt(s, t) != []
    ensures BatchAt(AdvanceIn(sim, s, target), t) == [] <==> target - s.now > MAX_CATCHUP
  {
    CatchUpHolds(s, target, t);
    TickUntilUses(sim, CatchUp(s, target), target, t);
  }

  lemma OneTick<W>(sim: Sim<W>, s: State<W>)
    ensures AdvanceIn(sim, s, s.now + 1).world == TickWorld(sim, s.world, BatchAt(s, s.now))
  {
    assert TickUntil(sim, TickOnce(sim, s), s.now + 1) == TickOnce(sim, s);
  }

  /** Four calls that show it, on any engine: an input is scheduled, a reseed goes past its tick, and
      the advance that follows does not drop it; a reseed to its tick then applies it after all. */
  lemma StaleInputComesBack<W>(sim: Sim<W>, s: State<W>, x: Tagged, later: W, now: Tick, target: Tick, earlier: W)
    requires s.now <= x.tick < now <= target <= now + MAX_CATCHUP
    ensures var kept := StepOp(sim, StepOp(sim, StepOp(sim, s, Schedule(x)), Reseed(later, now)), Advance(target));
            && BatchAt(kept, x.tick) == BatchAt(s, x.tick) + [x.entry]
            && AdvanceIn(sim, StepOp(sim, kept, Reseed(earlier, x.tick)), x.tick + 1).world ==
               TickWorld(sim, earlier, BatchAt(s, x.tick) + [x.entry])
  {
    var reseeded := StepOp(sim, StepOp(sim, s, Schedule(x)), Reseed(later, now));
    assert BatchAt(reseeded, x.tick) == BatchAt(s, x.tick) + [x.entry];
    TickUntilUses(sim, reseeded, target, x.tick);
    var kept := StepOp(sim, reseeded, Advance(target));
    assert kept == TickUntil(sim, reseeded, target);
    OneTick(sim, State(earlier, x.tick, kept.scheduled));
  }

  // ---- convergence ----

  /** No author used one sequence number for two different inputs. */
  ghost predicate Unambiguous(batch: seq<Entry>) {
    forall a, b :: a in batch && b in batch && a.author == b.author && a.seqNo == b.seqNo ==> a == b
  }

  ghost predicate UnambiguousLog(log: seq<Tagged>) {
    forall a, b ::
      a in log && b in log && a.tick == b.tick && a.entry.author == b.entry.author && a.entry.seqNo == b.entry.seqNo
      ==> a == b
  }

  lemma {:induction false} InputsMembers(log: seq<Tagged>, t: Tick, e: Entry)
    ensures multiset(Inputs(log, t))[e] == multiset(log)[Tagged(t, e)]
  {
    if log != [] {
      InputsMembers(log[..|log|-1], t, e);
      assert log == log[..|log|-1] + [log[|log|-1]];
    }
  }

  lemma SameInputs(log: seq<Tagged>, log': seq<Tagged>, t: Tick)
    requires multiset(log) == multiset(log') && UnambiguousLog(log)
    ensures multiset(Inputs(log, t)) == multiset(Inputs(log', t))
    ensures Canonical(Inputs(log, t)) == Canonical(Inputs(log', t))
  {
    forall e ensures multiset(Inputs(log, t))[e] == multiset(Inputs(log', t))[e] {
      InputsMembers(log, t, e);
      InputsMembers(log', t, e);
    }
    forall a, b | a in Inputs(log, t) && b in Inputs(log, t) && a.author == b.author && a.seqNo == b.seqNo
      ensures a == b
    {
      assert a in multiset(Inputs(log, t)) && b in multiset(Inputs(log, t));
      InputsMembers(log, t, a);
      InputsMembers(log, t, b);
      assert Tagged(t, a) in multiset(log) && Tagged(t, b) in multiset(log);
    }
    assert multiset(Inputs(log, t)) == multiset(Inputs(log', t));
    UnambiguousSort(Inputs(log, t), Inputs(log', t));
  }

  lemma WorldIgnoresArrivalOrder<W>(sim: Sim<W>, w: W, start: Tick, log: seq<Tagged>, log': seq<Tagged>, t: Tick)
    requires multiset(log) == multiset(log') && UnambiguousLog(log)
    ensures WorldAt(sim, w, start, log, t) == WorldAt(sim, w, start, log', t)
  {
    forall u
      ensures Canonical(Inputs(log', u)) == Canonical(Inputs(log, u))
    {
      SameInputs(log, log', u);
    }
    if t >= start { WorldContinues(sim, Chapter(w, start, log), w, start, log', t); }
  }

  /** Convergence: two replicas whose chapters begin alike and hold the same inputs, whatever they
      lived through before - in whatever order and interleaving the inputs came - hold the same
      world at the same tick. */
  lemma ChaptersConverge<W>(sim: Sim<W>, w: W, start: Tick, ops: seq<Op<W>>, w': W, start': Tick, ops': seq<Op<W>>)
    requires var c, c' := ChapterOf(sim, w, start, ops), ChapterOf(sim, w', start', ops');
             && c.world == c'.world && c.start == c'.start
             && multiset(c.log) == multiset(c'.log) && UnambiguousLog(c.log)
    requires Run(sim, w, start, ops).now == Run(sim, w', start', ops').now
    ensures Run(sim, w, start, ops).world == Run(sim, w', start', ops').world
  {
    var c, c' := ChapterOf(sim, w, start, ops), ChapterOf(sim, w', start', ops');
    RunFollowsChapter(sim, w, start, ops);
    RunFollowsChapter(sim, w', start', ops');
    WorldIgnoresArrivalOrder(sim, c.world, c.start, c.log, c'.log, Run(sim, w, start, ops).now);
  }

  /** In particular, two that start alike, never skip and never reseed. */
  lemma ReplicasConverge<W>(sim: Sim<W>, w: W, start: Tick, ops: seq<Op<W>>, ops': seq<Op<W>>)
    requires Smooth(sim, w, start, ops) && Smooth(sim, w, start, ops')
    requires multiset(Accepted(sim, w, start, ops)) == multiset(Accepted(sim, w, start, ops'))
    requires UnambiguousLog(Accepted(sim, w, start, ops))
    requires Run(sim, w, start, ops).now == Run(sim, w, start, ops').now
    ensures Run(sim, w, start, ops).world == Run(sim, w, start, ops').world
  {
    SmoothRunsAreOneChapter(sim, w, start, ops);
    SmoothRunsAreOneChapter(sim, w, start, ops');
    ChaptersConverge(sim, w, start, ops, w, start, ops');
  }

  lemma {:induction false} SameDues<W>(sim: Sim<W>, s: State<W>, s': State<W>, target: Tick)
    requires s.world == s'.world && s.now == s'.now
    requires forall t :: t >= s.now ==> Canonical(BatchAt(s, t)) == Canonical(BatchAt(s', t))
    ensures TickUntil(sim, s, target).world == TickUntil(sim, s', target).world
    decreases target - s.now
  {
    if s.now < target {
      var next, next' := TickOnce(sim, s), TickOnce(sim, s');
      assert next.world == next'.world;
      forall t | t >= next.now ensures Canonical(BatchAt(next, t)) == Canonical(BatchAt(next', t)) {
        assert BatchAt(next, t) == BatchAt(s, t) && BatchAt(next', t) == BatchAt(s', t);
      }
      SameDues(sim, next, next', target);
    }
  }

  /** The merge to the quorum. Whatever an out-voted replica had computed, once it is reseeded with
      a peer's world and tick it computes what the peer computes - skips included - as long as it
      heard of the same inputs from that tick on, in whatever order. */
  lemma ReseedReconverges<W>(sim: Sim<W>, peer: State<W>, strayed: State<W>, target: Tick)
    requires forall t :: t >= peer.now ==> Unambiguous(BatchAt(peer, t))
    requires forall t :: t >= peer.now ==> multiset(BatchAt(strayed, t)) == multiset(BatchAt(peer, t))
    ensures var reseeded := StepOp(sim, strayed, Reseed(peer.world, peer.now));
            && AdvanceIn(sim, reseeded, target).world == AdvanceIn(sim, peer, target).world
            && AdvanceIn(sim, reseeded, target).now == AdvanceIn(sim, peer, target).now
  {
    var reseeded := StepOp(sim, strayed, Reseed(peer.world, peer.now));
    var s, s' := CatchUp(peer, target), CatchUp(reseeded, target);
    forall t | t >= s.now ensures Canonical(BatchAt(s, t)) == Canonical(BatchAt(s', t)) {
      CatchUpHolds(peer, target, t);
      CatchUpHolds(reseeded, target, t);
      UnambiguousSort(BatchAt(peer, t), BatchAt(strayed, t));
    }
    SameDues(sim, s, s', target);
    TickUntilUses(sim, s, target, 0);
    TickUntilUses(sim, s', target, 0);
  }

  /** Where the sort puts an entry: in front of the first one it does not exceed. */
  function Slot(a: Entry, s: seq<Entry>): (k: nat)
    ensures k <= |s|
  {
    if s == [] || EntryLeq(a, s[0]) then 0 else 1 + Slot(a, s[1..])
  }

  /** Two entries that compare equal keep their arrival order in front of a sorted batch. */
  lemma {:induction false} TiesKeepOrder(a: Entry, b: Entry, s: seq<Entry>)
    requires a.author == b.author && a.seqNo == b.seqNo
    ensures Slot(b, s) == Slot(a, s)
    ensures Insert(a, Insert(b, s, EntryLeq), EntryLeq) == s[..Slot(a, s)] + [a, b] + s[Slot(a, s)..]
  {
    var t := Insert(b, s, EntryLeq);
    if s == [] || EntryLeq(b, s[0]) {
      assert t == [b] + s && t[0] == b && EntryLeq(a, b);
      assert Insert(a, t, EntryLeq) == [a] + t;
      assert s[..0] == [] && s[0..] == s;
    } else {
      var tail, k := s[1..], Slot(a, s[1..]);
      TiesKeepOrder(a, b, tail);
      assert t == [s[0]] + Insert(b, tail, EntryLeq);
      assert t[0] == s[0] && t[1..] == Insert(b, tail, EntryLeq);
      assert EntryLeq(a, s[0]) == EntryLeq(b, s[0]);
      assert Insert(a, t, EntryLeq) == [s[0]] + Insert(a, t[1..], EntryLeq);
      assert s[..k+1] == [s[0]] + tail[..k] && s[k+1..] == tail[k..];
    }
  }

  lemma CanonicalOfTwo(a: Entry, b: Entry, rest: seq<Entry>)
    ensures Canonical([a, b] + rest) == Insert(a, Insert(b, Canonical(rest), EntryLeq), EntryLeq)
  {
    assert ([a, b] + rest)[1..] == [b] + rest && ([b] + rest)[1..] == rest;
    assert Canonical([b] + rest) == Insert(b, Canonical(rest), EntryLeq);
  }

  lemma TiesDiffer(a: Entry, b: Entry, rest: seq<Entry>)
    requires a.author == b.author && a.seqNo == b.seqNo && a != b
    ensures Canonical([a, b] + rest) != Canonical([b, a] + rest)
  {
    var s := Canonical(rest);
    CanonicalOfTwo(a, b, rest);
    CanonicalOfTwo(b, a, rest);
    TiesKeepOrder(a, b, s);
    TiesKeepOrder(b, a, s);
    var k := Slot(a, s);
    assert (s[..k] + [a, b] + s[k..])[k] == a && (s[..k] + [b, a] + s[k..])[k] == b;
  }

  lemma FrontTwo(p: Entry, q: Entry, rest: seq<Entry>)
    ensures multiset([p, q] + rest) == multiset(rest) + multiset{q} + multiset{p}
  {
    HeadOut([p, q] + rest);
    assert ([p, q] + rest)[1..] == [q] + rest;
    HeadOut([q] + rest);
    assert ([q] + rest)[1..] == rest;
  }

  lemma TwoOut(x: seq<Entry>, p: Entry, y: seq<Entry>, q: Entry, z: seq<Entry>)
    ensures multiset(x + [p] + y + [q] + z) == multiset(x + y + z) + multiset{q} + multiset{p}
  {
    Middle(x + [p] + y, q, z);
    Middle(x, p, y + z);
    assert x + [p] + y + z == x + [p] + (y + z);
    assert x + (y + z) == x + y + z;
  }

  lemma PullOut(x: seq<Entry>, p: Entry, y: seq<Entry>, q: Entry, z: seq<Entry>)
    ensures multiset(x + [p] + y + [q] + z) == multiset([p, q] + (x + y + z)) == multiset([q, p] + (x + y + z))
  {
    TwoOut(x, p, y, q, z);
    FrontTwo(p, q, x + y + z);
    FrontTwo(q, p, x + y + z);
  }

  lemma WithoutBoth(batch: seq<Entry>, a: Entry, b: Entry) returns (rest: seq<Entry>)
    requires a in batch && b in batch && a != b
    ensures multiset(batch) == multiset([a, b] + rest) == multiset([b, a] + rest)
  {
    var i, j :| 0 <= i < |batch| && 0 <= j < |batch| && batch[i] == a && batch[j] == b;
    var lo, hi := if i < j then i else j, if i < j then j else i;
    var x, y, z := batch[..lo], batch[lo+1..hi], batch[hi+1..];
    rest := x + y + z;
    Cut(batch, lo, hi);
    PullOut(x, batch[lo], y, batch[hi], z);
  }

  /** One tick's inputs are applied in one order whatever order they arrived in, exactly when
      no (author, seq) names two different inputs: the sort is stable and looks no further. */
  lemma CanonicalOrderIff(batch: seq<Entry>)
    ensures (forall batch' :: multiset(batch') == multiset(batch) ==> Canonical(batch') == Canonical(batch))
       <==> Unambiguous(batch)
  {
    if Unambiguous(batch) {
      forall batch' | multiset(batch') == multiset(batch) ensures Canonical(batch') == Canonical(batch) {
        UnambiguousSort(batch, batch');
      }
    } else {
      var a, b :| a in batch && b in batch && a.author == b.author && a.seqNo == b.seqNo && a != b;
      var rest := WithoutBoth(batch, a, b);
      TiesDiffer(a, b, rest);
    }
  }

  lemma UnambiguousSort(batch: seq<Entry>, batch': seq<Entry>)
    requires multiset(batch) == multiset(batch') && Unambiguous(batch)
    ensures Canonical(batch') == Canonical(batch)
  {
    EntryOrder();
    SortCanonical(batch, batch', EntryLeq);
  }

  // ---- what the inputs of one tick come to ----

  /** By author, and one author's by sequence number. */
  ghost predicate InOrder(c: seq<Entry>) {
    forall i, j :: 0 <= i < j < |c| ==>
      if c[i].author == c[j].author then c[i].seqNo <= c[j].seqNo else LexLeq(c[i].author, c[j].author)
  }

  /** A tick applies the inputs it was given, all of them and no others, in order. */
  lemma CanonicalIsOrdered(batch: seq<Entry>)
    ensures multiset(Canonical(batch)) == multiset(batch) && InOrder(Canonical(batch))
  {
    EntryOrder();
    SortByPermutes(batch, EntryLeq);
    SortBySorted(batch, EntryLeq);
  }

  /** A participant's body, as far as inputs reach it: its team and the frame it last was given. */
  datatype Body = Body(team: Team, frame: Option<Frame>)

  /** The simulation does to a body what it is asked to, and leaves everybody else's alone. */
  ghost predicate Lawful<W(!new)>(sim: Sim<W>, body: (W, NodeId) -> Option<Body>) {
    && (forall w, a :: sim.playerEntity(w, a).Some? <==> body(w, a).Some?)
    && (forall w, a, b, team :: sim.playerEntity(w, a).None? ==>
          body(sim.spawnPlayer(w, a, team), b) == if a == b then Some(Body(team, None)) else body(w, b))
    && (forall w, a, b, e, frame :: sim.playerEntity(w, a) == Some(e) ==>
          body(sim.setInput(w, e, frame), b) ==
          if a == b then Some(Body(body(w, a).value.team, Some(frame))) else body(w, b))
    && (forall w, a, b, e :: sim.playerEntity(w, a) == Some(e) ==>
          body(sim.removeEntity(w, e), b) == if a == b then None else body(w, b))
  }

  datatype Kind = Joins | Intents | Leaves | Moves {
    predicate Of(author: NodeId, e: Entry) {
      && e.author == author
      && match this
         case Joins => e.input.Join?
         case Intents => e.input.Intent?
         case Leaves => e.input.Leave?
         case Moves => e.input.Join? || e.input.Leave?
    }
  }

  ghost predicate Sends(batch: seq<Entry>, a: NodeId, kind: Kind) {
    exists e :: e in batch && kind.Of(a, e)
  }

  /** `e` is the one of its kind that its author numbered highest. */
  ghost predicate Highest(batch: seq<Entry>, a: NodeId, kind: Kind, e: Entry) {
    e in batch && kind.Of(a, e) && forall x :: x in batch && kind.Of(a, x) ==> x.seqNo <= e.seqNo
  }

  ghost predicate Lowest(batch: seq<Entry>, a: NodeId, kind: Kind, e: Entry) {
    e in batch && kind.Of(a, e) && forall x :: x in batch && kind.Of(a, x) ==> e.seqNo <= x.seqNo
  }

  /** The front of an ordered batch, and its last entry. */
  lemma FrontInOrder(c: seq<Entry>)
    requires c != [] && InOrder(c)
    ensures InOrder(c[..|c|-1])
    ensures forall x :: x in c <==> x in c[..|c|-1] || x == c[|c|-1]
    ensures forall x :: x in c && x.author == c[|c|-1].author ==> x.seqNo <= c[|c|-1].seqNo
  {
    assert c == c[..|c|-1] + [c[|c|-1]];
  }

  /** What an input is to the body of `a`. */
  function Heard(b: Option<Body>, e: Entry, a: NodeId): Option<Body> {
    if e.author != a then b
    else
      match e.input
      case Join(pref, _) => if b.Some? then b else Some(Body(if pref.Some? then pref.value else Red, None))
      case Intent(frame) => if b.Some? then Some(b.value.(frame := Some(frame))) else None
      case Leave => None
      case ZoneSwitch(_, _) => b
  }

  function HeardAll(b: Option<Body>, c: seq<Entry>, a: NodeId): Option<Body> {
    if c == [] then b else Heard(HeardAll(b, c[..|c|-1], a), c[|c|-1], a)
  }

  lemma InputIsHeard<W(!new)>(sim: Sim<W>, body: (W, NodeId) -> Option<Body>, w: W, e: Entry, a: NodeId)
    requires Lawful(sim, body)
    ensures body(ApplyInput(sim, w, e.author, e.input), a) == Heard(body(w, a), e, a)
  {
  }

  lemma {:induction false} InputsAreHeard<W(!new)>(sim: Sim<W>, body: (W, NodeId) -> Option<Body>, w: W,
                                                   c: seq<Entry>, a: NodeId)
    requires Lawful(sim, body)
    ensures body(ApplyAll(sim, w, c), a) == HeardAll(body(w, a), c, a)
  {
    if c != [] {
      var n := |c| - 1;
      InputsAreHeard(sim, body, w, c[..n], a);
      InputIsHeard(sim, body, ApplyAll(sim, w, c[..n]), c[n], a);
    }
  }

  /** Whether a participant is there after a tick is their own last word on it. */
  lemma {:induction false} LastWordStands(b: Option<Body>, c: seq<Entry>, a: NodeId)
    requires InOrder(c)
    ensures !Sends(c, a, Moves) ==> (HeardAll(b, c, a).Some? <==> b.Some?)
    ensures Sends(c, a, Moves) ==>
              exists e :: Highest(c, a, Moves, e) && (HeardAll(b, c, a).Some? <==> e.input.Join?)
  {
    if c != [] {
      FrontInOrder(c);
      var front, last := c[..|c|-1], c[|c|-1];
      LastWordStands(b, front, a);
      if Moves.Of(a, last) {
        assert Highest(c, a, Moves, last);
      } else if Sends(c, a, Moves) {
        var e :| Highest(front, a, Moves, e) && (HeardAll(b, front, a).Some? <==> e.input.Join?);
        assert Highest(c, a, Moves, e);
      }
    }
  }

  lemma FrontStays(c: seq<Entry>, a: NodeId)
    requires c != [] && !Sends(c, a, Leaves)
    ensures !Sends(c[..|c|-1], a, Leaves) && !Leaves.Of(a, c[|c|-1])
  {
    assert c == c[..|c|-1] + [c[|c|-1]];
  }

  /** Of the frames one author sends a body that stays, the one numbered highest is the one set. */
  lemma {:induction false} NewestFrameStands(b: Option<Body>, c: seq<Entry>, a: NodeId)
    requires InOrder(c) && b.Some? && !Sends(c, a, Leaves)
    ensures HeardAll(b, c, a).Some? && HeardAll(b, c, a).value.team == b.value.team
    ensures !Sends(c, a, Intents) ==> HeardAll(b, c, a) == b
    ensures Sends(c, a, Intents) ==>
              exists e :: Highest(c, a, Intents, e) && HeardAll(b, c, a).value.frame == Some(e.input.frame)
  {
    if c != [] {
      FrontInOrder(c);
      FrontStays(c, a);
      var front, last := c[..|c|-1], c[|c|-1];
      NewestFrameStands(b, front, a);
      if Intents.Of(a, last) {
        assert Highest(c, a, Intents, last);
      } else if Sends(c, a, Intents) {
        var e :| Highest(front, a, Intents, e) && HeardAll(b, front, a).value.frame == Some(e.input.frame);
        assert Highest(c, a, Intents, e);
      }
    }
  }

  function TeamAsked(e: Entry): Team
    requires e.input.Join?
  {
    if e.input.teamPref.Some? then e.input.teamPref.value else Red
  }

  /** Of the joins of a newcomer who does not leave again, the one numbered lowest picks the team. */
  lemma {:induction false} FirstJoinPicksTeam(c: seq<Entry>, a: NodeId)
    requires InOrder(c) && !Sends(c, a, Leaves)
    ensures HeardAll(None, c, a).Some? <==> Sends(c, a, Joins)
    ensures Sends(c, a, Joins) ==> exists e :: Lowest(c, a, Joins, e) && HeardAll(None, c, a).value.team == TeamAsked(e)
  {
    if c != [] {
      FrontInOrder(c);
      FrontStays(c, a);
      var front, last := c[..|c|-1], c[|c|-1];
      FirstJoinPicksTeam(front, a);
      if Sends(front, a, Joins) {
        var e :| Lowest(front, a, Joins, e) && HeardAll(None, front, a).value.team == TeamAsked(e);
        assert Lowest(c, a, Joins, e);
      } else if Joins.Of(a, last) {
        assert Lowest(c, a, Joins, last);
      }
    }
  }

  /** What the inputs of one tick make of a participant, whatever order they arrived in. */
  lemma TickHeedsNumbers<W(!new)>(sim: Sim<W>, body: (W, NodeId) -> Option<Body>, w: W, batch: seq<Entry>, a: NodeId)
    requires Lawful(sim, body)
    ensures var after := ApplyAll(sim, w, Canonical(batch));
            && TickWorld(sim, w, batch) == sim.tick(after)
            && (if Sends(batch, a, Moves)
                then exists e :: Highest(batch, a, Moves, e) && (body(after, a).Some? <==> e.input.Join?)
                else body(after, a).Some? <==> body(w, a).Some?)
            && (Sends(batch, a, Intents) && !Sends(batch, a, Leaves) && body(w, a).Some? ==>
                  exists e :: Highest(batch, a, Intents, e) && body(after, a).Some? &&
                              body(after, a).value.frame == Some(e.input.frame))
            && (Sends(batch, a, Joins) && !Sends(batch, a, Leaves) && body(w, a).None? ==>
                  exists e :: Lowest(batch, a, Joins, e) && body(after, a).Some? &&
                              body(after, a).value.team == TeamAsked(e))
  {
    var c := Canonical(batch);
    CanonicalIsOrdered(batch);
    SortByPermutes(batch, EntryLeq);
    forall kind ensures Sends(c, a, kind) <==> Sends(batch, a, kind) {}
    forall kind, e ensures Highest(c, a, kind, e) <==> Highest(batch, a, kind, e) {}
    forall kind, e ensures Lowest(c, a, kind, e) <==> Lowest(batch, a, kind, e) {}
    InputsAreHeard(sim, body, w, c, a);
    LastWordStands(body(w, a), c, a);
    if !Sends(c, a, Leaves) {
      if body(w, a).Some? { NewestFrameStands(body(w, a), c, a); } else { FirstJoinPicksTeam(c, a); }
    }
  }

  // ---- a lawful simulation ----

  /** Rows of authors; a row without a body stands for one who left. */
  type Roster = seq<(NodeId, Option<Body>)>

  predicate Holds(w: Roster, a: NodeId, i: nat) { i < |w| && w[i].0 == a && w[i].1.Some? }

  /** The first row holding a body of `a`. */
  function Row(w: Roster, a: NodeId): (row: Option<EntityId>)
    ensures row.Some? ==> Holds(w, a, row.value) && forall i :: 0 <= i < row.value ==> !Holds(w, a, i)
    ensures row.None? ==> forall i: nat :: !Holds(w, a, i)
  {
    if w == [] then None
    else
      var front := Row(w[..|w|-1], a);
      assert forall i :: 0 <= i < |w| - 1 ==> Holds(w[..|w|-1], a, i) == Holds(w, a, i);
      if front.Some? then front else if Holds(w, a, |w| - 1) then Some(|w| - 1) else None
  }

  function BodyOf(w: Roster, a: NodeId): Option<Body> {
    if Row(w, a).Some? then w[Row(w, a).value].1 else None
  }

  function Seated(w: Roster, e: EntityId, frame: Frame): Roster {
    if e < |w| && w[e].1.Some? then w[e := (w[e].0, Some(Body(w[e].1.value.team, Some(frame))))] else w
  }

  function Cleared(w: Roster, e: EntityId): Roster {
    if e < |w| then Map((row: (NodeId, Option<Body>)) => if row.0 == w[e].0 then (row.0, None) else row, w) else w
  }

  const ROSTER: Sim<Roster> := Sim(
    (w, a) => Row(w, a),
    (w, a, team) => w + [(a, Some(Body(team, None)))],
    (w, e, frame) => Seated(w, e, frame),
    (w, e) => Cleared(w, e),
    w => w)

  lemma SameRow(w: Roster, w': Roster, a: NodeId)
    requires forall i: nat :: Holds(w, a, i) == Holds(w', a, i)
    ensures Row(w, a) == Row(w', a)
  {
  }

  lemma JoiningSeats(w: Roster, a: NodeId, b: NodeId, team: Team)
    requires Row(w, a).None?
    ensures BodyOf(w + [(a, Some(Body(team, None)))], b) == if a == b then Some(Body(team, None)) else BodyOf(w, b)
  {
    var w' := w + [(a, Some(Body(team, None)))];
    assert Holds(w', a, |w|);
    if a != b { SameRow(w, w', b); }
  }

  lemma InputSeats(w: Roster, a: NodeId, b: NodeId, e: EntityId, frame: Frame)
    requires Row(w, a) == Some(e)
    ensures BodyOf(Seated(w, e, frame), b) ==
            if a == b then Some(Body(BodyOf(w, a).value.team, Some(frame))) else BodyOf(w, b)
  {
    SameRow(w, Seated(w, e, frame), b);
  }

  lemma LeavingClears(w: Roster, a: NodeId, b: NodeId, e: EntityId)
    requires Row(w, a) == Some(e)
    ensures BodyOf(Cleared(w, e), b) == if a == b then None else BodyOf(w, b)
  {
    if a != b { SameRow(w, Cleared(w, e), b); }
  }

  /** There is a simulation that meets the law. */
  lemma RosterIsLawful()
    ensures Lawful(ROSTER, BodyOf)
  {
    forall w, a, b, team | ROSTER.playerEntity(w, a).None?
      ensures BodyOf(ROSTER.spawnPlayer(w, a, team), b) == if a == b then Some(Body(team, None)) else BodyOf(w, b)
    {
      JoiningSeats(w, a, b, team);
    }
    forall w, a, b, e, frame | ROSTER.playerEntity(w, a) == Some(e)
      ensures BodyOf(ROSTER.setInput(w, e, frame), b) ==
              if a == b then Some(Body(BodyOf(w, a).value.team, Some(frame))) else BodyOf(w, b)
    {
      InputSeats(w, a, b, e, frame);
    }
    forall w, a, b, e | ROSTER.playerEntity(w, a) == Some(e)
      ensures BodyOf(ROSTER.removeEntity(w, e), b) == if a == b then None else BodyOf(w, b)
    {
      LeavingClears(w, a, b, e);
    }
  }
}
