/** Delta-encoded world snapshots: entity delta and client view (arena-protocol) and the authority's
    encoder (arena-net), joined into one lossy, reordering protocol for a single client. */
module Snapshots {
  import opened Protocol
  import opened Sorting
  import opened Geometry
  import opened Baseline
  import opened Wrappers

  datatype EntityKind = Player | Projectile | Pickup | ZoneMirror

  /** What a delta can carry. */
  datatype Motion = Motion(pos: Vec3, vel: Vec3, yaw: real, pitch: real, flags: bv16,
                           health: int, armor: int, weapon: nat)

  /** What a delta never carries, except inside a full spawn. */
  datatype Identity = Identity(kind: EntityKind, team: Team, owner: NodeId)

  datatype EntityState = EntityState(id: EntityId, identity: Identity, motion: Motion)

  datatype EntityDelta = EntityDelta(
    id: EntityId, spawn: Option<EntityState>,
    pos: Option<Vec3>, vel: Option<Vec3>, yaw: Option<real>, pitch: Option<real>,
    flags: Option<bv16>, health: Option<int>, armor: Option<int>, weapon: Option<nat>)

  type Entities = map<EntityId, EntityState>

  // ---- one entity ----

  function Changed<T(==)>(prev: T, next: T): Option<T> {
    if prev != next then Some(next) else None
  }

  function Diff(prev: Option<EntityState>, next: EntityState): EntityDelta {
    match prev
    case None => EntityDelta(next.id, Some(next), None, None, None, None, None, None, None, None)
    case Some(o) =>
      var m, n := o.motion, next.motion;
      EntityDelta(next.id, None, Changed(m.pos, n.pos), Changed(m.vel, n.vel), Changed(m.yaw, n.yaw),
                  Changed(m.pitch, n.pitch), Changed(m.flags, n.flags), Changed(m.health, n.health),
                  Changed(m.armor, n.armor), Changed(m.weapon, n.weapon))
  }

  function Or<T>(o: Option<T>, default: T): T {
    if o.Some? then o.value else default
  }

  function ApplyDelta(d: EntityDelta, base: Option<EntityState>): Option<EntityState> {
    if d.spawn.Some? then d.spawn
    else if base.None? then None
    else
      var m := base.value.motion;
      Some(EntityState(d.id, base.value.identity,
                       Motion(Or(d.pos, m.pos), Or(d.vel, m.vel), Or(d.yaw, m.yaw), Or(d.pitch, m.pitch),
                              Or(d.flags, m.flags), Or(d.health, m.health), Or(d.armor, m.armor),
                              Or(d.weapon, m.weapon))))
  }

  predicate IsEmpty(d: EntityDelta) {
    d.spawn.None? && d.pos.None? && d.vel.None? && d.yaw.None? && d.pitch.None?
    && d.flags.None? && d.health.None? && d.armor.None? && d.weapon.None?
  }

  /** `seen` already has every field of `next` that does not differ between `prev` and `next`. */
  predicate Carries(prev: EntityState, next: EntityState, seen: EntityState) {
    var o, n, s := prev.motion, next.motion, seen.motion;
    && seen.identity == next.identity
    && (o.pos == n.pos ==> s.pos == n.pos) && (o.vel == n.vel ==> s.vel == n.vel)
    && (o.yaw == n.yaw ==> s.yaw == n.yaw) && (o.pitch == n.pitch ==> s.pitch == n.pitch)
    && (o.flags == n.flags ==> s.flags == n.flags) && (o.health == n.health ==> s.health == n.health)
    && (o.armor == n.armor ==> s.armor == n.armor) && (o.weapon == n.weapon ==> s.weapon == n.weapon)
  }

  /** A delta taken against `prev` turns `seen` into `next` exactly when `seen` carries what
      the delta leaves out. */
  lemma DeltaOntoOtherBase(prev: EntityState, next: EntityState, seen: EntityState)
    ensures ApplyDelta(Diff(Some(prev), next), Some(seen)) == Some(next) <==> Carries(prev, next, seen)
  {
  }

  /** The round trip holds exactly when kind, team and owner did not change: the delta has no
      field for them. A new entity always round-trips, onto any base. */
  lemma DeltaRoundTrip(prev: Option<EntityState>, next: EntityState)
    ensures ApplyDelta(Diff(prev, next), prev) == Some(next) <==> prev.None? || prev.value.identity == next.identity
    ensures forall base :: ApplyDelta(Diff(None, next), base) == Some(next)
    ensures prev.Some? ==> (IsEmpty(Diff(prev, next)) <==> prev.value.motion == next.motion)
  {
    if prev.Some? { DeltaOntoOtherBase(prev.value, next, prev.value); }
  }

  /** A player who switches team keeps the old colours on every client holding a baseline. */
  lemma TeamChangeIsLost()
    ensures exists prev, next :: ApplyDelta(Diff(Some(prev), next), Some(prev)) != Some(next)
  {
    var m := Motion(ZERO, ZERO, 0.0, 0.0, 0, 100, 0, 0);
    var prev := EntityState(1, Identity(Player, Red, "node1"), m);
    var next := EntityState(1, Identity(Player, Blue, "node1"), m);
    assert ApplyDelta(Diff(Some(prev), next), Some(prev)) != Some(next);
  }

  // ---- one snapshot ----

  datatype Snapshot = Snapshot(
    tick: Tick, baselineTick: Tick, local: EntityId, localState: EntityState,
    entities: seq<EntityDelta>, despawns: seq<EntityId>)

  function Lookup(m: Entities, id: EntityId): Option<EntityState> {
    if id in m then Some(m[id]) else None
  }

  /** Entities are stored under their own ids. */
  ghost predicate WellKeyed(m: Entities) {
    forall id :: id in m ==> m[id].id == id
  }

  /** The stand-in for a local player that is momentarily absent: dead, at the origin. */
  function Placeholder(local: EntityId): EntityState {
    EntityState(local, Identity(Player, NoTeam, ""), Motion(ZERO, ZERO, 0.0, 0.0, 0x20, 0, 0, 0))
  }

  function LocalState(all: Entities, local: EntityId): EntityState {
    if local in all then all[local] else Placeholder(local)
  }

  /** The set the authority remembers as sent: what the client may see, plus its own entity. */
  function Visible(all: Entities, aoi: set<EntityId>, local: EntityId): Entities {
    map id | id in all && (id in aoi || id == local) :: all[id]
  }

  /** What the client ought to hold after the snapshot. */
  function Target(all: Entities, aoi: set<EntityId>, local: EntityId): Entities {
    Visible(all, aoi, local)[local := LocalState(all, local)]
  }

  /** `snap` is an encoding of `all` against `base`: one non-empty delta per changed visible
      entity, in any order, and a despawn for whatever the base holds and the client may no
      longer see. */
  ghost predicate Encodes(snap: Snapshot, base: Entities, all: Entities, aoi: set<EntityId>, local: EntityId) {
    && snap.local == local
    && snap.localState == LocalState(all, local)
    && (forall d :: d in snap.entities <==>
          exists id :: id in aoi && id in all && id != local && d == Diff(Lookup(base, id), all[id]) && !IsEmpty(d))
    && (forall i, j :: 0 <= i < j < |snap.entities| ==> snap.entities[i].id != snap.entities[j].id)
    && (forall id :: id in snap.despawns <==> id in base && id != local && (id !in aoi || id !in all))
  }

  function ApplyDeltas(view: Entities, ds: seq<EntityDelta>): Entities {
    if ds == [] then view
    else
      var before, d := ApplyDeltas(view, ds[..|ds|-1]), ds[|ds|-1];
      var e := ApplyDelta(d, Lookup(before, d.id));
      if e.Some? then before[d.id := e.value] else before
  }

  function RemoveAll(view: Entities, ids: seq<EntityId>): Entities {
    view - (set id | id in ids)
  }

  function ApplySnapshot(view: Entities, snap: Snapshot): Entities {
    RemoveAll(ApplyDeltas(view, snap.entities), snap.despawns)[snap.local := snap.localState]
  }

  function Patched(held: Option<EntityState>, d: EntityDelta): Option<EntityState> {
    if ApplyDelta(d, held).Some? then ApplyDelta(d, held) else held
  }

  lemma DeltaStep(view: Entities, ds: seq<EntityDelta>, id: EntityId)
    requires ds != []
    ensures var before, d := ApplyDeltas(view, ds[..|ds|-1]), ds[|ds|-1];
            Lookup(ApplyDeltas(view, ds), id) ==
            if d.id == id then Patched(Lookup(before, id), d) else Lookup(before, id)
  {
  }

  lemma {:induction false} ApplyDeltasPointwise(view: Entities, ds: seq<EntityDelta>, id: EntityId)
    requires forall i, j :: 0 <= i < j < |ds| ==> ds[i].id != ds[j].id
    ensures (forall d :: d in ds ==> d.id != id) ==> Lookup(ApplyDeltas(view, ds), id) == Lookup(view, id)
    ensures forall d :: d in ds && d.id == id ==> Lookup(ApplyDeltas(view, ds), id) == Patched(Lookup(view, id), d)
  {
    if ds != [] {
      var front, last := ds[..|ds|-1], ds[|ds|-1];
      ApplyDeltasPointwise(view, front, id);
      DeltaStep(view, ds, id);
      assert ds == front + [last];
      assert last.id == id ==> forall d :: d in front ==> d.id != id;
    }
  }

  /** What a client that holds `view` makes of an encoding, entity by entity. */
  lemma ViewAfter(view: Entities, snap: Snapshot, base: Entities, all: Entities, aoi: set<EntityId>, local: EntityId,
                  id: EntityId)
    requires Encodes(snap, base, all, aoi, local) && WellKeyed(all)
    ensures Lookup(ApplySnapshot(view, snap), id) ==
            if id == local then Some(LocalState(all, local))
            else if id in aoi && id in all then
              var d := Diff(Lookup(base, id), all[id]);
              if !IsEmpty(d) && ApplyDelta(d, Lookup(view, id)).Some? then ApplyDelta(d, Lookup(view, id))
              else Lookup(view, id)
            else if id in base then None
            else Lookup(view, id)
  {
    ApplyDeltasPointwise(view, snap.entities, id);
    if id != local && id in aoi && id in all {
      var d := Diff(Lookup(base, id), all[id]);
      assert d.id == id;
      if !IsEmpty(d) { assert d in snap.entities; }
    }
  }

  /** What the client must already hold for the snapshot to land exactly: off its own
      entity, (1) of everything that stays in view since the baseline, whatever the delta
      leaves out; (2) nothing that neither the baseline nor the new world knows. */
  ghost predicate Ready(view: Entities, base: Entities, target: Entities, local: EntityId) {
    && (forall id :: id in base && id in target && id != local ==>
          id in view && Carries(base[id], target[id], view[id]))
    && (forall id :: id in view && id != local ==> id in base || id in target)
  }

  /** Exactness of one snapshot. The client applies the delta to whatever it holds now, not
      to the baseline the delta was taken against, so the view becomes the authority's view
      exactly when the client was `Ready` - a condition on the three worlds before the call. */
  lemma SnapshotExactIff(view: Entities, snap: Snapshot, base: Entities, all: Entities, aoi: set<EntityId>,
                         local: EntityId)
    requires Encodes(snap, base, all, aoi, local)
    requires WellKeyed(all) && WellKeyed(view) && WellKeyed(base)
    ensures ApplySnapshot(view, snap) == Target(all, aoi, local) <==> Ready(view, base, Target(all, aoi, local), local)
  {
    var after, target := ApplySnapshot(view, snap), Target(all, aoi, local);
    forall id ensures Lookup(after, id) == Lookup(target, id) <==>
                        && (id in base && id in target && id != local ==>
                            id in view && Carries(base[id], target[id], view[id]))
                        && (id in view && id != local ==> id in base || id in target)
    {
      ViewAfter(view, snap, base, all, aoi, local, id);
      if id != local && id in aoi && id in all && id in base && id in view {
        DeltaOntoOtherBase(base[id], all[id], view[id]);
        DeltaRoundTrip(Some(base[id]), all[id]);
      }
    }
    assert after == target <==> forall id :: Lookup(after, id) == Lookup(target, id) by {
      if forall id :: Lookup(after, id) == Lookup(target, id) {
        forall id ensures id in after <==> id in target { assert Lookup(after, id) == Lookup(target, id); }
        forall id | id in after ensures after[id] == target[id] { assert Lookup(after, id) == Lookup(target, id); }
      }
    }
  }

  // ---- the two endpoints ----

  /** The baseline a client's next snapshot is taken against: the acked set if it is still
      retained, else nothing (a keyframe, tick 0). */
  function BaselineFor(c: ClientBaselines<Entities>): (Tick, Entities) {
    if c.acked.None? then (0, map[])
    else
      var got := Get(c, c.acked.value);
      if got.Some? then (c.acked.value, got.value) else (0, map[])
  }

  /** The set last sent under the largest tick acked, while that tick is retained. */
  ghost predicate Confirmed(sent: seq<(Tick, Entities)>, acks: set<Tick>, t: Tick, base: Entities) {
    IsMark(Some(t), acks) && t in Newest(Admitted(sent)) && Latest(sent, t) == Some(base)
  }

  /** The baseline owed to a client: what it has confirmed, or nothing. */
  ghost predicate Owed(sent: seq<(Tick, Entities)>, acks: set<Tick>, t: Tick, base: Entities) {
    || Confirmed(sent, acks, t, base)
    || (t == 0 && base == map[] && forall t', base' :: !Confirmed(sent, acks, t', base'))
  }

  lemma BaselineIsOwed(c: ClientBaselines<Entities>, sent: seq<(Tick, Entities)>, acks: set<Tick>)
    requires Agrees(c, sent, acks)
    ensures Owed(sent, acks, BaselineFor(c).0, BaselineFor(c).1)
  {
    if c.acked.Some? {
      MirroredLookup(c, sent, c.acked.value);
      assert Get(c, c.acked.value).Some? ==> Confirmed(sent, acks, BaselineFor(c).0, BaselineFor(c).1);
    }
  }

  /** Encoded against the baseline owed by everything that was sent and acked, whatever run of the
      store led to this state. */
  ghost predicate SentAsOwed(
    snap: Snapshot, clients: map<NodeId, ClientBaselines<Entities>>, client: NodeId, world: World, local: EntityId)
  {
    forall ops :: clients == Run(ops) ==> EncodesOwed(snap, ops, client, world, local)
  }

  ghost predicate EncodesOwed(snap: Snapshot, ops: seq<Op<Entities>>, client: NodeId, world: World, local: EntityId) {
    exists base ::
      && Owed(Sent(ops, client), Acks(ops, client), snap.baselineTick, base)
      && Encodes(snap, base, world.all, world.aoi, local)
  }

  lemma EncodedAsOwed(
    snap: Snapshot, clients: map<NodeId, ClientBaselines<Entities>>, client: NodeId, world: World, local: EntityId)
    requires Encodes(snap, BaselineFor(ClientOf(clients, client)).1, world.all, world.aoi, local)
    requires snap.baselineTick == BaselineFor(ClientOf(clients, client)).0
    ensures SentAsOwed(snap, clients, client, world, local)
  {
    forall ops | clients == Run(ops)
      ensures EncodesOwed(snap, ops, client, world, local)
    {
      RunMirrors(ops, client);
      BaselineIsOwed(ClientOf(clients, client), Sent(ops, client), Acks(ops, client));
    }
  }

  class SnapshotEncoder {
    const baselines: BaselineStore<Entities>

    constructor ()
      ensures fresh(baselines) && baselines.clients == map[]
    {
      baselines := new BaselineStore();
    }

    /** Encodes `all` for one client against its acked baseline and remembers what was sent. */
    method Encode(client: NodeId, tick: Tick, all: Entities, aoi: set<EntityId>, local: EntityId)
      returns (snap: Snapshot)
      requires WellKeyed(all)
      modifies baselines
      ensures Encodes(snap, old(BaselineFor(ClientOf(baselines.clients, client))).1, all, aoi, local)
      ensures snap.tick == tick && snap.baselineTick == old(BaselineFor(ClientOf(baselines.clients, client))).0
      ensures SentAsOwed(snap, old(baselines.clients), client, World(all, aoi), local)
      ensures baselines.clients == Step(old(baselines.clients), Record(client, tick, Visible(all, aoi, local)))
    {
      var (btick, base) := BaselineFor(ClientOf(baselines.clients, client));

      var entities: seq<EntityDelta>, todo := [], aoi;
      while todo != {}
        invariant todo <= aoi
        invariant forall d :: d in entities <==>
                    exists id :: id in aoi - todo && id in all && id != local && d == Diff(Lookup(base, id), all[id]) &&
                      !IsEmpty(d)
        invariant forall i, j :: 0 <= i < j < |entities| ==> entities[i].id != entities[j].id
        decreases todo
      {
        var id :| id in todo;
        ghost var done := aoi - todo;
        todo := todo - {id};
        assert aoi - todo == done + {id};
        if id != local && id in all {
          var d := Diff(Lookup(base, id), all[id]);
          if !IsEmpty(d) {
            forall i | 0 <= i < |entities| ensures entities[i].id != id { assert entities[i] in entities; }
            entities := entities + [d];
          }
        }
      }
      assert aoi - todo == aoi;

      var despawns: seq<EntityId>, ids := [], base.Keys;
      while ids != {}
        invariant ids <= base.Keys
        invariant forall id :: id in despawns <==> id in base.Keys - ids && id != local && (id !in aoi || id !in all)
        decreases ids
      {
        var id :| id in ids;
        ids := ids - {id};
        if id != local && (id !in aoi || id !in all) { despawns := despawns + [id]; }
      }

      baselines.RecordSnapshot(client, tick, Visible(all, aoi, local));
      snap := Snapshot(tick, btick, local, LocalState(all, local), entities, despawns);
      EncodedAsOwed(snap, old(baselines.clients), client, World(all, aoi), local);
    }
  }

  class WorldView {
    var tick: Tick
    var entities: Entities

    constructor ()
      ensures tick == 0 && entities == map[]
    {
      tick, entities := 0, map[];
    }

    method Apply(snap: Snapshot)
      modifies this
      ensures entities == ApplySnapshot(old(entities), snap) && tick == snap.tick
    {
      for i := 0 to |snap.entities|
        invariant entities == ApplyDeltas(old(entities), snap.entities[..i])
      {
        var d := snap.entities[i];
        assert snap.entities[..i+1][..i] == snap.entities[..i];
        var next := ApplyDelta(d, Lookup(entities, d.id));
        if next.Some? { entities := entities[d.id := next.value]; }
      }
      assert snap.entities[..|snap.entities|] == snap.entities;
      ghost var patched := entities;
      for i := 0 to |snap.despawns|
        invariant entities == RemoveAll(patched, snap.despawns[..i])
      {
        assert snap.despawns[..i+1] == snap.despawns[..i] + [snap.despawns[i]];
        entities := entities - {snap.despawns[i]};
      }
      assert snap.despawns[..|snap.despawns|] == snap.despawns;
      entities, tick := entities[snap.local := snap.localState], snap.tick;
    }
  }

  // ---- one client over a lossy, duplicating, reordering network ----

  datatype World = World(all: Entities, aoi: set<EntityId>)

  datatype Action =
    | Publish(tick: Tick, world: World, sent: Snapshot)
    | Receive(snap: Snapshot)
    | AckArrives(ack: Tick)

  /** Packets stay on the wire after delivery, so they may arrive twice, late or never;
      the same goes for acks. `log` is every world published so far. */
  datatype Net = Net(
    server: ClientBaselines<Entities>, log: seq<(Tick, World)>, wire: set<Snapshot>,
    view: Entities, viewTick: Tick, ackTick: Tick, acks: set<Tick>)

  const FRESH_NET := Net(ClientBaselines([], None), [], {}, map[], 0, 0, {0})

  /** Ticks are positive and ascend from one published world to the next. */
  ghost predicate Enabled(s: Net, a: Action, local: EntityId) {
    match a
    case Publish(t, w, snap) =>
      && t > 0 && (forall i :: 0 <= i < |s.log| ==> s.log[i].0 < t)
      && WellKeyed(w.all)
      && Encodes(snap, BaselineFor(s.server).1, w.all, w.aoi, local)
      && snap.tick == t && snap.baselineTick == BaselineFor(s.server).0
    case Receive(snap) => snap in s.wire
    case AckArrives(t) => t in s.acks
  }

  function Perform(s: Net, a: Action, local: EntityId): Net {
    match a
    case Publish(t, w, snap) =>
      s.(server := RecordIn(s.server, t, Visible(w.all, w.aoi, local)), log := s.log + [(t, w)],
         wire := s.wire + {snap})
    case Receive(snap) =>
      var ack := if snap.tick > s.ackTick then snap.tick else s.ackTick;
      s.(view := ApplySnapshot(s.view, snap), viewTick := snap.tick, ackTick := ack, acks := s.acks + {ack})
    case AckArrives(t) => s.(server := AckIn(s.server, t))
  }

  function RunNet(acts: seq<Action>, local: EntityId): Net {
    if acts == [] then FRESH_NET else Perform(RunNet(acts[..|acts|-1], local), acts[|acts|-1], local)
  }

  ghost predicate Legal(acts: seq<Action>, local: EntityId) {
    forall k :: 0 <= k < |acts| ==> Enabled(RunNet(acts[..k], local), acts[k], local)
  }

  /** What the client ought to hold at a tick: nothing before the first snapshot, then the
      target of the world published at that tick. */
  function TargetAt(log: seq<(Tick, World)>, t: Tick, local: EntityId): Entities {
    match Latest(log, t)
    case None => map[]
    case Some(w) => Target(w.all, w.aoi, local)
  }

  /** The set the authority sent at a tick. */
  function SentAt(log: seq<(Tick, World)>, t: Tick, local: EntityId): Entities {
    match Latest(log, t)
    case None => map[]
    case Some(w) => Visible(w.all, w.aoi, local)
  }

  ghost predicate Exact(s: Net, local: EntityId) {
    s.view == TargetAt(s.log, s.viewTick, local)
  }

  function SentSets(log: seq<(Tick, World)>, local: EntityId): seq<(Tick, Entities)> {
    Map((e: (Tick, World)) => (e.0, Visible(e.1.all, e.1.aoi, local)), log)
  }

  /** Every packet in flight encodes the world of its tick against the set sent at its
      baseline tick; the server's ring mirrors the log. */
  ghost predicate Inv(s: Net, local: EntityId) {
    && Ascending(s.log)
    && (forall i :: 0 <= i < |s.log| ==> s.log[i].0 > 0 && WellKeyed(s.log[i].1.all))
    && Mirrors(s.server.ring, SentSets(s.log, local))
    && (forall p :: p in s.wire ==> InLog(s.log, p, local))
  }

  ghost predicate InLog(log: seq<(Tick, World)>, p: Snapshot, local: EntityId) {
    && Latest(log, p.tick).Some?
    && (p.baselineTick == 0 || Latest(log, p.baselineTick).Some?)
    && var w := Latest(log, p.tick).value;
    && Encodes(p, SentAt(log, p.baselineTick, local), w.all, w.aoi, local)
  }

  lemma {:induction false} LatestSent(log: seq<(Tick, World)>, t: Tick, local: EntityId)
    ensures Latest(SentSets(log, local), t).Some? <==> Latest(log, t).Some?
    ensures Latest(log, t).Some? ==> Latest(SentSets(log, local), t) == Some(SentAt(log, t, local))
    ensures Latest(log, t).Some? ==> exists i :: 0 <= i < |log| && log[i] == (t, Latest(log, t).value)
  {
    if log != [] {
      var n := |log| - 1;
      LatestSent(log[..n], t, local);
      assert SentSets(log, local)[..n] == SentSets(log[..n], local);
    }
  }

  /** The baseline the encoder picks is the set sent at the tick it is labelled with. */
  lemma BaselineIsLogged(s: Net, local: EntityId)
    requires Inv(s, local)
    ensures BaselineFor(s.server).1 == SentAt(s.log, BaselineFor(s.server).0, local)
    ensures BaselineFor(s.server).0 == 0 || Latest(s.log, BaselineFor(s.server).0).Some?
  {
    LatestSent(s.log, BaselineFor(s.server).0, local);
    if s.server.acked.Some? {
      var t := s.server.acked.value;
      var i := Find(s.server.ring, t);
      if i < |s.server.ring| {
        assert Latest(SentSets(s.log, local), t) == Some(s.server.ring[i].1);
        LatestSent(s.log, t, local);
      }
    }
  }

  /** Publishing does not rewrite history. */
  lemma HistoryKept(log: seq<(Tick, World)>, t: Tick, w: World, t': Tick, local: EntityId)
    requires forall i :: 0 <= i < |log| ==> log[i].0 < t
    requires t' == 0 || Latest(log, t').Some?
    requires t > 0
    ensures t' < t && Latest(log + [(t, w)], t') == Latest(log, t')
    ensures SentAt(log + [(t, w)], t', local) == SentAt(log, t', local)
    ensures TargetAt(log + [(t, w)], t', local) == TargetAt(log, t', local)
  {
    LatestSent(log, t', local);
    assert (log + [(t, w)])[..|log|] == log;
  }

  lemma PublishKeepsPackets(s: Net, t: Tick, w: World, snap: Snapshot, local: EntityId)
    requires Inv(s, local) && Enabled(s, Publish(t, w, snap), local)
    ensures forall p :: p in s.wire + {snap} ==> InLog(s.log + [(t, w)], p, local)
  {
    forall p | p in s.wire ensures InLog(s.log + [(t, w)], p, local) {
      HistoryKept(s.log, t, w, p.tick, local);
      HistoryKept(s.log, t, w, p.baselineTick, local);
    }
    BaselineIsLogged(s, local);
    HistoryKept(s.log, t, w, snap.baselineTick, local);
    assert Latest(s.log + [(t, w)], t) == Some(w);
  }

  lemma PublishKeepsRing(s: Net, t: Tick, w: World, local: EntityId)
    requires Mirrors(s.server.ring, SentSets(s.log, local))
    ensures Mirrors(RecordIn(s.server, t, Visible(w.all, w.aoi, local)).ring, SentSets(s.log + [(t, w)], local))
  {
    var sent := Visible(w.all, w.aoi, local);
    RecordMirrors(s.server, SentSets(s.log, local), t, sent);
    assert SentSets(s.log + [(t, w)], local) == SentSets(s.log, local) + [(t, sent)];
  }

  lemma PublishKeepsLog(log: seq<(Tick, World)>, t: Tick, w: World)
    requires Ascending(log) && t > 0 && WellKeyed(w.all) && forall i :: 0 <= i < |log| ==> log[i].0 < t
    requires forall i :: 0 <= i < |log| ==> log[i].0 > 0 && WellKeyed(log[i].1.all)
    ensures var log' := log + [(t, w)];
            Ascending(log') && forall i :: 0 <= i < |log'| ==> log'[i].0 > 0 && WellKeyed(log'[i].1.all)
  {
  }

  lemma PublishKeepsInv(s: Net, t: Tick, w: World, snap: Snapshot, local: EntityId)
    requires Inv(s, local) && Enabled(s, Publish(t, w, snap), local)
    ensures Inv(Perform(s, Publish(t, w, snap), local), local)
  {
    PublishKeepsLog(s.log, t, w);
    PublishKeepsPackets(s, t, w, snap, local);
    PublishKeepsRing(s, t, w, local);
    var s' := Perform(s, Publish(t, w, snap), local);
    assert s'.log == s.log + [(t, w)] && s'.wire == s.wire + {snap};
  }

  ghost predicate ViewLogged(s: Net) {
    s.viewTick == 0 || Latest(s.log, s.viewTick).Some?
  }

  lemma StepKeepsInv(s: Net, a: Action, local: EntityId)
    requires Inv(s, local) && ViewLogged(s) && Enabled(s, a, local)
    ensures Inv(Perform(s, a, local), local) && ViewLogged(Perform(s, a, local))
  {
    match a
    case Publish(t, w, snap) =>
      PublishKeepsInv(s, t, w, snap, local);
      HistoryKept(s.log, t, w, s.viewTick, local);
    case Receive(_) =>
    case AckArrives(_) =>
  }

  lemma {:induction false} RunKeepsInv(acts: seq<Action>, local: EntityId)
    requires Legal(acts, local)
    ensures Inv(RunNet(acts, local), local) && ViewLogged(RunNet(acts, local))
  {
    if acts != [] {
      var before := acts[..|acts|-1];
      assert forall k :: 0 <= k < |before| ==> before[..k] == acts[..k];
      RunKeepsInv(before, local);
      StepKeepsInv(RunNet(before, local), acts[|acts|-1], local);
    }
  }

  // ---- which baseline is on the wire ----

  /** The acks that have reached the authority. */
  function Arrived(acts: seq<Action>): set<Tick> {
    if acts == [] then {}
    else Arrived(acts[..|acts|-1]) + if acts[|acts|-1].AckArrives? then {acts[|acts|-1].ack} else {}
  }

  /** `t` is one of the last 32 ticks published. */
  ghost predicate Recent(log: seq<(Tick, World)>, t: Tick) {
    exists i :: 0 <= i < |log| && |log| - BASELINE_RING <= i && log[i].0 == t
  }

  lemma {:induction false} MarkIsNewestAck(acts: seq<Action>, local: EntityId)
    ensures IsMark(RunNet(acts, local).server.acked, Arrived(acts))
  {
    if acts != [] { MarkIsNewestAck(acts[..|acts|-1], local); }
  }

  lemma PublishedTicks(log: seq<(Tick, World)>, local: EntityId)
    requires Ascending(log)
    ensures var ticks := Admitted(SentSets(log, local));
            |ticks| == |log| && forall i :: 0 <= i < |log| ==> ticks[i] == log[i].0
  {
    AscendingAdmits(SentSets(log, local));
  }

  lemma InNewestIff<T>(s: seq<T>, x: T)
    ensures x in Newest(s) <==> exists i :: 0 <= i < |s| && |s| - BASELINE_RING <= i && s[i] == x
  {
    var first := |s| - |Newest(s)|;
    assert Newest(s) == s[first..];
    if i :| 0 <= i < |s| && |s| - BASELINE_RING <= i && s[i] == x { assert Newest(s)[i - first] == x; }
  }

  lemma RetainedIsRecent(log: seq<(Tick, World)>, t: Tick, local: EntityId)
    requires Ascending(log)
    ensures t in Newest(Admitted(SentSets(log, local))) <==> Recent(log, t)
  {
    PublishedTicks(log, local);
    InNewestIff(Admitted(SentSets(log, local)), t);
  }

  /** The newest ack that arrived names the baseline, if it is recent. */
  ghost predicate NamesBaseline(log: seq<(Tick, World)>, acks: set<Tick>, t: Tick) {
    IsMark(Some(t), acks) && Recent(log, t)
  }

  /** Whatever the network did, a snapshot goes out against the set sent at the largest tick whose
      ack had arrived, as long as that is one of the last 32 published, and as a keyframe otherwise. */
  lemma PublishedAgainstNewestAck(acts: seq<Action>, k: nat, local: EntityId)
    requires Legal(acts, local) && k < |acts| && acts[k].Publish?
    ensures var log, acks, w, snap := RunNet(acts[..k], local).log, Arrived(acts[..k]), acts[k].world, acts[k].sent;
            && (if NamesBaseline(log, acks, snap.baselineTick)
                then Encodes(snap, SentAt(log, snap.baselineTick, local), w.all, w.aoi, local)
                else snap.baselineTick == 0 && Encodes(snap, map[], w.all, w.aoi, local))
            && forall t :: NamesBaseline(log, acks, t) ==> snap.baselineTick == t
  {
    var s, snap := RunNet(acts[..k], local), acts[k].sent;
    assert forall j :: 0 <= j < k ==> acts[..k][..j] == acts[..j];
    RunKeepsInv(acts[..k], local);
    MarkIsNewestAck(acts[..k], local);
    BaselineIsLogged(s, local);
    var sent, acks := SentSets(s.log, local), Arrived(acts[..k]);
    BaselineIsOwed(s.server, sent, acks);
    forall t ensures t in Newest(Admitted(sent)) <==> Recent(s.log, t) { RetainedIsRecent(s.log, t, local); }
    forall t | NamesBaseline(s.log, acks, t)
      ensures snap.baselineTick == t
    {
      MirroredLookup(s.server, sent, t);
      assert Latest(sent, t).Some?;
      assert Confirmed(sent, acks, t, Latest(sent, t).value);
    }
  }

  /** The client has received the snapshot of tick `t`. */
  ghost predicate Received(acts: seq<Action>, t: Tick) {
    exists k :: 0 <= k < |acts| && acts[k].Receive? && acts[k].snap.tick == t
  }

  lemma ReceivedLater(acts: seq<Action>, t: Tick)
    requires acts != []
    ensures Received(acts, t) <==>
            Received(acts[..|acts|-1], t) || (acts[|acts|-1].Receive? && acts[|acts|-1].snap.tick == t)
  {
    if Received(acts[..|acts|-1], t) {
      var k :| 0 <= k < |acts| - 1 && acts[..|acts|-1][k].Receive? && acts[..|acts|-1][k].snap.tick == t;
      assert acts[k].Receive? && acts[k].snap.tick == t;
    }
  }

  /** What a client acks is the highest tick it has received so far, in whatever order snapshots came;
      every ack it ever sends names a tick received, or none at all. */
  lemma {:induction false} AcksNameHighest(acts: seq<Action>, local: EntityId)
    ensures var s := RunNet(acts, local);
            && s.ackTick in s.acks
            && (forall t: Tick :: Received(acts, t) ==> t <= s.ackTick)
            && (forall t: Tick :: t in s.acks ==> t <= s.ackTick && (t == 0 || Received(acts, t)))
            && (acts != [] && acts[|acts|-1].Receive? ==> s.ackTick in s.acks && s.ackTick >= acts[|acts|-1].snap.tick)
  {
    if acts != [] {
      AcksNameHighest(acts[..|acts|-1], local);
      forall t: Tick
        ensures Received(acts, t) <==>
                Received(acts[..|acts|-1], t) || (acts[|acts|-1].Receive? && acts[|acts|-1].snap.tick == t)
      {
        ReceivedLater(acts, t);
      }
    }
  }

  lemma {:induction false} ArrivedWasSent(acts: seq<Action>, local: EntityId)
    requires Legal(acts, local)
    ensures Arrived(acts) <= RunNet(acts, local).acks
  {
    if acts != [] {
      var before := acts[..|acts|-1];
      assert forall k :: 0 <= k < |before| ==> before[..k] == acts[..k];
      ArrivedWasSent(before, local);
    }
  }

  /** So no delta is ever taken against a world the client has not received. */
  lemma BaselinesWereReceived(acts: seq<Action>, k: nat, local: EntityId)
    requires Legal(acts, local) && k < |acts| && acts[k].Publish?
    ensures acts[k].sent.baselineTick == 0 || Received(acts[..k], acts[k].sent.baselineTick)
  {
    assert forall j :: 0 <= j < k ==> acts[..k][..j] == acts[..j];
    ArrivedWasSent(acts[..k], local);
    AcksNameHighest(acts[..k], local);
    PublishedAgainstNewestAck(acts, k, local);
  }

  /** The client always holds itself after a snapshot: as published, or, while it is not in the world,
      dead at the origin. */
  lemma OwnEntityIsHeld(view: Entities, snap: Snapshot, base: Entities, all: Entities, aoi: set<EntityId>,
                        local: EntityId)
    requires Encodes(snap, base, all, aoi, local) && WellKeyed(all)
    ensures local in ApplySnapshot(view, snap) && ApplySnapshot(view, snap)[local].id == local
    ensures local in all ==> ApplySnapshot(view, snap)[local] == all[local]
    ensures local !in all ==>
              var me := ApplySnapshot(view, snap)[local].motion;
              && me.flags == 0x20 && me.health == 0 && me.armor == 0 && me.weapon == 0
              && me.pos == ZERO && me.vel == ZERO && me.yaw == 0.0 && me.pitch == 0.0
  {
  }

  /** What is on the wire was published. */
  lemma {:induction false} WireIsPublished(acts: seq<Action>, p: Snapshot, local: EntityId)
    requires p in RunNet(acts, local).wire
    ensures exists k :: 0 <= k < |acts| && acts[k].Publish? && acts[k].sent == p
  {
    var n := |acts| - 1;
    if acts[n].Publish? && acts[n].sent == p { return; }
    WireIsPublished(acts[..n], p, local);
  }

  /** What a delivery needs, in terms of the published worlds alone: the one the view shows,
      the one the delta was taken against, and the one it leads to. */
  ghost predicate DeliveryReady(s: Net, snap: Snapshot, local: EntityId) {
    Ready(TargetAt(s.log, s.viewTick, local), SentAt(s.log, snap.baselineTick, local),
          TargetAt(s.log, snap.tick, local), local)
  }

  lemma LoggedWellKeyed(log: seq<(Tick, World)>, t: Tick, local: EntityId)
    requires forall i :: 0 <= i < |log| ==> WellKeyed(log[i].1.all)
    ensures WellKeyed(TargetAt(log, t, local)) && WellKeyed(SentAt(log, t, local))
  {
    LatestSent(log, t, local);
  }

  /** From an exact view, a delivery leads to an exact view exactly when it is ready. */
  lemma DeliveryExactIff(s: Net, snap: Snapshot, local: EntityId)
    requires Inv(s, local) && snap in s.wire && Exact(s, local)
    ensures Exact(Perform(s, Receive(snap), local), local) <==> DeliveryReady(s, snap, local)
  {
    assert InLog(s.log, snap, local);
    LoggedWellKeyed(s.log, s.viewTick, local);
    LoggedWellKeyed(s.log, snap.baselineTick, local);
    LatestSent(s.log, snap.tick, local);
    var w := Latest(s.log, snap.tick).value;
    SnapshotExactIff(s.view, snap, SentAt(s.log, snap.baselineTick, local), w.all, w.aoi, local);
  }

  lemma StepExactIff(s: Net, a: Action, local: EntityId)
    requires Inv(s, local) && ViewLogged(s) && Enabled(s, a, local) && Exact(s, local)
    ensures Exact(Perform(s, a, local), local) <==> (a.Receive? ==> DeliveryReady(s, a.snap, local))
  {
    match a
    case Publish(t, w, _) => HistoryKept(s.log, t, w, s.viewTick, local);
    case Receive(snap) => DeliveryExactIff(s, snap, local);
    case AckArrives(_) =>
  }

  /** Exact after every prefix of the run. */
  ghost predicate AlwaysExact(acts: seq<Action>, local: EntityId) {
    Exact(RunNet(acts, local), local) && (acts != [] ==> AlwaysExact(acts[..|acts|-1], local))
  }

  /** Every delivery of the run was ready when it happened. */
  ghost predicate AlwaysReady(acts: seq<Action>, local: EntityId) {
    acts != [] ==>
      var before, a := acts[..|acts|-1], acts[|acts|-1];
      AlwaysReady(before, local) && (a.Receive? ==> DeliveryReady(RunNet(before, local), a.snap, local))
  }

  /** Over every legal run - packets and acks lost, duplicated, reordered - the client's view
      equals the published view at its tick after every action, exactly when every delivery
      was ready. */
  lemma {:induction false} RunExactIff(acts: seq<Action>, local: EntityId)
    requires Legal(acts, local)
    ensures AlwaysExact(acts, local) <==> AlwaysReady(acts, local)
  {
    if acts != [] {
      var before, a := acts[..|acts|-1], acts[|acts|-1];
      assert forall k :: 0 <= k < |before| ==> before[..k] == acts[..k];
      assert Legal(before, local);
      RunExactIff(before, local);
      RunKeepsInv(before, local);
      if Exact(RunNet(before, local), local) { StepExactIff(RunNet(before, local), a, local); }
    }
  }

  lemma RunLonger(acts: seq<Action>, a: Action, local: EntityId)
    requires Legal(acts, local) && Enabled(RunNet(acts, local), a, local)
    ensures RunNet(acts + [a], local) == Perform(RunNet(acts, local), a, local)
    ensures Legal(acts + [a], local)
  {
    var more := acts + [a];
    assert more[..|acts|] == acts;
    forall k | 0 <= k < |more| ensures Enabled(RunNet(more[..k], local), more[k], local) {
      assert k < |acts| ==> more[..k] == acts[..k];
    }
  }

  const STANDING := Motion(ZERO, ZERO, 0.0, 0.0, 0, 100, 0, 0)

  const SELF := EntityState(1, Identity(Player, Red, "self"), STANDING)

  const OTHER := EntityState(2, Identity(Player, Blue, "other"), STANDING)

  const TWO_PLAYERS := World(map[1 := SELF, 2 := OTHER], {1, 2})

  const ONE_PLAYER := World(map[1 := SELF], {1})

  /** A keyframe carrying both players, and one after the other player has left. */
  const BOTH := Snapshot(1, 0, 1, SELF, [Diff(None, OTHER)], [])

  const ALONE := Snapshot(2, 0, 1, SELF, [], [])

  lemma KeyframesEncode()
    ensures Encodes(BOTH, map[], TWO_PLAYERS.all, TWO_PLAYERS.aoi, 1)
    ensures Encodes(ALONE, map[], ONE_PLAYER.all, ONE_PLAYER.aoi, 1)
  {
    var d := Diff(None, OTHER);
    assert Lookup(map[], 2) == None && TWO_PLAYERS.all[2] == OTHER && !IsEmpty(d);
    assert d == Diff(Lookup(map[], 2), TWO_PLAYERS.all[2]);
  }

  /** `snap` may be published next, as a keyframe: no ack has come in. */
  ghost predicate Keyframed(s: Net, t: Tick, w: World, snap: Snapshot, local: EntityId) {
    && s.server.acked.None?
    && t > 0 && (forall i :: 0 <= i < |s.log| ==> s.log[i].0 < t)
    && WellKeyed(w.all) && Encodes(snap, map[], w.all, w.aoi, local)
    && snap.tick == t && snap.baselineTick == 0
  }

  function Performed(s: Net, t: Tick, w: World, snap: Snapshot, local: EntityId): Net {
    Perform(Perform(s, Publish(t, w, snap), local), Receive(snap), local)
  }

  lemma KeyframeLands(s: Net, t: Tick, w: World, snap: Snapshot, local: EntityId)
    requires Keyframed(s, t, w, snap, local)
    ensures Enabled(s, Publish(t, w, snap), local)
    ensures Enabled(Perform(s, Publish(t, w, snap), local), Receive(snap), local)
    ensures var s' := Performed(s, t, w, snap, local);
            && s'.view == ApplySnapshot(s.view, snap) && s'.viewTick == t
            && s'.log == s.log + [(t, w)] && s'.server.acked.None?
  {
  }

  /** A snapshot published to a client that never acked, and delivered at once. */
  lemma Delivered(acts: seq<Action>, t: Tick, w: World, snap: Snapshot, local: EntityId)
    requires Legal(acts, local) && Keyframed(RunNet(acts, local), t, w, snap, local)
    ensures Legal(acts + [Publish(t, w, snap)] + [Receive(snap)], local)
    ensures RunNet(acts + [Publish(t, w, snap)] + [Receive(snap)], local) ==
            Performed(RunNet(acts, local), t, w, snap, local)
  {
    KeyframeLands(RunNet(acts, local), t, w, snap, local);
    RunLonger(acts, Publish(t, w, snap), local);
    RunLonger(acts + [Publish(t, w, snap)], Receive(snap), local);
  }

  /** Against an empty baseline there is nothing to despawn: whatever the client held, it keeps. */
  lemma KeyframeDespawnsNobody(view: Entities, snap: Snapshot, all: Entities, aoi: set<EntityId>, local: EntityId,
                               id: EntityId)
    requires Encodes(snap, map[], all, aoi, local) && WellKeyed(all) && id in view
    ensures id in ApplySnapshot(view, snap)
  {
    ViewAfter(view, snap, map[], all, aoi, local, id);
    assert Lookup(view, id).Some?;
  }

  lemma BothArrive() returns (acts: seq<Action>)
    ensures Legal(acts, 1)
    ensures 2 in RunNet(acts, 1).view
    ensures RunNet(acts, 1).log == [(1, TWO_PLAYERS)] && RunNet(acts, 1).server.acked.None?
  {
    KeyframesEncode();
    KeyframeLands(FRESH_NET, 1, TWO_PLAYERS, BOTH, 1);
    Delivered([], 1, TWO_PLAYERS, BOTH, 1);
    acts := [] + [Publish(1, TWO_PLAYERS, BOTH)] + [Receive(BOTH)];
    ViewAfter(map[], BOTH, map[], TWO_PLAYERS.all, TWO_PLAYERS.aoi, 1, 2);
  }

  /** An entity the client holds and the keyframe's world does not stays in the view. */
  lemma GhostStays(s: Net, t: Tick, w: World, snap: Snapshot, local: EntityId, id: EntityId)
    requires Keyframed(s, t, w, snap, local) && id in s.view && id !in Target(w.all, w.aoi, local)
    ensures var s' := Performed(s, t, w, snap, local);
            id in s'.view && id !in TargetAt(s'.log, s'.viewTick, local) && !Exact(s', local)
  {
    KeyframeLands(s, t, w, snap, local);
    KeyframeDespawnsNobody(s.view, snap, w.all, w.aoi, local, id);
    assert Latest(s.log + [(t, w)], t) == Some(w);
  }

  /** The order of events a lossy network makes ordinary: a keyframe arrives, its ack is lost, a
      player leaves, and the next snapshot is a keyframe again. A keyframe despawns nobody, so the
      player who left stays in the view. */
  lemma KeyframeLeavesGhosts() returns (acts: seq<Action>)
    ensures Legal(acts, 1) && !AlwaysExact(acts, 1)
    ensures RunNet(acts, 1).log == [(1, TWO_PLAYERS), (2, ONE_PLAYER)] && RunNet(acts, 1).viewTick == 2
    ensures 2 in RunNet(acts, 1).view && 2 !in TargetAt(RunNet(acts, 1).log, 2, 1)
  {
    KeyframesEncode();
    var before := BothArrive();
    GhostStays(RunNet(before, 1), 2, ONE_PLAYER, ALONE, 1, 2);
    KeyframeLands(RunNet(before, 1), 2, ONE_PLAYER, ALONE, 1);
    Delivered(before, 2, ONE_PLAYER, ALONE, 1);
    acts := before + [Publish(2, ONE_PLAYER, ALONE)] + [Receive(ALONE)];
  }

  /** The discipline that always works: nobody changes kind, team or owner, and the client
      applies a delta only on the view it was taken against (a keyframe only on a fresh one). */
  ghost predicate Disciplined(acts: seq<Action>, local: EntityId, who: EntityId -> Identity) {
    forall k :: 0 <= k < |acts| ==>
      match acts[k]
      case Publish(_, w, _) => forall id :: id in w.all ==> w.all[id].identity == who(id)
      case Receive(snap) => snap.baselineTick == RunNet(acts[..k], local).viewTick
      case AckArrives(_) => true
  }

  lemma {:induction false} DisciplinedLog(acts: seq<Action>, local: EntityId, who: EntityId -> Identity)
    requires Disciplined(acts, local, who)
    ensures forall i :: 0 <= i < |RunNet(acts, local).log| ==>
              forall id :: id in RunNet(acts, local).log[i].1.all ==>
                RunNet(acts, local).log[i].1.all[id].identity == who(id)
  {
    if acts != [] {
      var before := acts[..|acts|-1];
      assert forall k :: 0 <= k < |before| ==> before[..k] == acts[..k];
      DisciplinedLog(before, local, who);
    }
  }

  lemma DisciplinedDelivery(s: Net, snap: Snapshot, local: EntityId, who: EntityId -> Identity)
    requires snap.baselineTick == s.viewTick
    requires forall i :: 0 <= i < |s.log| ==> forall id :: id in s.log[i].1.all ==>
             s.log[i].1.all[id].identity == who(id)
    ensures DeliveryReady(s, snap, local)
  {
    LatestSent(s.log, snap.tick, local);
    LatestSent(s.log, snap.baselineTick, local);
  }

  lemma {:induction false} DisciplinedRunsAreReady(acts: seq<Action>, local: EntityId, who: EntityId -> Identity)
    requires Disciplined(acts, local, who)
    ensures AlwaysReady(acts, local)
  {
    if acts != [] {
      var before, a := acts[..|acts|-1], acts[|acts|-1];
      assert forall k :: 0 <= k < |before| ==> before[..k] == acts[..k];
      DisciplinedRunsAreReady(before, local, who);
      DisciplinedLog(before, local, who);
      if a.Receive? { DisciplinedDelivery(RunNet(before, local), a.snap, local, who); }
    }
  }

  /** A client that keeps to the discipline is exact throughout, however the network behaves. */
  lemma DisciplinedRunsAreExact(acts: seq<Action>, local: EntityId, who: EntityId -> Identity)
    requires Legal(acts, local) && Disciplined(acts, local, who)
    ensures AlwaysExact(acts, local)
  {
    DisciplinedRunsAreReady(acts, local, who);
    RunExactIff(acts, local);
  }
}
