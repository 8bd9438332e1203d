/** The bounded per-client history of sent snapshots (arena-net), refined against the full log of
    what was sent, whatever the order of ticks. `S` is the entity set remembered for a tick, and
    `acked` the mark a client has confirmed. */
module Baseline {
  import opened Protocol
  import opened Sorting
  import opened Wrappers

  const BASELINE_RING := 32

  datatype ClientBaselines<S> = ClientBaselines(ring: seq<(Tick, S)>, acked: Option<Tick>)

  datatype Op<S> =
    | Record(client: NodeId, tick: Tick, entities: S)
    | Ack(client: NodeId, tick: Tick)
    | Forget(client: NodeId)

  // ---- what the code computes, as functions ----

  /** Position of `tick` in the ring, or its length. */
  function Find<S>(ring: seq<(Tick, S)>, tick: Tick): (i: nat)
    ensures i <= |ring|
    ensures i < |ring| ==> ring[i].0 == tick
    ensures forall j :: 0 <= j < i ==> ring[j].0 != tick
  {
    if ring == [] || ring[0].0 == tick then 0 else 1 + Find(ring[1..], tick)
  }

  function Get<S>(c: ClientBaselines<S>, tick: Tick): Option<S> {
    var i := Find(c.ring, tick);
    if i < |c.ring| then Some(c.ring[i].1) else None
  }

  /** The last `BASELINE_RING` elements. */
  function Newest<T>(s: seq<T>): (r: seq<T>)
    ensures |r| <= BASELINE_RING
  {
    if |s| <= BASELINE_RING then s else s[|s| - BASELINE_RING..]
  }

  function RecordIn<S>(c: ClientBaselines<S>, tick: Tick, entities: S): ClientBaselines<S> {
    var i := Find(c.ring, tick);
    if i < |c.ring| then c.(ring := c.ring[i := (tick, entities)])
    else c.(ring := Newest(c.ring + [(tick, entities)]))
  }

  function AckIn<S>(c: ClientBaselines<S>, tick: Tick): ClientBaselines<S> {
    if c.acked.Some? && c.acked.value >= tick then c else c.(acked := Some(tick))
  }

  function ClientOf<S>(m: map<NodeId, ClientBaselines<S>>, c: NodeId): ClientBaselines<S> {
    if c in m then m[c] else ClientBaselines([], None)
  }

  function Step<S>(m: map<NodeId, ClientBaselines<S>>, op: Op<S>): map<NodeId, ClientBaselines<S>> {
    match op
    case Record(c, t, s) => m[c := RecordIn(ClientOf(m, c), t, s)]
    case Ack(c, t) => m[c := AckIn(ClientOf(m, c), t)]
    case Forget(c) => m - {c}
  }

  function Run<S>(ops: seq<Op<S>>): map<NodeId, ClientBaselines<S>> {
    if ops == [] then map[] else Step(Run(ops[..|ops|-1]), ops[|ops|-1])
  }

  // ---- the log it must agree with ----

  /** Everything recorded for a client since it was last forgotten, in order. */
  function Sent<S>(ops: seq<Op<S>>, c: NodeId): seq<(Tick, S)> {
    if ops == [] then []
    else
      var before := Sent(ops[..|ops|-1], c);
      match ops[|ops|-1]
      case Record(c', t, s) => if c' == c then before + [(t, s)] else before
      case Ack(_, _) => before
      case Forget(c') => if c' == c then [] else before
  }

  /** Every tick a client acknowledged since it was last forgotten. */
  function Acks<S>(ops: seq<Op<S>>, c: NodeId): set<Tick> {
    if ops == [] then {}
    else
      var before := Acks(ops[..|ops|-1], c);
      match ops[|ops|-1]
      case Record(_, _, _) => before
      case Ack(c', t) => if c' == c then before + {t} else before
      case Forget(c') => if c' == c then {} else before
  }

  /** The ticks a bounded first-in first-out window admits: a tick enters when it is
      recorded while it is not among the newest `BASELINE_RING` entries. */
  function Admitted<S>(log: seq<(Tick, S)>): seq<Tick> {
    if log == [] then []
    else
      var before, t := Admitted(log[..|log|-1]), log[|log|-1].0;
      if t in Newest(before) then before else before + [t]
  }

  /** The set recorded last for `tick`. */
  function Latest<S>(log: seq<(Tick, S)>, tick: Tick): Option<S> {
    if log == [] then None
    else if log[|log|-1].0 == tick then Some(log[|log|-1].1)
    else Latest(log[..|log|-1], tick)
  }

  // ---- refinement ----

  ghost predicate Distinct<T>(s: seq<T>) {
    forall i, j :: 0 <= i < j < |s| ==> s[i] != s[j]
  }

  /** The ring is the window over the log: same ticks in the same order, latest sets. */
  ghost predicate Mirrors<S>(ring: seq<(Tick, S)>, log: seq<(Tick, S)>) {
    var ticks := Newest(Admitted(log));
    Distinct(ticks) && Aligned(ring, ticks, log)
  }

  ghost predicate Aligned<S>(ring: seq<(Tick, S)>, ticks: seq<Tick>, log: seq<(Tick, S)>) {
    |ring| == |ticks| && forall i :: 0 <= i < |ring| ==>
      ring[i].0 == ticks[i] && Latest(log, ticks[i]) == Some(ring[i].1)
  }

  /** Re-recording a retained tick replaces its set in place. */
  lemma ReplaceMirrors<S>(ring: seq<(Tick, S)>, log: seq<(Tick, S)>, t: Tick, s: S)
    requires Mirrors(ring, log) && Find(ring, t) < |ring|
    ensures Mirrors(ring[Find(ring, t) := (t, s)], log + [(t, s)])
  {
    var ticks, i := Newest(Admitted(log)), Find(ring, t);
    assert (log + [(t, s)])[..|log|] == log;
    assert ticks[i] == t;
    assert Admitted(log + [(t, s)]) == Admitted(log);
    ReplaceAligned(ring, ticks, log, i, t, s);
  }

  lemma ReplaceAligned<S>(ring: seq<(Tick, S)>, ticks: seq<Tick>, log: seq<(Tick, S)>, i: nat, t: Tick, s: S)
    requires Distinct(ticks) && Aligned(ring, ticks, log) && i < |ticks| && ticks[i] == t
    ensures Aligned(ring[i := (t, s)], ticks, log + [(t, s)])
  {
    assert (log + [(t, s)])[..|log|] == log;
    assert forall j :: 0 <= j < |ticks| && j != i ==> ticks[j] != t;
  }

  lemma NewestAppend<T>(s: seq<T>, x: T)
    ensures Newest(s + [x]) == Newest(Newest(s) + [x])
  {
  }

  lemma DistinctAppend<T>(s: seq<T>, x: T)
    requires Distinct(s) && x !in s
    ensures Distinct(Newest(s + [x]))
  {
    assert Distinct(s + [x]);
  }

  lemma AlignedAppend<S>(ring: seq<(Tick, S)>, ticks: seq<Tick>, log: seq<(Tick, S)>, t: Tick, s: S)
    requires Aligned(ring, ticks, log) && t !in ticks
    ensures Aligned(Newest(ring + [(t, s)]), Newest(ticks + [t]), log + [(t, s)])
  {
    assert (log + [(t, s)])[..|log|] == log;
    assert Aligned(ring + [(t, s)], ticks + [t], log + [(t, s)]);
  }

  /** Recording any other tick pushes it in and the oldest one out. */
  lemma AppendMirrors<S>(ring: seq<(Tick, S)>, log: seq<(Tick, S)>, t: Tick, s: S)
    requires Mirrors(ring, log) && Find(ring, t) == |ring|
    ensures Mirrors(Newest(ring + [(t, s)]), log + [(t, s)])
  {
    var ticks := Newest(Admitted(log));
    assert forall k :: 0 <= k < |ticks| ==> ring[k].0 == ticks[k] != t;
    assert t !in ticks;
    AlignedAppend(ring, ticks, log, t, s);
    DistinctAppend(ticks, t);
    NewestAppend(Admitted(log), t);
    assert (log + [(t, s)])[..|log|] == log;
    assert Admitted(log + [(t, s)]) == Admitted(log) + [t];
  }

  lemma RecordMirrors<S>(c: ClientBaselines<S>, log: seq<(Tick, S)>, t: Tick, s: S)
    requires Mirrors(c.ring, log)
    ensures Mirrors(RecordIn(c, t, s).ring, log + [(t, s)])
  {
    if Find(c.ring, t) < |c.ring| { ReplaceMirrors(c.ring, log, t, s); } else { AppendMirrors(c.ring, log, t, s); }
  }

  /** The acked mark is the largest tick acknowledged. */
  ghost predicate IsMark(mark: Option<Tick>, acks: set<Tick>) {
    if mark.None? then acks == {} else mark.value in acks && forall t :: t in acks ==> t <= mark.value
  }

  ghost predicate Agrees<S>(c: ClientBaselines<S>, sent: seq<(Tick, S)>, acks: set<Tick>) {
    Mirrors(c.ring, sent) && IsMark(c.acked, acks)
  }

  lemma RecordAgrees<S>(c: ClientBaselines<S>, sent: seq<(Tick, S)>, acks: set<Tick>, t: Tick, s: S)
    requires Agrees(c, sent, acks)
    ensures Agrees(RecordIn(c, t, s), sent + [(t, s)], acks)
  {
    RecordMirrors(c, sent, t, s);
  }

  /** The client's state after any run is a function of what was sent to it and what it
      acked since it was last forgotten; other clients do not matter. */
  lemma {:induction false} RunMirrors<S>(ops: seq<Op<S>>, c: NodeId)
    ensures Agrees(ClientOf(Run(ops), c), Sent(ops, c), Acks(ops, c))
  {
    if ops != [] {
      var before := ops[..|ops|-1];
      RunMirrors(before, c);
      var m, sent, acks := Run(before), Sent(before, c), Acks(before, c);
      match ops[|ops|-1]
      case Record(c', t, s) => if c' == c { RecordAgrees(ClientOf(m, c), sent, acks, t, s); }
      case Ack(c', t) => if c' == c { AckAgrees(ClientOf(m, c), sent, acks, t); }
      case Forget(_) =>
    }
  }

  lemma AckAgrees<S>(c: ClientBaselines<S>, sent: seq<(Tick, S)>, acks: set<Tick>, t: Tick)
    requires Agrees(c, sent, acks)
    ensures Agrees(AckIn(c, t), sent, acks + {t})
  {
  }

  lemma MirroredLookup<S>(c: ClientBaselines<S>, log: seq<(Tick, S)>, t: Tick)
    requires Mirrors(c.ring, log)
    ensures Get(c, t) == if t in Newest(Admitted(log)) then Latest(log, t) else None
  {
    var ring, ticks := c.ring, Newest(Admitted(log));
    if t in ticks {
      var k :| 0 <= k < |ticks| && ticks[k] == t;
      assert ring[k].0 == t;
      assert Find(ring, t) < |ring|;
    }
  }

  /** Lookup agrees with the log: the latest set of a retained tick, nothing otherwise. */
  lemma RingRefinesLog<S>(ops: seq<Op<S>>, c: NodeId, t: Tick)
    ensures |ClientOf(Run(ops), c).ring| <= BASELINE_RING
    ensures Get(ClientOf(Run(ops), c), t)
         == if t in Newest(Admitted(Sent(ops, c))) then Latest(Sent(ops, c), t) else None
  {
    RunMirrors(ops, c);
    MirroredLookup(ClientOf(Run(ops), c), Sent(ops, c), t);
  }

  ghost predicate Ascending<S>(log: seq<(Tick, S)>) {
    forall i, j :: 0 <= i < j < |log| ==> log[i].0 < log[j].0
  }

  lemma {:induction false} AscendingLatest<S>(log: seq<(Tick, S)>, i: nat)
    requires Ascending(log) && i < |log|
    ensures Latest(log, log[i].0) == Some(log[i].1)
  {
    if i < |log| - 1 { AscendingLatest(log[..|log|-1], i); }
  }

  lemma NewestKeepsOut<T>(s: seq<T>, x: T)
    requires x !in s
    ensures x !in Newest(s)
  {
  }

  lemma {:induction false} AscendingAdmits<S>(log: seq<(Tick, S)>)
    requires Ascending(log)
    ensures |Admitted(log)| == |log| && forall i :: 0 <= i < |log| ==> Admitted(log)[i] == log[i].0
  {
    if log != [] {
      var before, t := log[..|log|-1], log[|log|-1].0;
      AscendingAdmits(before);
      var admitted := Admitted(before);
      assert forall i :: 0 <= i < |admitted| ==> admitted[i] < t;
      NewestKeepsOut(admitted, t);
      assert Admitted(log) == admitted + [t];
    }
  }

  lemma AlignedIsUnique<S>(ring: seq<(Tick, S)>, ring': seq<(Tick, S)>, ticks: seq<Tick>, log: seq<(Tick, S)>)
    requires Aligned(ring, ticks, log) && Aligned(ring', ticks, log)
    ensures ring == ring'
  {
    forall i | 0 <= i < |ring| ensures ring[i] == ring'[i] {
      assert Latest(log, ticks[i]) == Some(ring[i].1) && Latest(log, ticks[i]) == Some(ring'[i].1);
    }
  }

  lemma NewestAt<T>(s: seq<T>, i: nat)
    requires i < |Newest(s)|
    ensures |Newest(s)| == if |s| <= BASELINE_RING then |s| else BASELINE_RING
    ensures Newest(s)[i] == s[|s| - |Newest(s)| + i]
  {
  }

  lemma NewestAlignedAt<S>(log: seq<(Tick, S)>, admitted: seq<Tick>, i: nat)
    requires Ascending(log) && i < |Newest(log)|
    requires |admitted| == |log| && forall j :: 0 <= j < |log| ==> admitted[j] == log[j].0
    ensures |Newest(log)| == |Newest(admitted)|
    ensures Newest(log)[i].0 == Newest(admitted)[i]
    ensures Latest(log, Newest(admitted)[i]) == Some(Newest(log)[i].1)
  {
    NewestAt(log, i);
    NewestAt(admitted, i);
    AscendingLatest(log, |log| - |Newest(log)| + i);
  }

  /** A server that sends ticks in order keeps exactly the newest 32 snapshots, as sent. */
  lemma AscendingTicksKeepNewest<S>(ops: seq<Op<S>>, c: NodeId)
    requires Ascending(Sent(ops, c))
    ensures ClientOf(Run(ops), c).ring == Newest(Sent(ops, c))
  {
    var log := Sent(ops, c);
    RunMirrors(ops, c);
    AscendingAdmits(log);
    forall i: nat | i < |Newest(log)|
      ensures Newest(log)[i].0 == Newest(Admitted(log))[i]
      ensures Latest(log, Newest(Admitted(log))[i]) == Some(Newest(log)[i].1)
    {
      NewestAlignedAt(log, Admitted(log), i);
    }
    assert |Newest(log)| == |Newest(Admitted(log))|;
    assert Aligned(Newest(log), Newest(Admitted(log)), log);
    AlignedIsUnique(ClientOf(Run(ops), c).ring, Newest(log), Newest(Admitted(log)), log);
  }

  /** Forgotten means forgotten, whatever had been sent or acked. */
  lemma ForgetErases<S>(ops: seq<Op<S>>, c: NodeId, t: Tick)
    ensures Get(ClientOf(Run(ops + [Forget(c)]), c), t) == None
    ensures ClientOf(Run(ops + [Forget(c)]), c).acked == None
  {
    assert (ops + [Forget(c)])[..|ops|] == ops;
  }

  // ---- the store ----

  /** What was just recorded is there to be looked up. */
  lemma RecordedIsRetained<S>(c: ClientBaselines<S>, tick: Tick, entities: S)
    ensures Get(RecordIn(c, tick, entities), tick) == Some(entities)
  {
    var i, ring := Find(c.ring, tick), RecordIn(c, tick, entities).ring;
    if i < |c.ring| {
      assert ring[i].0 == tick;
    } else {
      assert ring[|ring| - 1] == (tick, entities);
      assert forall j :: 0 <= j < |ring| - 1 ==> ring[j] in c.ring;
    }
  }

  class BaselineStore<S> {
    var clients: map<NodeId, ClientBaselines<S>>

    constructor ()
      ensures clients == map[]
    {
      clients := map[];
    }

    method RecordSnapshot(client: NodeId, tick: Tick, entities: S)
      modifies this
      ensures clients == Step(old(clients), Record(client, tick, entities))
      ensures GetSnapshot(client, tick) == Some(entities)
      ensures forall other, t :: other != client ==> GetSnapshot(other, t) == old(GetSnapshot(other, t))
    {
      var c := ClientOf(clients, client);
      var i := 0;
      while i < |c.ring| && c.ring[i].0 != tick
        invariant 0 <= i <= |c.ring|
        invariant forall j :: 0 <= j < i ==> c.ring[j].0 != tick
      {
        i := i + 1;
      }
      var ring := c.ring;
      if i < |ring| {
        ring := ring[i := (tick, entities)];
        assert i == Find(c.ring, tick);
      } else {
        ring := ring + [(tick, entities)];
        ring := Trim(ring);
      }
      RecordedIsRetained(c, tick, entities);
      var c' := c.(ring := ring);
      assert c' == RecordIn(c, tick, entities);
      clients := clients[client := c'];
    }

    static method Trim(full: seq<(Tick, S)>) returns (ring: seq<(Tick, S)>)
      ensures ring == Newest(full)
    {
      ring := full;
      while |ring| > BASELINE_RING
        invariant |ring| <= |full| && ring == full[|full| - |ring|..]
        invariant |ring| == |full| || |ring| >= BASELINE_RING
      {
        ring := ring[1..];
      }
    }

    function GetSnapshot(client: NodeId, tick: Tick): Option<S>
      reads this
    {
      if client in clients then Get(clients[client], tick) else None
    }

    function LatestAcked(client: NodeId): Option<Tick>
      reads this
    {
      if client in clients then clients[client].acked else None
    }

    /** Monotonic: a stale ack leaves the mark where it is. */
    method AckTick(client: NodeId, tick: Tick)
      modifies this
      ensures clients == Step(old(clients), Ack(client, tick))
      ensures LatestAcked(client).Some?
      ensures LatestAcked(client).value
           == if old(LatestAcked(client)).Some? && old(LatestAcked(client)).value > tick
              then old(LatestAcked(client)).value else tick
    {
      var c := ClientOf(clients, client);
      if c.acked.None? || c.acked.value < tick {
        c := c.(acked := Some(tick));
      }
      clients := clients[client := c];
    }

    method ForgetClient(client: NodeId)
      modifies this
      ensures clients == Step(old(clients), Forget(client))
    {
      clients := clients - {client};
    }
  }
}
