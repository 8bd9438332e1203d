/** Mana wells and the leylines between them (arena-mythos), in real arithmetic. */
module Leyline {
  import opened Geometry
  import opened Sorting

  datatype Node = Node(id: string, pos: Vec3, capacity: real, charge: real, element: string, influence: real) {

    /** How charged the well is, 0 to 1. */
    function Saturation(): real {
      if capacity > 0.0 then Clamp(charge / capacity, 0.0, 1.0) else 0.0
    }
  }

  datatype Line = Line(a: nat, b: nat, conductance: real)

  /** Lines join two different wells of the network. */
  predicate Joined(lines: seq<Line>, n: nat) {
    forall l :: l in lines ==> l.a < n && l.b < n && l.a != l.b
  }

  /** Wells hold between nothing and their capacity. */
  predicate Filled(nodes: seq<Node>) {
    forall i :: 0 <= i < |nodes| ==> 0.0 <= nodes[i].charge <= nodes[i].capacity
  }

  predicate Proper(nodes: seq<Node>, lines: seq<Line>) {
    Filled(nodes) && Joined(lines, |nodes|)
  }

  function Total(nodes: seq<Node>): real {
    if nodes == [] then 0.0 else Total(nodes[..|nodes|-1]) + nodes[|nodes|-1].charge
  }

  // ---- one tick, well by well ----

  function Recharged(n: Node, tide: real, dt: real): Node {
    n.(charge := Min(n.charge + n.capacity * 0.01 * tide * dt, n.capacity))
  }

  function Recharge(nodes: seq<Node>, tide: real, dt: real): (r: seq<Node>)
    ensures |r| == |nodes|
  {
    Map((n: Node) => Recharged(n, tide, dt), nodes)
  }

  function Sats(nodes: seq<Node>): (r: seq<real>)
    ensures |r| == |nodes|
  {
    Map((n: Node) => n.Saturation(), nodes)
  }

  /** Mana a full gradient would move between wells of two capacities during `dt`. */
  function PullOf(conductance: real, dt: real, ca: real, cb: real): real {
    conductance * 0.5 * dt * Min(ca, cb)
  }

  /** The pull of each line. */
  function Pulls(nodes: seq<Node>, lines: seq<Line>, dt: real): (r: seq<real>)
    requires Joined(lines, |nodes|)
    ensures |r| == |lines|
  {
    seq(|lines|, k requires 0 <= k < |lines| =>
      assert lines[k] in lines;
      PullOf(lines[k].conductance, dt, nodes[lines[k].a].capacity, nodes[lines[k].b].capacity))
  }

  /** What well `i` gains along a line of the given pull: mana flows from the fuller end to
      the emptier one. */
  function Gain(sats: seq<real>, l: Line, pull: real, i: nat): real
    requires l.a < |sats| && l.b < |sats|
  {
    var flow := (sats[l.a] - sats[l.b]) * pull;
    (if i == l.b then flow else 0.0) - (if i == l.a then flow else 0.0)
  }

  /** What well `i` gains along all lines. */
  function Delta(sats: seq<real>, lines: seq<Line>, pulls: seq<real>, i: nat): real
    requires Joined(lines, |sats|) && |pulls| == |lines|
  {
    if lines == [] then 0.0
    else
      var n := |lines| - 1;
      Delta(sats, lines[..n], pulls[..n], i) + Gain(sats, lines[n], pulls[n], i)
  }

  function NodeDelta(nodes: seq<Node>, lines: seq<Line>, dt: real, i: nat): real
    requires Joined(lines, |nodes|)
  {
    Delta(Sats(nodes), lines, Pulls(nodes, lines, dt), i)
  }

  /** The wells after the lines have moved `delta[i]` into well `i`. */
  function Settled(nodes: seq<Node>, delta: seq<real>): (r: seq<Node>)
    requires Filled(nodes) && |delta| == |nodes|
    ensures |r| == |nodes|
  {
    seq(|nodes|, i requires 0 <= i < |nodes| =>
      nodes[i].(charge := Clamp(nodes[i].charge + delta[i], 0.0, nodes[i].capacity)))
  }

  function Deltas(nodes: seq<Node>, lines: seq<Line>, dt: real): (r: seq<real>)
    requires Joined(lines, |nodes|)
    ensures |r| == |nodes|
  {
    seq(|nodes|, i requires 0 <= i < |nodes| => NodeDelta(nodes, lines, dt, i))
  }

  function Diffused(nodes: seq<Node>, lines: seq<Line>, dt: real): (r: seq<Node>)
    requires Proper(nodes, lines)
    ensures |r| == |nodes|
  {
    Settled(nodes, Deltas(nodes, lines, dt))
  }

  // ---- conservation ----

  function Sum(s: seq<real>): real {
    if s == [] then 0.0 else Sum(s[..|s|-1]) + s[|s|-1]
  }

  /** Sum of the deltas of the first `n` wells. */
  function DeltaSum(sats: seq<real>, lines: seq<Line>, pulls: seq<real>, n: nat): real
    requires Joined(lines, |sats|) && |pulls| == |lines|
  {
    if n == 0 then 0.0 else DeltaSum(sats, lines, pulls, n - 1) + Delta(sats, lines, pulls, n - 1)
  }

  lemma {:induction false} DeltaSumOneLine(sats: seq<real>, lines: seq<Line>, pulls: seq<real>, n: nat)
    requires Joined(lines, |sats|) && |pulls| == |lines| > 0
    ensures var k, l := |lines| - 1, lines[|lines|-1];
            DeltaSum(sats, lines, pulls, n) == DeltaSum(sats, lines[..k], pulls[..k], n)
              + (if l.b < n then Gain(sats, l, pulls[k], l.b) else 0.0) +
                (if l.a < n then Gain(sats, l, pulls[k], l.a) else 0.0)
  {
    if n > 0 { DeltaSumOneLine(sats, lines, pulls, n - 1); }
  }

  lemma {:induction false} NoLines(sats: seq<real>, n: nat)
    ensures DeltaSum(sats, [], [], n) == 0.0
  {
    if n > 0 { NoLines(sats, n - 1); }
  }

  /** Every line takes from one end what it gives to the other: the deltas sum to zero. */
  lemma {:induction false} DeltasCancel(sats: seq<real>, lines: seq<Line>, pulls: seq<real>)
    requires Joined(lines, |sats|) && |pulls| == |lines|
    ensures DeltaSum(sats, lines, pulls, |sats|) == 0.0
  {
    if lines == [] {
      NoLines(sats, |sats|);
    } else {
      DeltasCancel(sats, lines[..|lines|-1], pulls[..|lines|-1]);
      DeltaSumOneLine(sats, lines, pulls, |sats|);
      assert lines[|lines|-1] in lines;
    }
  }

  lemma {:induction false} DeltaSumIsSum(nodes: seq<Node>, lines: seq<Line>, dt: real, n: nat)
    requires Joined(lines, |nodes|) && n <= |nodes|
    ensures Sum(Deltas(nodes, lines, dt)[..n]) == DeltaSum(Sats(nodes), lines, Pulls(nodes, lines, dt), n)
  {
    if n > 0 {
      DeltaSumIsSum(nodes, lines, dt, n - 1);
      assert Deltas(nodes, lines, dt)[..n][..n-1] == Deltas(nodes, lines, dt)[..n-1];
    }
  }

  /** Mana the clamp invents at each well, because the lines would take more than it has. */
  function Shortfalls(nodes: seq<Node>, delta: seq<real>): (r: seq<real>)
    requires |delta| == |nodes|
    ensures |r| == |nodes|
  {
    seq(|nodes|, i requires 0 <= i < |nodes| => Max(0.0, -(nodes[i].charge + delta[i])))
  }

  /** Mana the clamp destroys at each well, because the lines would bring more than it holds. */
  function Spills(nodes: seq<Node>, delta: seq<real>): (r: seq<real>)
    requires |delta| == |nodes|
    ensures |r| == |nodes|
  {
    seq(|nodes|, i requires 0 <= i < |nodes| => Max(0.0, nodes[i].charge + delta[i] - nodes[i].capacity))
  }

  lemma SettledFront(nodes: seq<Node>, delta: seq<real>)
    requires Filled(nodes) && |delta| == |nodes| > 0
    ensures var n := |nodes| - 1;
            && Settled(nodes, delta)[..n] == Settled(nodes[..n], delta[..n])
            && Shortfalls(nodes, delta)[..n] == Shortfalls(nodes[..n], delta[..n])
            && Spills(nodes, delta)[..n] == Spills(nodes[..n], delta[..n])
  {
  }

  lemma {:induction false} SettledBalance(nodes: seq<Node>, delta: seq<real>)
    requires Filled(nodes) && |delta| == |nodes|
    ensures Total(Settled(nodes, delta)) ==
            Total(nodes) + Sum(delta) + Sum(Shortfalls(nodes, delta)) - Sum(Spills(nodes, delta))
    ensures Filled(Settled(nodes, delta))
  {
    if nodes != [] {
      var n := |nodes| - 1;
      SettledBalance(nodes[..n], delta[..n]);
      SettledFront(nodes, delta);
    }
  }

  /** The exact mana balance of a diffusion step, for every network and every step size: what
      the clamps invent is gained, what they destroy is lost, and nothing else. So the step
      conserves mana exactly when the two sums agree. */
  lemma DiffusionBalance(nodes: seq<Node>, lines: seq<Line>, dt: real)
    requires Proper(nodes, lines)
    ensures var delta := Deltas(nodes, lines, dt);
            && Total(Diffused(nodes, lines, dt)) ==
               Total(nodes) + Sum(Shortfalls(nodes, delta)) - Sum(Spills(nodes, delta))
            && (Total(Diffused(nodes, lines, dt)) == Total(nodes) <==>
                Sum(Shortfalls(nodes, delta)) == Sum(Spills(nodes, delta)))
    ensures Filled(Diffused(nodes, lines, dt))
  {
    DeltasSumToZero(nodes, lines, dt);
    SettledBalance(nodes, Deltas(nodes, lines, dt));
  }

  lemma DeltasSumToZero(nodes: seq<Node>, lines: seq<Line>, dt: real)
    requires Joined(lines, |nodes|)
    ensures Sum(Deltas(nodes, lines, dt)) == 0.0
  {
    DeltasCancel(Sats(nodes), lines, Pulls(nodes, lines, dt));
    DeltaSumIsSum(nodes, lines, dt, |nodes|);
    assert Deltas(nodes, lines, dt)[..|nodes|] == Deltas(nodes, lines, dt);
  }

  /** The mana tides of the five seasons. */
  predicate SeasonalTide(tide: real) {
    tide == 1.1 || tide == 1.3 || tide == 1.0 || tide == 0.85 || tide == 0.6
  }

  function Well(charge: real): Node { Node("well", ZERO, 1.0, charge, "fire", 40.0) }

  function Hub(rim: real): seq<Node> { [Well(1.0), Well(rim), Well(rim), Well(rim)] }

  const SPOKES := [Line(0, 1, 1.0), Line(0, 2, 1.0), Line(0, 3, 1.0)]

  /** A full hub with three drained neighbours and the longest step the world takes (two seconds),
      in any season: once the step has recharged the rim, the hub can give its mana but once, and
      each neighbour fills up on it. A little over one well's worth of mana becomes three. */
  lemma HubInventsMana(tide: real)
    requires SeasonalTide(tide)
    ensures Proper(Hub(0.0), SPOKES)
    ensures var charged := Recharge(Hub(0.0), tide, 2.0);
            Total(charged) == 1.0 + 0.06 * tide < 1.1 && Total(Diffused(charged, SPOKES, 2.0)) == 3.0
  {
    HubRecharges(tide, 0.02 * tide);
    HubSettles(0.02 * tide);
  }

  lemma HubRecharges(tide: real, rim: real)
    requires rim == 0.02 * tide && 0.0 <= rim <= 1.0
    ensures Recharge(Hub(0.0), tide, 2.0) == Hub(rim)
  {
    assert Recharged(Well(1.0), tide, 2.0) == Well(1.0);
    assert Recharged(Well(0.0), tide, 2.0) == Well(rim);
  }

  lemma HubSettles(rim: real)
    requires 0.0 <= rim <= 0.5
    ensures Joined(SPOKES, 4) && Total(Hub(rim)) == 1.0 + 3.0 * rim && Total(Diffused(Hub(rim), SPOKES, 2.0)) == 3.0
  {
    var after := Diffused(Hub(rim), SPOKES, 2.0);
    FourWells(Hub(rim));
    HubDeltas(rim);
    FourWells(after);
    assert after[0].charge == 0.0 && after[1].charge == 1.0 && after[2].charge == 1.0 && after[3].charge == 1.0;
  }

  lemma HubDeltas(rim: real)
    requires 0.0 <= rim <= 1.0
    ensures Deltas(Hub(rim), SPOKES, 2.0) == [-3.0 * (1.0 - rim), 1.0 - rim, 1.0 - rim, 1.0 - rim]
  {
    var nodes := Hub(rim);
    UnitSats(nodes);
    UnitPulls(nodes, SPOKES);
    forall i | 0 <= i < 4 ensures Deltas(nodes, SPOKES, 2.0)[i] == if i == 0 then -3.0 * (1.0 - rim) else 1.0 - rim {
      HubDelta(Sats(nodes), SPOKES, Pulls(nodes, SPOKES, 2.0), rim, i);
    }
  }

  lemma UnitSats(nodes: seq<Node>)
    requires forall i :: 0 <= i < |nodes| ==> nodes[i].capacity == 1.0 && 0.0 <= nodes[i].charge <= 1.0
    ensures |Sats(nodes)| == |nodes| && forall i :: 0 <= i < |nodes| ==> Sats(nodes)[i] == nodes[i].charge
  {
    forall i | 0 <= i < |nodes|
      ensures Sats(nodes)[i] == nodes[i].charge
    {
      assert nodes[i].Saturation() == nodes[i].charge;
    }
  }

  lemma UnitPull(g: real, ca: real, cb: real)
    requires g == ca == cb == 1.0
    ensures PullOf(g, 2.0, ca, cb) == 1.0
  {
  }

  lemma UnitPulls(nodes: seq<Node>, lines: seq<Line>)
    requires Joined(lines, |nodes|)
    requires forall i :: 0 <= i < |nodes| ==> nodes[i].capacity == 1.0
    requires forall k :: 0 <= k < |lines| ==> lines[k].conductance == 1.0
    ensures forall k :: 0 <= k < |lines| ==> Pulls(nodes, lines, 2.0)[k] == 1.0
  {
    forall k | 0 <= k < |lines| ensures Pulls(nodes, lines, 2.0)[k] == 1.0 {
      assert lines[k] in lines;
      UnitPull(lines[k].conductance, nodes[lines[k].a].capacity, nodes[lines[k].b].capacity);
    }
  }

  lemma HubDelta(sats: seq<real>, lines: seq<Line>, pulls: seq<real>, rim: real, i: nat)
    requires i < 4 == |sats| && lines == SPOKES && |pulls| == 3
    requires forall j :: 0 <= j < 4 ==> sats[j] == if j == 0 then 1.0 else rim
    requires forall k :: 0 <= k < 3 ==> pulls[k] == 1.0
    ensures Delta(sats, lines, pulls, i) == if i == 0 then -3.0 * (1.0 - rim) else 1.0 - rim
  {
    assert lines[..2][..1] == lines[..1] && pulls[..2][..1] == pulls[..1];
    assert Delta(sats, lines[..1], pulls[..1], i) == Gain(sats, lines[0], pulls[0], i);
    assert Delta(sats, lines[..2], pulls[..2], i) ==
           Delta(sats, lines[..1], pulls[..1], i) + Gain(sats, lines[1], pulls[1], i);
  }

  lemma FourWells(nodes: seq<Node>)
    requires |nodes| == 4
    ensures Total(nodes) == nodes[0].charge + nodes[1].charge + nodes[2].charge + nodes[3].charge
  {
    assert nodes[..3][..2] == nodes[..2] && nodes[..2][..1] == nodes[..1] && nodes[..1][..0] == [];
    assert Total(nodes[..1]) == nodes[0].charge && Total(nodes[..2]) == Total(nodes[..1]) + nodes[1].charge;
    assert Total(nodes[..3]) == Total(nodes[..2]) + nodes[2].charge;
  }

  // ---- the maximum principle ----

  /** The pull of all lines at well `i`: the most it could exchange in one step. */
  function Load(lines: seq<Line>, pulls: seq<real>, i: nat): real
    requires |pulls| == |lines|
  {
    if lines == [] then 0.0
    else
      var n := |lines| - 1;
      Load(lines[..n], pulls[..n], i) + if i == lines[n].a || i == lines[n].b then pulls[n] else 0.0
  }

  /** No well could exchange more than it holds when full. */
  ghost predicate Stable(nodes: seq<Node>, lines: seq<Line>, dt: real)
    requires Joined(lines, |nodes|)
  {
    forall i: nat :: i < |nodes| ==> Load(lines, Pulls(nodes, lines, dt), i) <= nodes[i].capacity
  }

  ghost predicate Between(sats: seq<real>, lo: real, hi: real) {
    forall i :: 0 <= i < |sats| ==> lo <= sats[i] <= hi
  }

  ghost predicate NonNegative(s: seq<real>) {
    forall k :: 0 <= k < |s| ==> s[k] >= 0.0
  }

  lemma ScaledMono(k: real, x: real, y: real)
    requires k >= 0.0 && x <= y
    ensures x * k <= y * k
  {
  }

  lemma ScaledSum(x: real, k: real, k': real)
    ensures x * (k + k') == x * k + x * k'
  {
  }

  /** The pulls, each times `x`. */
  function Scaled(x: real, pulls: seq<real>): (r: seq<real>)
    ensures |r| == |pulls|
  {
    seq(|pulls|, k requires 0 <= k < |pulls| => Times(x, pulls[k]))
  }

  lemma {:induction false} LoadScales(x: real, lines: seq<Line>, pulls: seq<real>, i: nat)
    requires |pulls| == |lines|
    ensures Load(lines, Scaled(x, pulls), i) == Times(x, Load(lines, pulls, i))
  {
    if lines != [] {
      var n := |lines| - 1;
      LoadScales(x, lines[..n], pulls[..n], i);
      assert forall k :: 0 <= k < n ==> Scaled(x, pulls)[..n][k] == Scaled(x, pulls[..n])[k];
      assert Scaled(x, pulls)[..n] == Scaled(x, pulls[..n]);
      ScaledSum(x, Load(lines[..n], pulls[..n], i), pulls[n]);
    }
  }

  lemma {:induction false} LoadNonNegative(lines: seq<Line>, pulls: seq<real>, i: nat)
    requires |pulls| == |lines| && NonNegative(pulls)
    ensures Load(lines, pulls, i) >= 0.0
  {
    if lines != [] { LoadNonNegative(lines[..|lines|-1], pulls[..|lines|-1], i); }
  }

  /** Line by line, well `i` gains between `low` and `high`. */
  ghost predicate GainsBetween(sats: seq<real>, lines: seq<Line>, pulls: seq<real>, i: nat, low: seq<real>,
                               high: seq<real>)
    requires Joined(lines, |sats|) && |pulls| == |lines| == |low| == |high|
  {
    forall k :: 0 <= k < |lines| && (i == lines[k].a || i == lines[k].b) ==>
      assert lines[k] in lines;
      low[k] <= Gain(sats, lines[k], pulls[k], i) <= high[k]
  }

  lemma {:induction false} DeltaBetween(sats: seq<real>, lines: seq<Line>, pulls: seq<real>, i: nat, low: seq<real>,
                                        high: seq<real>)
    requires Joined(lines, |sats|) && |pulls| == |lines| == |low| == |high|
    requires GainsBetween(sats, lines, pulls, i, low, high)
    ensures Load(lines, low, i) <= Delta(sats, lines, pulls, i) <= Load(lines, high, i)
  {
    if lines != [] {
      var n := |lines| - 1;
      var l := lines[n];
      assert l in lines;
      DeltaBetween(sats, lines[..n], pulls[..n], i, low[..n], high[..n]);
      if i != l.a && i != l.b { assert Gain(sats, l, pulls[n], i) == 0.0; }
    }
  }

  lemma GainBounds(x: real, y: real, k: real, down: real, up: real)
    requires k >= 0.0 && down <= y - x <= up
    ensures Times(down, k) <= (y - x) * k <= Times(up, k)
    ensures -((x - y) * k) == (y - x) * k
  {
    ScaledMono(k, down, y - x);
    ScaledMono(k, y - x, up);
  }

  /** The lines pull a well towards its neighbours' saturations, never past them by more
      than its load allows. */
  lemma DeltaBounds(sats: seq<real>, lines: seq<Line>, pulls: seq<real>, i: nat, down: real, up: real)
    returns (delta: real, load: real)
    requires Joined(lines, |sats|) && |pulls| == |lines| && i < |sats| && NonNegative(pulls)
    requires forall j :: 0 <= j < |sats| ==> down <= sats[j] - sats[i] <= up
    ensures delta == Delta(sats, lines, pulls, i) && load == Load(lines, pulls, i)
    ensures load >= 0.0 && Times(down, load) <= delta <= Times(up, load)
  {
    var low, high := Scaled(down, pulls), Scaled(up, pulls);
    forall k | 0 <= k < |lines| && (i == lines[k].a || i == lines[k].b)
      ensures lines[k] in lines && low[k] <= Gain(sats, lines[k], pulls[k], i) <= high[k]
    {
      assert lines[k] in lines;
      GainBounds(sats[i], if i == lines[k].a then sats[lines[k].b] else sats[lines[k].a], pulls[k], down, up);
    }
    DeltaBetween(sats, lines, pulls, i, low, high);
    LoadScales(down, lines, pulls, i);
    LoadScales(up, lines, pulls, i);
    LoadNonNegative(lines, pulls, i);
    delta, load := Delta(sats, lines, pulls, i), Load(lines, pulls, i);
  }

  /** Moving from `s` by at most a fraction of the way to the band's edges stays in the band. */
  lemma BandStep(lo: real, s: real, hi: real, load: real, c: real, down: real, up: real, charge: real, delta: real)
    requires lo <= s <= hi && 0.0 <= load <= c && down == lo - s && up == hi - s && charge == Times(s, c)
    requires Times(down, load) <= delta <= Times(up, load)
    ensures Times(lo, c) <= charge + delta <= Times(hi, c)
  {
    ScaledMono(up, load, c);
    ScaledMono(-down, load, c);
    assert c * up == hi * c - s * c && c * -down == s * c - lo * c;
  }

  /** `sats` are the saturations of properly filled wells. */
  ghost predicate Describes(sats: seq<real>, nodes: seq<Node>) {
    |sats| == |nodes| && forall i :: 0 <= i < |nodes| ==>
      nodes[i].charge == Times(sats[i], nodes[i].capacity) && 0.0 <= sats[i] <= 1.0
  }

  lemma ChargeIsSaturation(n: Node)
    requires 0.0 <= n.charge <= n.capacity
    ensures n.charge == Times(n.Saturation(), n.capacity) && 0.0 <= n.Saturation() <= 1.0
  {
    if n.capacity > 0.0 { assert n.charge / n.capacity <= 1.0; }
  }

  lemma SatsDescribe(nodes: seq<Node>)
    requires Filled(nodes)
    ensures Describes(Sats(nodes), nodes)
  {
    forall i | 0 <= i < |nodes|
      ensures nodes[i].charge == Times(Sats(nodes)[i], nodes[i].capacity) && 0.0 <= Sats(nodes)[i] <= 1.0
    {
      ChargeIsSaturation(nodes[i]);
    }
  }

  ghost predicate Conducting(lines: seq<Line>) {
    forall l :: l in lines ==> l.conductance >= 0.0
  }

  lemma PullsNonNegative(nodes: seq<Node>, lines: seq<Line>, dt: real)
    requires Proper(nodes, lines) && Conducting(lines) && dt >= 0.0
    ensures NonNegative(Pulls(nodes, lines, dt))
  {
    forall k | 0 <= k < |lines| ensures Pulls(nodes, lines, dt)[k] >= 0.0 {
      var l := lines[k];
      assert l in lines;
      var g := l.conductance * 0.5 * dt;
      assert g >= 0.0;
      ScaledMono(g, 0.0, Min(nodes[l.a].capacity, nodes[l.b].capacity));
    }
  }

  /** In a stable step every well stays in any band that holds all saturations. */
  lemma WellsStayInBand(nodes: seq<Node>, sats: seq<real>, lines: seq<Line>, pulls: seq<real>, lo: real, hi: real)
    requires Describes(sats, nodes) && Joined(lines, |nodes|) && |pulls| == |lines| && NonNegative(pulls) &&
             Between(sats, lo, hi)
    requires forall i: nat :: i < |nodes| ==> Load(lines, pulls, i) <= nodes[i].capacity
    ensures forall i: nat :: i < |nodes| ==>
              Times(lo, nodes[i].capacity)
              <= nodes[i].charge + Delta(sats, lines, pulls, i)
              <= Times(hi, nodes[i].capacity)
  {
    forall i: nat | i < |nodes|
      ensures Times(lo, nodes[i].capacity)
              <= nodes[i].charge + Delta(sats, lines, pulls, i)
              <= Times(hi, nodes[i].capacity)
    {
      var s, c, down, up := sats[i], nodes[i].capacity, lo - sats[i], hi - sats[i];
      var delta, load := DeltaBounds(sats, lines, pulls, i, down, up);
      BandStep(lo, s, hi, load, c, down, up, nodes[i].charge, delta);
    }
  }

  lemma Unscale(lo: real, s: real, hi: real, c: real)
    requires c > 0.0 && Times(lo, c) <= Times(s, c) <= Times(hi, c)
    ensures lo <= s <= hi
  {
  }

  /** No clamp bites: every well could take its delta whole. */
  ghost predicate Unclamped(nodes: seq<Node>, delta: seq<real>)
    requires |delta| == |nodes|
  {
    forall i :: 0 <= i < |nodes| ==> 0.0 <= nodes[i].charge + delta[i] <= nodes[i].capacity
  }

  lemma {:induction false} ZeroSum(s: seq<real>)
    requires forall i :: 0 <= i < |s| ==> s[i] == 0.0
    ensures Sum(s) == 0.0
  {
    if s != [] { ZeroSum(s[..|s|-1]); }
  }

  lemma SettledInBand(nodes: seq<Node>, delta: seq<real>, lo: real, hi: real)
    requires Filled(nodes) && |delta| == |nodes| && Unclamped(nodes, delta) && Between(Sats(nodes), lo, hi)
    requires forall i: nat :: i < |nodes| ==>
             Times(lo, nodes[i].capacity) <= nodes[i].charge + delta[i] <= Times(hi, nodes[i].capacity)
    ensures Between(Sats(Settled(nodes, delta)), lo, hi)
  {
    var after := Settled(nodes, delta);
    forall i | 0 <= i < |after| ensures lo <= Sats(after)[i] <= hi {
      SettledWell(nodes[i], after[i], lo, hi);
      assert Sats(nodes)[i] == nodes[i].Saturation() && Sats(after)[i] == after[i].Saturation();
    }
  }

  lemma SettledWell(n: Node, n': Node, lo: real, hi: real)
    requires 0.0 <= n'.charge <= n'.capacity == n.capacity && lo <= n.Saturation() <= hi
    requires Times(lo, n'.capacity) <= n'.charge <= Times(hi, n'.capacity)
    ensures lo <= n'.Saturation() <= hi
  {
    ChargeIsSaturation(n');
    if n.capacity > 0.0 { Unscale(lo, n'.Saturation(), hi, n'.capacity); }
  }

  lemma StableNeverClamps(nodes: seq<Node>, lines: seq<Line>, dt: real)
    requires Proper(nodes, lines) && Conducting(lines) && dt >= 0.0 && Stable(nodes, lines, dt)
    ensures Unclamped(nodes, Deltas(nodes, lines, dt))
  {
    SatsDescribe(nodes);
    PullsNonNegative(nodes, lines, dt);
    WellsStayInBand(nodes, Sats(nodes), lines, Pulls(nodes, lines, dt), 0.0, 1.0);
  }

  lemma UnclampedConserves(nodes: seq<Node>, lines: seq<Line>, dt: real)
    requires Proper(nodes, lines) && Unclamped(nodes, Deltas(nodes, lines, dt))
    ensures Total(Diffused(nodes, lines, dt)) == Total(nodes)
  {
    ZeroSum(Shortfalls(nodes, Deltas(nodes, lines, dt)));
    ZeroSum(Spills(nodes, Deltas(nodes, lines, dt)));
    DiffusionBalance(nodes, lines, dt);
  }

  /** The maximum principle. In a stable step no clamp bites, mana is conserved, and every
      saturation stays between the smallest and the largest one before the step. */
  lemma MaximumPrinciple(nodes: seq<Node>, lines: seq<Line>, dt: real, lo: real, hi: real)
    requires Proper(nodes, lines) && Conducting(lines) && dt >= 0.0 && Stable(nodes, lines, dt)
    requires Between(Sats(nodes), lo, hi)
    ensures Unclamped(nodes, Deltas(nodes, lines, dt))
    ensures Total(Diffused(nodes, lines, dt)) == Total(nodes)
    ensures Between(Sats(Diffused(nodes, lines, dt)), lo, hi)
  {
    StableNeverClamps(nodes, lines, dt);
    UnclampedConserves(nodes, lines, dt);
    SatsDescribe(nodes);
    PullsNonNegative(nodes, lines, dt);
    WellsStayInBand(nodes, Sats(nodes), lines, Pulls(nodes, lines, dt), lo, hi);
    SettledInBand(nodes, Deltas(nodes, lines, dt), lo, hi);
  }

  // ---- how sharp the condition is ----

  predicate SameWells(nodes: seq<Node>, nodes': seq<Node>) {
    |nodes| == |nodes'| && forall i :: 0 <= i < |nodes| ==> nodes'[i] == nodes[i].(charge := nodes'[i].charge)
  }

  lemma PullsByCapacity(nodes: seq<Node>, nodes': seq<Node>, lines: seq<Line>, dt: real)
    requires SameWells(nodes, nodes') && Joined(lines, |nodes|)
    ensures Pulls(nodes', lines, dt) == Pulls(nodes, lines, dt)
  {
    forall k | 0 <= k < |lines| ensures Pulls(nodes', lines, dt)[k] == Pulls(nodes, lines, dt)[k] {
      assert lines[k] in lines;
      assert nodes'[lines[k].a].capacity == nodes[lines[k].a].capacity &&
             nodes'[lines[k].b].capacity == nodes[lines[k].b].capacity;
    }
  }

  lemma FrontPulls(nodes: seq<Node>, lines: seq<Line>, dt: real)
    requires Joined(lines, |nodes|) && lines != []
    ensures Pulls(nodes, lines, dt)[..|lines|-1] == Pulls(nodes, lines[..|lines|-1], dt)
  {
    var n := |lines| - 1;
    forall k | 0 <= k < n ensures Pulls(nodes, lines, dt)[..n][k] == Pulls(nodes, lines[..n], dt)[k] {
      assert lines[..n][k] == lines[k];
    }
  }

  /** Well `i` full, all others at saturation `s`. */
  function TwoLevels(nodes: seq<Node>, i: nat, s: real): (r: seq<Node>)
    ensures |r| == |nodes|
  {
    seq(|nodes|, j requires 0 <= j < |nodes| =>
      nodes[j].(charge := if j == i then nodes[j].capacity else Times(s, nodes[j].capacity)))
  }

  predicate Spans(l: Line, i: nat, j: nat) { (l.a == i && l.b == j) || (l.a == j && l.b == i) }

  /** The pull of all lines between two wells. */
  function Shared(lines: seq<Line>, pulls: seq<real>, i: nat, j: nat): real
    requires |pulls| == |lines|
  {
    if lines == [] then 0.0
    else
      var n := |lines| - 1;
      Shared(lines[..n], pulls[..n], i, j) + if Spans(lines[n], i, j) then pulls[n] else 0.0
  }

  lemma {:induction false} SharedNonNegative(lines: seq<Line>, pulls: seq<real>, i: nat, j: nat)
    requires |pulls| == |lines| && NonNegative(pulls)
    ensures Shared(lines, pulls, i, j) >= 0.0
  {
    if lines != [] {
      var n := |lines| - 1;
      SharedNonNegative(lines[..n], pulls[..n], i, j);
    }
  }

  /** Wherever a line pulls, both its ends are at their level. */
  ghost predicate Levelled(sats: seq<real>, lines: seq<Line>, pulls: seq<real>, i: nat, s: real)
    requires Joined(lines, |sats|) && |pulls| == |lines|
  {
    forall k :: 0 <= k < |lines| && pulls[k] != 0.0 ==>
      EndsLevel(sats, lines[k], i, s)
  }

  predicate AtLevel(sats: seq<real>, j: nat, i: nat, s: real) {
    j < |sats| && sats[j] == if j == i then 1.0 else s
  }

  predicate EndsLevel(sats: seq<real>, l: Line, i: nat, s: real) {
    AtLevel(sats, l.a, i, s) && AtLevel(sats, l.b, i, s)
  }

  lemma LevelGain(sats: seq<real>, l: Line, pull: real, i: nat, s: real, j: nat)
    requires l.a < |sats| && l.b < |sats| && l.a != l.b
    requires pull != 0.0 ==> EndsLevel(sats, l, i, s)
    ensures Gain(sats, l, pull, j) ==
            if j == i then -Times(1.0 - s, if i == l.a || i == l.b then pull else 0.0)
            else Times(1.0 - s, if Spans(l, i, j) then pull else 0.0)
  {
  }

  lemma LevelledFront(sats: seq<real>, lines: seq<Line>, pulls: seq<real>, i: nat, s: real)
    requires lines != [] && Joined(lines, |sats|) && |pulls| == |lines| && Levelled(sats, lines, pulls, i, s)
    ensures Joined(lines[..|lines|-1], |sats|) && Levelled(sats, lines[..|lines|-1], pulls[..|lines|-1], i, s)
  {
    var n := |lines| - 1;
    forall k | 0 <= k < n && pulls[..n][k] != 0.0
      ensures EndsLevel(sats, lines[..n][k], i, s)
    {
      assert pulls[k] != 0.0 && lines[..n][k] == lines[k];
    }
  }

  /** Mana runs from the full well to its neighbours, and between no others. */
  lemma {:induction false} LevelDelta(
    sats: seq<real>, lines: seq<Line>, pulls: seq<real>, i: nat, s: real, j: nat)
    requires Joined(lines, |sats|) && |pulls| == |lines| && Levelled(sats, lines, pulls, i, s)
    ensures Delta(sats, lines, pulls, j) ==
            if j == i then -Times(1.0 - s, Load(lines, pulls, i)) else Times(1.0 - s, Shared(lines, pulls, i, j))
  {
    if lines != [] {
      var n := |lines| - 1;
      assert lines[n] in lines;
      LevelledFront(sats, lines, pulls, i, s);
      LevelDelta(sats, lines[..n], pulls[..n], i, s, j);
      LevelGain(sats, lines[n], pulls[n], i, s, j);
      var load, pull := Load(lines[..n], pulls[..n], i), if i == lines[n].a || i == lines[n].b then pulls[n] else 0.0;
      var shared, span := Shared(lines[..n], pulls[..n], i, j), if Spans(lines[n], i, j) then pulls[n] else 0.0;
      Distributes(1.0 - s, load, pull);
      Distributes(1.0 - s, shared, span);
    }
  }

  lemma Distributes(k: real, x: real, y: real)
    ensures Times(k, x + y) == Times(k, x) + Times(k, y)
  {
  }

  lemma {:induction false} EmptyWellCarriesNothing(nodes: seq<Node>, lines: seq<Line>, pulls: seq<real>, i: nat)
    requires Joined(lines, |nodes|) && |pulls| == |lines|
    requires forall k :: 0 <= k < |lines| && (i == lines[k].a || i == lines[k].b) ==> pulls[k] == 0.0
    ensures Load(lines, pulls, i) == 0.0
  {
    if lines != [] {
      var n := |lines| - 1;
      EmptyWellCarriesNothing(nodes, lines[..n], pulls[..n], i);
    }
  }

  lemma NoCapacityNoLoad(nodes: seq<Node>, lines: seq<Line>, dt: real, i: nat)
    requires Proper(nodes, lines) && i < |nodes| && nodes[i].capacity == 0.0
    ensures Load(lines, Pulls(nodes, lines, dt), i) == 0.0
  {
    forall k | 0 <= k < |lines| && (i == lines[k].a || i == lines[k].b) ensures Pulls(nodes, lines, dt)[k] == 0.0 {
      var l := lines[k];
      assert l in lines;
      assert Min(nodes[l.a].capacity, nodes[l.b].capacity) == 0.0;
    }
    EmptyWellCarriesNothing(nodes, lines, Pulls(nodes, lines, dt), i);
  }

  lemma Within(c: real, s: real)
    requires c >= 0.0 && 0.0 <= s <= 1.0
    ensures 0.0 <= Times(s, c) <= c && Times(1.0, c) == c
  {
    ScaledMono(c, 0.0, s);
    ScaledMono(c, s, 1.0);
  }

  lemma LevelSats(nodes: seq<Node>, i: nat, s: real)
    requires Filled(nodes) && i < |nodes| && 0.0 <= s <= 1.0
    ensures SameWells(nodes, TwoLevels(nodes, i, s)) && Filled(TwoLevels(nodes, i, s))
    ensures forall j :: 0 <= j < |nodes| && nodes[j].capacity > 0.0 ==>
              Sats(TwoLevels(nodes, i, s))[j] == if j == i then 1.0 else s
  {
    var after := TwoLevels(nodes, i, s);
    forall j | 0 <= j < |nodes|
      ensures 0.0 <= after[j].charge <= after[j].capacity
      ensures nodes[j].capacity > 0.0 ==> Sats(after)[j] == if j == i then 1.0 else s
    {
      var c := nodes[j].capacity;
      Within(c, s);
      WholeDrop(c);
      assert after[j].charge == Times(if j == i then 1.0 else s, c);
      if c > 0.0 { LevelSat(after[j], if j == i then 1.0 else s); }
    }
  }

  lemma LevelSat(n: Node, s: real)
    requires n.capacity > 0.0 && 0.0 <= s <= 1.0 && n.charge == Times(s, n.capacity)
    ensures n.Saturation() == s
  {
    assert n.charge / n.capacity == s;
  }

  lemma NoPull(g: real, dt: real, ca: real, cb: real)
    ensures Min(ca, cb) == 0.0 ==> PullOf(g, dt, ca, cb) == 0.0
  {
  }

  lemma PullNeedsCapacity(nodes: seq<Node>, lines: seq<Line>, dt: real, k: nat)
    requires Proper(nodes, lines) && k < |lines| && Pulls(nodes, lines, dt)[k] != 0.0
    ensures lines[k].a < |nodes| && lines[k].b < |nodes|
    ensures nodes[lines[k].a].capacity > 0.0 && nodes[lines[k].b].capacity > 0.0
  {
    var l := lines[k];
    assert l in lines;
    NoPull(l.conductance, dt, nodes[l.a].capacity, nodes[l.b].capacity);
  }

  lemma LevelledWells(nodes: seq<Node>, lines: seq<Line>, dt: real, i: nat, s: real, j: nat)
    requires Proper(nodes, lines) && i < |nodes| && j < |nodes| && 0.0 <= s <= 1.0
    ensures var after, pulls := TwoLevels(nodes, i, s), Pulls(nodes, lines, dt);
            && SameWells(nodes, after) && Filled(after)
            && Deltas(after, lines, dt)[j] ==
               if j == i then -Times(1.0 - s, Load(lines, pulls, i)) else Times(1.0 - s, Shared(lines, pulls, i, j))
  {
    var after, pulls := TwoLevels(nodes, i, s), Pulls(nodes, lines, dt);
    LevelSats(nodes, i, s);
    PullsByCapacity(nodes, after, lines, dt);
    forall k | 0 <= k < |lines| && pulls[k] != 0.0
      ensures EndsLevel(Sats(after), lines[k], i, s)
    {
      PullNeedsCapacity(nodes, lines, dt, k);
    }
    LevelDelta(Sats(after), lines, pulls, i, s, j);
  }

  lemma {:induction false} SumOfPositive(s: seq<real>, k: nat)
    requires NonNegative(s) && k < |s| && s[k] > 0.0
    ensures Sum(s) > 0.0
  {
    var n := |s| - 1;
    if k < n {
      SumOfPositive(s[..n], k);
    } else {
      SumNonNegative(s[..n]);
    }
  }

  lemma {:induction false} SumNonNegative(s: seq<real>)
    requires NonNegative(s)
    ensures Sum(s) >= 0.0
  {
    if s != [] { SumNonNegative(s[..|s|-1]); }
  }

  lemma ShortSomewhere(nodes: seq<Node>, delta: seq<real>, i: nat)
    requires |delta| == |nodes| && i < |nodes| && nodes[i].charge + delta[i] < 0.0
    ensures Sum(Shortfalls(nodes, delta)) > 0.0
  {
    SumOfPositive(Shortfalls(nodes, delta), i);
  }

  lemma NobodyShort(nodes: seq<Node>, delta: seq<real>)
    requires |delta| == |nodes| && forall i :: 0 <= i < |nodes| ==> nodes[i].charge + delta[i] >= 0.0
    ensures Sum(Shortfalls(nodes, delta)) == 0.0
  {
    ZeroSum(Shortfalls(nodes, delta));
  }

  lemma SomeSpill(nodes: seq<Node>, delta: seq<real>, i: nat)
    requires |delta| == |nodes| && i < |nodes| && nodes[i].charge + delta[i] > nodes[i].capacity
    ensures Sum(Spills(nodes, delta)) > 0.0
  {
    SumOfPositive(Spills(nodes, delta), i);
  }

  lemma SpiltFrom(nodes: seq<Node>, delta: seq<real>) returns (j: nat)
    requires |delta| == |nodes| && Sum(Spills(nodes, delta)) > 0.0
    ensures j < |nodes| && nodes[j].charge + delta[j] > nodes[j].capacity
  {
    var spills := Spills(nodes, delta);
    if forall k :: 0 <= k < |spills| ==> spills[k] == 0.0 {
      ZeroSum(spills);
      assert false;
    }
    j :| 0 <= j < |spills| && spills[j] != 0.0;
  }

  lemma WholeDrop(x: real)
    ensures Times(1.0 - 0.0, x) == x && Times(0.0, x) == 0.0
  {
  }

  /** One well full and all others empty: what each would be left with. */
  lemma LonePeak(nodes: seq<Node>, lines: seq<Line>, dt: real, i: nat, k: nat)
    requires Proper(nodes, lines) && i < |nodes| && k < |nodes|
    ensures var after, pulls := TwoLevels(nodes, i, 0.0), Pulls(nodes, lines, dt);
            && SameWells(nodes, after) && Filled(after)
            && after[k].charge + Deltas(after, lines, dt)[k] ==
               if k == i then nodes[i].capacity - Load(lines, pulls, i) else Shared(lines, pulls, i, k)
  {
    LevelledWells(nodes, lines, dt, i, 0.0, k);
    WholeDrop(nodes[k].capacity);
    WholeDrop(Load(lines, Pulls(nodes, lines, dt), i));
    WholeDrop(Shared(lines, Pulls(nodes, lines, dt), i, k));
  }

  lemma Portion(c: real, load: real)
    requires 0.0 <= c < load
    ensures 0.0 <= c / load < 1.0 && Times(c / load, load) == c
    ensures c > 0.0 ==> c / load > 0.0
  {
  }

  lemma Positive(x: real, y: real)
    ensures x > 0.0 && y > 0.0 ==> Times(x, y) > 0.0
  {
  }

  lemma Blend(d: real, c: real, shared: real)
    ensures Times(1.0 - d, c) + Times(d, shared) == c + Times(d, shared - c)
  {
  }

  lemma NoneOf(x: real, y: real)
    requires x >= 0.0 && y >= 0.0
    ensures Times(x, y) >= 0.0
  {
  }

  /** A well at the common level takes in its share of the drop `d` from the full one. */
  lemma FilledPast(d: real, c: real, shared: real)
    requires 0.0 < d <= 1.0 && c >= 0.0 && shared >= 0.0
    ensures Times(1.0 - d, c) + Times(d, shared) >= 0.0
    ensures shared > c ==> Times(1.0 - d, c) + Times(d, shared) > c
  {
    NoneOf(1.0 - d, c);
    NoneOf(d, shared);
    Blend(d, c, shared);
    Positive(d, shared - c);
  }

  /** The well `k` when the full one, `i`, is drawn exactly dry. */
  lemma WellAfterDrop(nodes: seq<Node>, lines: seq<Line>, dt: real, i: nat, d: real, k: nat)
    requires Proper(nodes, lines) && Conducting(lines) && dt >= 0.0 && i < |nodes| && k < |nodes| && 0.0 < d <= 1.0
    requires Times(d, Load(lines, Pulls(nodes, lines, dt), i)) == nodes[i].capacity
    ensures var after := TwoLevels(nodes, i, 1.0 - d);
            var filled := after[k].charge + Deltas(after, lines, dt)[k];
            && SameWells(nodes, after) && Filled(after) && filled >= 0.0
            && (k != i && Shared(lines, Pulls(nodes, lines, dt), i, k) > nodes[k].capacity ==>
                filled > nodes[k].capacity)
  {
    var pulls := Pulls(nodes, lines, dt);
    LevelledWells(nodes, lines, dt, i, 1.0 - d, k);
    assert 1.0 - (1.0 - d) == d;
    if k != i {
      PullsNonNegative(nodes, lines, dt);
      SharedNonNegative(lines, pulls, i, k);
      FilledPast(d, nodes[k].capacity, Shared(lines, pulls, i, k));
    }
  }

  /** So raise the others until the full well is drawn exactly dry: nothing falls short any more,
      and a neighbour that spilt still does. */
  lemma DrainedDry(nodes: seq<Node>, lines: seq<Line>, dt: real, i: nat, d: real, j: nat)
    requires Proper(nodes, lines) && Conducting(lines) && dt >= 0.0 && i < |nodes| && j < |nodes| && j != i
    requires 0.0 < d <= 1.0 && Times(d, Load(lines, Pulls(nodes, lines, dt), i)) == nodes[i].capacity
    requires Shared(lines, Pulls(nodes, lines, dt), i, j) > nodes[j].capacity
    ensures var after := TwoLevels(nodes, i, 1.0 - d);
            && SameWells(nodes, after) && Filled(after)
            && Sum(Shortfalls(after, Deltas(after, lines, dt))) == 0.0 < Sum(Spills(after, Deltas(after, lines, dt)))
  {
    var after := TwoLevels(nodes, i, 1.0 - d);
    var delta := Deltas(after, lines, dt);
    forall k | 0 <= k < |nodes|
      ensures after[k].charge + delta[k] >= 0.0
    {
      WellAfterDrop(nodes, lines, dt, i, d, k);
    }
    NobodyShort(after, delta);
    WellAfterDrop(nodes, lines, dt, i, d, j);
    assert after[j].capacity == nodes[j].capacity;
    SomeSpill(after, delta, j);
  }

  /** An overloaded network fails to conserve mana for some charges. */
  lemma OverloadBreaksConservation(nodes: seq<Node>, lines: seq<Line>, dt: real, i: nat)
    requires Proper(nodes, lines) && Conducting(lines) && dt >= 0.0 && i < |nodes|
    requires Load(lines, Pulls(nodes, lines, dt), i) > nodes[i].capacity
    ensures exists nodes' :: SameWells(nodes, nodes') && Filled(nodes') &&
                             Total(Diffused(nodes', lines, dt)) != Total(nodes')
  {
    assert nodes[i].capacity > 0.0 by {
      if nodes[i].capacity == 0.0 { NoCapacityNoLoad(nodes, lines, dt, i); }
    }
    var peak := TwoLevels(nodes, i, 0.0);
    var delta := Deltas(peak, lines, dt);
    LonePeak(nodes, lines, dt, i, i);
    ShortSomewhere(peak, delta, i);
    DiffusionBalance(peak, lines, dt);
    if Total(Diffused(peak, lines, dt)) == Total(peak) {
      var j := SpiltFrom(peak, delta);
      LonePeak(nodes, lines, dt, i, j);
      assert peak[j].capacity == nodes[j].capacity;
      DryBreaksConservation(nodes, lines, dt, i, j);
    }
  }

  lemma DryBreaksConservation(nodes: seq<Node>, lines: seq<Line>, dt: real, i: nat, j: nat)
    requires Proper(nodes, lines) && Conducting(lines) && dt >= 0.0 && i < |nodes| && j < |nodes| && j != i
    requires Load(lines, Pulls(nodes, lines, dt), i) > nodes[i].capacity > 0.0
    requires Shared(lines, Pulls(nodes, lines, dt), i, j) > nodes[j].capacity
    ensures exists nodes' :: SameWells(nodes, nodes') && Filled(nodes') &&
                             Total(Diffused(nodes', lines, dt)) != Total(nodes')
  {
    var load := Load(lines, Pulls(nodes, lines, dt), i);
    var d := nodes[i].capacity / load;
    Portion(nodes[i].capacity, load);
    DrainedDry(nodes, lines, dt, i, d, j);
    var after := TwoLevels(nodes, i, 1.0 - d);
    DiffusionBalance(after, lines, dt);
    assert Total(Diffused(after, lines, dt)) != Total(after);
  }

  lemma StableForAll(nodes: seq<Node>, lines: seq<Line>, dt: real, nodes': seq<Node>)
    requires Proper(nodes, lines) && Conducting(lines) && dt >= 0.0 && Stable(nodes, lines, dt)
    requires SameWells(nodes, nodes') && Filled(nodes')
    ensures Unclamped(nodes', Deltas(nodes', lines, dt)) && Total(Diffused(nodes', lines, dt)) == Total(nodes')
  {
    PullsByCapacity(nodes, nodes', lines, dt);
    SatsDescribe(nodes');
    MaximumPrinciple(nodes', lines, dt, 0.0, 1.0);
  }

  /** `Stable` is exactly what it takes: a network conserves mana, whatever its charges, if and only
      if no well's load exceeds its capacity. */
  lemma ConservesIff(nodes: seq<Node>, lines: seq<Line>, dt: real)
    requires Proper(nodes, lines) && Conducting(lines) && dt >= 0.0
    ensures (forall nodes' :: SameWells(nodes, nodes') && Filled(nodes') ==>
             Total(Diffused(nodes', lines, dt)) == Total(nodes'))
       <==> Stable(nodes, lines, dt)
  {
    if Stable(nodes, lines, dt) {
      forall nodes' | SameWells(nodes, nodes') && Filled(nodes')
        ensures Total(Diffused(nodes', lines, dt)) == Total(nodes')
      {
        StableForAll(nodes, lines, dt, nodes');
      }
    } else {
      var i: nat :| i < |nodes| && Load(lines, Pulls(nodes, lines, dt), i) > nodes[i].capacity;
      OverloadBreaksConservation(nodes, lines, dt, i);
    }
  }

  /** And it is exactly what it takes for the clamps never to bite. */
  lemma NeverClampsIff(nodes: seq<Node>, lines: seq<Line>, dt: real)
    requires Proper(nodes, lines) && Conducting(lines) && dt >= 0.0
    ensures (forall nodes' :: SameWells(nodes, nodes') && Filled(nodes') ==>
             Unclamped(nodes', Deltas(nodes', lines, dt)))
       <==> Stable(nodes, lines, dt)
  {
    ConservesIff(nodes, lines, dt);
    forall nodes' | SameWells(nodes, nodes') && Filled(nodes')
      ensures Stable(nodes, lines, dt) ==> Unclamped(nodes', Deltas(nodes', lines, dt))
      ensures Unclamped(nodes', Deltas(nodes', lines, dt)) ==> Total(Diffused(nodes', lines, dt)) == Total(nodes')
    {
      if Stable(nodes, lines, dt) { StableForAll(nodes, lines, dt, nodes'); }
      if Unclamped(nodes', Deltas(nodes', lines, dt)) { UnclampedConserves(nodes', lines, dt); }
    }
  }

  function ConductanceAt(lines: seq<Line>, i: nat): real {
    if lines == [] then 0.0
    else
      var l := lines[|lines|-1];
      ConductanceAt(lines[..|lines|-1], i) + if i == l.a || i == l.b then l.conductance else 0.0
  }

  lemma PullWithinShare(g: real, dt: real, mine: real, other: real)
    requires g >= 0.0 && dt >= 0.0 && mine >= 0.0 && other >= 0.0
    ensures PullOf(g, dt, mine, other) <= Times(g, 0.5 * dt * mine) &&
            PullOf(g, dt, other, mine) <= Times(g, 0.5 * dt * mine)
  {
    var k := g * 0.5 * dt;
    assert k >= 0.0;
    ScaledMono(k, Min(mine, other), mine);
    assert mine * k == Times(g, 0.5 * dt * mine);
  }

  lemma AddShares(load: real, g: real, pull: real, h: real, share: real)
    requires load <= Times(g, share) && pull <= Times(h, share)
    ensures load + pull <= Times(g + h, share)
  {
    ScaledSum(share, g, h);
  }

  lemma PullShare(nodes: seq<Node>, lines: seq<Line>, dt: real, k: nat, i: nat, share: real)
    requires Proper(nodes, lines) && Conducting(lines) && dt >= 0.0 && k < |lines| && i < |nodes|
    requires (i == lines[k].a || i == lines[k].b) && share == 0.5 * dt * nodes[i].capacity
    ensures Pulls(nodes, lines, dt)[k] <= Times(lines[k].conductance, share)
  {
    var l := lines[k];
    assert l in lines;
    PullWithinShare(l.conductance, dt, nodes[i].capacity, nodes[if i == l.a then l.b else l.a].capacity);
  }

  lemma {:induction false} LoadWithinShare(nodes: seq<Node>, lines: seq<Line>, dt: real, i: nat, share: real)
    requires Proper(nodes, lines) && Conducting(lines) && dt >= 0.0 && i < |nodes| &&
             share == 0.5 * dt * nodes[i].capacity
    ensures Load(lines, Pulls(nodes, lines, dt), i) <= Times(ConductanceAt(lines, i), share)
  {
    if lines != [] {
      var n := |lines| - 1;
      var l, front := lines[n], lines[..n];
      assert l in lines;
      LoadWithinShare(nodes, front, dt, i, share);
      FrontPulls(nodes, lines, dt);
      var load, pull := Load(front, Pulls(nodes, front, dt), i), Pulls(nodes, lines, dt)[n];
      if i == l.a || i == l.b {
        PullShare(nodes, lines, dt, n, i, share);
        AddShares(load, ConductanceAt(front, i), pull, l.conductance, share);
      }
    }
  }

  /** The usual step-size bound is enough: half the step times the conductance meeting at
      each well at most one. */
  lemma StepBoundIsStable(nodes: seq<Node>, lines: seq<Line>, dt: real)
    requires Proper(nodes, lines) && Conducting(lines) && dt >= 0.0
    requires forall i: nat :: i < |nodes| ==> Times(0.5 * dt, ConductanceAt(lines, i)) <= 1.0
    ensures Stable(nodes, lines, dt)
  {
    forall i: nat | i < |nodes| ensures Load(lines, Pulls(nodes, lines, dt), i) <= nodes[i].capacity {
      LoadWithinCapacity(nodes, lines, dt, i);
    }
  }

  lemma LoadWithinCapacity(nodes: seq<Node>, lines: seq<Line>, dt: real, i: nat)
    requires Proper(nodes, lines) && Conducting(lines) && dt >= 0.0 && i < |nodes|
    requires Times(0.5 * dt, ConductanceAt(lines, i)) <= 1.0
    ensures Load(lines, Pulls(nodes, lines, dt), i) <= nodes[i].capacity
  {
    var share := 0.5 * dt * nodes[i].capacity;
    LoadWithinShare(nodes, lines, dt, i, share);
    ShareWithinCapacity(ConductanceAt(lines, i), dt, nodes[i].capacity, share);
  }

  lemma ShareWithinCapacity(g: real, dt: real, c: real, share: real)
    requires Times(0.5 * dt, g) <= 1.0 && c >= 0.0 && share == 0.5 * dt * c
    ensures Times(g, share) <= c
  {
    ScaledMono(c, Times(0.5 * dt, g), 1.0);
    assert Times(g, share) == Times(0.5 * dt, g) * c;
  }

  // ---- drawing ----

  /** The well's influence reaches `pos`. */
  predicate Reaches(n: Node, pos: Vec3) {
    n.influence >= 0.0 && n.pos.Sub(pos).LengthSquared() <= n.influence * n.influence
  }

  function DistanceTo(nodes: seq<Node>, pos: Vec3, i: nat): real {
    if i < |nodes| then nodes[i].pos.Sub(pos).LengthSquared() else 0.0
  }

  function Nearer(nodes: seq<Node>, pos: Vec3): (nat, nat) -> bool {
    (i: nat, j: nat) => DistanceTo(nodes, pos, i) <= DistanceTo(nodes, pos, j)
  }

  function Indices(n: nat): (r: seq<nat>)
    ensures |r| == n && forall i :: 0 <= i < n ==> r[i] == i
  {
    if n == 0 then [] else Indices(n - 1) + [n - 1]
  }

  /** All wells, nearest first. */
  function NearestFirst(nodes: seq<Node>, pos: Vec3): seq<nat> {
    SortBy(Indices(|nodes|), Nearer(nodes, pos))
  }

  /** `order` lists every index below `n` once. */
  ghost predicate Enumerates(order: seq<nat>, n: nat) {
    && (forall p :: 0 <= p < |order| ==> order[p] < n)
    && (forall i: nat :: i < n ==> i in order)
    && (forall p, q :: 0 <= p < q < |order| ==> order[p] != order[q])
  }

  lemma NearestFirstOrders(nodes: seq<Node>, pos: Vec3)
    ensures Enumerates(NearestFirst(nodes, pos), |nodes|)
    ensures var order := NearestFirst(nodes, pos);
            forall p, q :: 0 <= p < q < |order| ==> DistanceTo(nodes, pos, order[p]) <= DistanceTo(nodes, pos, order[q])
  {
    var all, leq, order := Indices(|nodes|), Nearer(nodes, pos), NearestFirst(nodes, pos);
    SortBySorted(all, leq);
    SortByPermutes(all, leq);
    forall i: nat | i < |nodes| ensures i in order { assert all[i] == i; }
    forall p | 0 <= p < |order| ensures order[p] < |nodes| { assert order[p] in all; }
    forall p, q | 0 <= p < q < |order| ensures order[p] != order[q] {
      Once(all, order[p]);
      if order[p] == order[q] { TwiceIn(order, p, q); }
    }
    forall p, q | 0 <= p < q < |order| ensures DistanceTo(nodes, pos, order[p]) <= DistanceTo(nodes, pos, order[q]) {
      assert leq(order[p], order[q]);
    }
  }

  lemma {:induction false} Once(all: seq<nat>, x: nat)
    requires forall i :: 0 <= i < |all| ==> all[i] == i
    ensures multiset(all)[x] <= 1
    ensures x >= |all| ==> multiset(all)[x] == 0
  {
    if all != [] {
      var n := |all| - 1;
      Once(all[..n], x);
      assert all == all[..n] + [all[n]];
    }
  }

  /** Mana within reach of `pos`. */
  function Available(nodes: seq<Node>, pos: Vec3): real {
    if nodes == [] then 0.0
    else
      var n := |nodes| - 1;
      Available(nodes[..n], pos) + if Reaches(nodes[n], pos) then nodes[n].charge else 0.0
  }

  lemma {:induction false} ChargeChanges(nodes: seq<Node>, pos: Vec3, i: nat, charge: real)
    requires i < |nodes|
    ensures var nodes' := nodes[i := nodes[i].(charge := charge)];
            && Total(nodes') == Total(nodes) - nodes[i].charge + charge
            && Available(nodes', pos) ==
               Available(nodes, pos) + if Reaches(nodes[i], pos) then charge - nodes[i].charge else 0.0
  {
    var n := |nodes| - 1;
    var nodes' := nodes[i := nodes[i].(charge := charge)];
    if i < n {
      ChargeChanges(nodes[..n], pos, i, charge);
      assert nodes'[..n] == nodes[..n][i := nodes[..n][i].(charge := charge)];
    } else {
      assert nodes'[..n] == nodes[..n];
    }
  }

  lemma {:induction false} AvailableSign(nodes: seq<Node>, pos: Vec3)
    requires Filled(nodes)
    ensures Available(nodes, pos) >= 0.0
    ensures (forall i :: 0 <= i < |nodes| && Reaches(nodes[i], pos) ==> nodes[i].charge == 0.0) ==>
            Available(nodes, pos) == 0.0
  {
    if nodes != [] { AvailableSign(nodes[..|nodes|-1], pos); }
  }

  /** Drained from `before` to `after`: out of reach nothing moved, in reach charges only fell,
      and a well gave mana only once every strictly nearer one in reach was empty. */
  ghost predicate DrainedGreedily(before: seq<Node>, after: seq<Node>, pos: Vec3) {
    && SameWells(before, after)
    && (forall i :: 0 <= i < |before| ==> 0.0 <= after[i].charge <= before[i].charge)
    && (forall i :: 0 <= i < |before| && !Reaches(before[i], pos) ==> after[i] == before[i])
    && (forall i, j ::
          0 <= i < |before| && 0 <= j < |before| && after[i].charge < before[i].charge && Reaches(before[j], pos) &&
          DistanceTo(before, pos, j) < DistanceTo(before, pos, i)
          ==> after[j].charge == 0.0)
  }

  /** The distance itself, without a square root. */
  predicate IsDistance(n: Node, pos: Vec3, d: real) {
    d >= 0.0 && Times(d, d) == n.pos.Sub(pos).LengthSquared()
  }

  lemma SquaresInOrder(x: real, y: real)
    requires x >= 0.0 && y >= 0.0
    ensures Times(x, x) <= Times(y, y) <==> x <= y
  {
    if x < y { StrictlyOrdered(x, y); } else if y < x { StrictlyOrdered(y, x); }
  }

  lemma StrictlyOrdered(x: real, y: real)
    requires 0.0 <= x < y
    ensures Times(x, x) < Times(y, y)
  {
    var d, sum := y - x, y + x;
    assert y * y - x * x == d * sum;
    Positive(d, sum);
  }

  /** A greedy drain in distances: it takes from no well farther off than the well's influence, and
      from one only after every well in reach that is nearer. */
  lemma DrainFollowsDistance(before: seq<Node>, after: seq<Node>, pos: Vec3, i: nat, j: nat, near: real, far: real)
    requires DrainedGreedily(before, after, pos) && i < |before| && j < |before|
    requires IsDistance(before[j], pos, near) && IsDistance(before[i], pos, far)
    ensures after[i].charge < before[i].charge ==> far <= before[i].influence
    ensures after[i].charge < before[i].charge && near < far && near <= before[j].influence ==> after[j].charge == 0.0
  {
    if before[i].influence >= 0.0 { SquaresInOrder(far, before[i].influence); }
    if before[j].influence >= 0.0 { SquaresInOrder(near, before[j].influence); }
    SquaresInOrder(far, near);
  }

  ghost predicate Sums(delta: seq<real>, sats: seq<real>, lines: seq<Line>, pulls: seq<real>)
    requires Joined(lines, |sats|) && |pulls| == |lines|
  {
    |delta| == |sats| && forall i :: 0 <= i < |delta| ==> delta[i] == Delta(sats, lines, pulls, i)
  }

  lemma OneMoreLine(delta: seq<real>, sats: seq<real>, lines: seq<Line>, pulls: seq<real>, pull: real, flow: real)
    requires Joined(lines, |sats|) && |pulls| == |lines| > 0 && lines[|lines|-1] in lines
    requires Sums(delta, sats, lines[..|lines|-1], pulls[..|lines|-1])
    requires pull == pulls[|lines|-1] && flow == (sats[lines[|lines|-1].a] - sats[lines[|lines|-1].b]) * pull
    ensures var l := lines[|lines|-1];
            Sums(delta[l.a := delta[l.a] - flow][l.b := delta[l.b] + flow], sats, lines, pulls)
  {
  }

  class LeylineNetwork {
    var nodes: seq<Node>
    var lines: seq<Line>

    constructor ()
      ensures nodes == [] && lines == []
    {
      nodes, lines := [], [];
    }

    method AddNode(node: Node) returns (index: nat)
      modifies this
      ensures nodes == old(nodes) + [node] && lines == old(lines) && index == |old(nodes)|
      ensures old(Proper(nodes, lines)) && 0.0 <= node.charge <= node.capacity ==> Proper(nodes, lines)
    {
      nodes := nodes + [node];
      index := |nodes| - 1;
    }

    /** A line that would leave the network, or join a well to itself, is ignored. */
    method Connect(a: nat, b: nat, conductance: real)
      modifies this
      ensures nodes == old(nodes)
      ensures lines == if a != b && a < |nodes| && b < |nodes| then old(lines) + [Line(a, b, conductance)]
              else old(lines)
      ensures old(Proper(nodes, lines)) ==> Proper(nodes, lines)
    {
      if a != b && a < |nodes| && b < |nodes| { lines := lines + [Line(a, b, conductance)]; }
    }

    /** One step: every well recharges with the season's tide, then mana diffuses. */
    method Tick(dt: real, tide: real)
      requires Proper(nodes, lines) && dt >= 0.0 && tide >= 0.0
      modifies this
      ensures Proper(Recharge(old(nodes), tide, dt), lines) && lines == old(lines)
      ensures nodes == Diffused(Recharge(old(nodes), tide, dt), lines, dt)
      ensures Proper(nodes, lines) && SameWells(old(nodes), nodes)
    {
      ghost var start := nodes;
      for i := 0 to |nodes|
        invariant |nodes| == |start| && lines == old(lines)
        invariant forall j :: 0 <= j < |nodes| ==> nodes[j] == if j < i then Recharged(start[j], tide, dt) else start[j]
      {
        var regen := nodes[i].capacity * 0.01 * tide * dt;
        nodes := nodes[i := nodes[i].(charge := Min(nodes[i].charge + regen, nodes[i].capacity))];
      }
      assert nodes == Recharge(start, tide, dt);
      RechargeKeepsProper(start, lines, tide, dt);

      ghost var full := nodes;
      var delta := Flows(dt);
      assert delta == Deltas(full, lines, dt);
      for i := 0 to |nodes|
        invariant |nodes| == |full| && lines == old(lines)
        invariant forall j :: 0 <= j < |nodes| ==> nodes[j] == if j < i then Settled(full, delta)[j] else full[j]
      {
        nodes := nodes[i := nodes[i].(charge := Clamp(nodes[i].charge + delta[i], 0.0, nodes[i].capacity))];
      }
      assert nodes == Settled(full, delta);
      DiffusionBalance(full, lines, dt);
    }

    /** The diffusion deltas, accumulated line by line. */
    method Flows(dt: real) returns (delta: seq<real>)
      requires Proper(nodes, lines)
      ensures delta == Deltas(nodes, lines, dt)
    {
      var sats := Sats(nodes);
      ghost var pulls := Pulls(nodes, lines, dt);
      delta := seq(|nodes|, _ => 0.0);
      for k := 0 to |lines|
        invariant |delta| == |nodes| && Sums(delta, sats, lines[..k], pulls[..k])
      {
        delta := MoveAlong(k, dt, sats, pulls, delta);
      }
      assert lines[..|lines|] == lines && pulls[..|lines|] == pulls;
    }

    /** Takes one line's flow from its fuller end to its emptier one. */
    method MoveAlong(k: nat, dt: real, sats: seq<real>, ghost pulls: seq<real>, delta: seq<real>)
      returns (delta': seq<real>)
      requires Joined(lines, |nodes|) && k < |lines| && sats == Sats(nodes) && pulls == Pulls(nodes, lines, dt)
      requires Sums(delta, sats, lines[..k], pulls[..k])
      ensures Sums(delta', sats, lines[..k+1], pulls[..k+1])
    {
      var l := lines[k];
      assert l in lines;
      var pull := PullOf(l.conductance, dt, nodes[l.a].capacity, nodes[l.b].capacity);
      var flow := (sats[l.a] - sats[l.b]) * pull;
      assert lines[..k+1][..k] == lines[..k] && pulls[..k+1][..k] == pulls[..k] && pulls[..k+1][k] == pull;
      OneMoreLine(delta, sats, lines[..k+1], pulls[..k+1], pull, flow);
      delta' := delta[l.a := delta[l.a] - flow];
      delta' := delta'[l.b := delta'[l.b] + flow];
    }

    method Take(ghost pos: Vec3, i: nat, take: real)
      requires i < |nodes| && Reaches(nodes[i], pos)
      modifies this
      ensures lines == old(lines) && nodes == old(nodes)[i := old(nodes)[i].(charge := old(nodes)[i].charge - take)]
      ensures Total(nodes) == Total(old(nodes)) - take && Available(nodes, pos) == Available(old(nodes), pos) - take
    {
      ChargeChanges(nodes, pos, i, nodes[i].charge - take);
      nodes := nodes[i := nodes[i].(charge := nodes[i].charge - take)];
    }

    /** Takes what is still wanted from one well, if it is in reach. */
    method Visit(ghost start: seq<Node>, order: seq<nat>, p: nat, pos: Vec3, remaining: real) returns (left: real)
      requires p < |order| && remaining > 0.0 && DrainedUpTo(start, nodes, order, p, pos, true)
      modifies this
      ensures lines == old(lines) && 0.0 <= left <= remaining
      ensures DrainedUpTo(start, nodes, order, p + 1, pos, left > 0.0)
      ensures Total(nodes) == Total(old(nodes)) - (remaining - left)
      ensures Available(nodes, pos) == Available(old(nodes), pos) - (remaining - left)
    {
      left := remaining;
      if Reaches(nodes[order[p]], pos) {
        var take := Min(remaining, nodes[order[p]].charge);
        DrainOne(start, nodes, order, p, pos, remaining, take);
        Take(pos, order[p], take);
        left := remaining - take;
      } else {
        DrainNone(start, nodes, order, p, pos);
      }
    }

    /** Draws mana from the nearest wells in reach; returns what there was. */
    method Draw(pos: Vec3, amount: real) returns (got: real)
      requires Filled(nodes)
      modifies this
      ensures got == if amount <= 0.0 then 0.0 else Min(amount, Available(old(nodes), pos))
      ensures Total(nodes) == Total(old(nodes)) - got && Available(nodes, pos) == Available(old(nodes), pos) - got
      ensures DrainedGreedily(old(nodes), nodes, pos) && lines == old(lines)
    {
      ghost var start := nodes;
      var order := NearestFirst(nodes, pos);
      NearestFirstOrders(nodes, pos);
      AvailableSign(nodes, pos);
      DrainStarts(start, order, pos, amount > 0.0);
      var remaining, p := DrawAlong(start, order, pos, amount);
      got := amount - remaining;
      DrainedEnough(start, nodes, order, p, pos, remaining);
    }

    /** Visits the wells in order until nothing more is wanted. */
    method DrawAlong(ghost start: seq<Node>, order: seq<nat>, pos: Vec3, amount: real)
      returns (remaining: real, ghost p: nat)
      requires nodes == start && DrainedUpTo(start, nodes, order, 0, pos, amount > 0.0)
      modifies this
      ensures p <= |order| && (p == |order| || remaining <= 0.0) && lines == old(lines)
      ensures if amount > 0.0 then 0.0 <= remaining else remaining == amount
      ensures DrainedUpTo(start, nodes, order, p, pos, remaining > 0.0)
      ensures Total(nodes) == Total(start) - (amount - remaining)
      ensures Available(nodes, pos) == Available(start, pos) - (amount - remaining)
    {
      remaining := amount;
      var i := 0;
      while i < |order| && remaining > 0.0
        invariant i <= |order| && lines == old(lines)
        invariant if amount > 0.0 then 0.0 <= remaining else remaining == amount
        invariant DrainedUpTo(start, nodes, order, i, pos, remaining > 0.0)
        invariant Total(nodes) == Total(start) - (amount - remaining)
        invariant Available(nodes, pos) == Available(start, pos) - (amount - remaining)
      {
        remaining := Visit(start, order, i, pos, remaining);
        i := i + 1;
      }
      p := i;
    }
  }

  lemma DrainStarts(nodes: seq<Node>, order: seq<nat>, pos: Vec3, wanting: bool)
    requires Filled(nodes) && Enumerates(order, |nodes|)
    ensures DrainedUpTo(nodes, nodes, order, 0, pos, wanting)
  {
  }

  /** The first `p` wells of `order` have been visited; as long as mana is still wanted, those
      in reach are empty. */
  ghost predicate DrainedUpTo(start: seq<Node>, nodes: seq<Node>, order: seq<nat>, p: nat, pos: Vec3, wanting: bool)
  {
    && Enumerates(order, |start|) && SameWells(start, nodes) && p <= |order|
    && (forall i :: 0 <= i < |nodes| ==> 0.0 <= nodes[i].charge <= start[i].charge)
    && (forall i :: 0 <= i < |nodes| && !Reaches(start[i], pos) ==> nodes[i] == start[i])
    && (forall q :: p <= q < |order| ==> nodes[order[q]] == start[order[q]])
    && (wanting ==> forall q :: 0 <= q < p && Reaches(start[order[q]], pos) ==> nodes[order[q]].charge == 0.0)
    && (forall q, r ::
          0 <= q < r < p && nodes[order[r]].charge < start[order[r]].charge && Reaches(start[order[q]], pos) ==>
          nodes[order[q]].charge == 0.0)
  }

  lemma DrainNone(start: seq<Node>, nodes: seq<Node>, order: seq<nat>, p: nat, pos: Vec3)
    requires p < |order| && DrainedUpTo(start, nodes, order, p, pos, true) && !Reaches(nodes[order[p]], pos)
    ensures DrainedUpTo(start, nodes, order, p + 1, pos, true)
  {
  }

  lemma DrainOne(start: seq<Node>, nodes: seq<Node>, order: seq<nat>, p: nat, pos: Vec3, remaining: real, take: real)
    requires p < |order| && DrainedUpTo(start, nodes, order, p, pos, true) && Reaches(nodes[order[p]], pos)
    requires remaining > 0.0 && take == Min(remaining, nodes[order[p]].charge)
    ensures var i := order[p];
            DrainedUpTo(start, nodes[i := nodes[i].(charge := nodes[i].charge - take)], order, p + 1, pos,
                        remaining - take > 0.0)
  {
    var i := order[p];
    assert nodes[i] == start[i];
    var after := nodes[i := nodes[i].(charge := nodes[i].charge - take)];
    forall q | 0 <= q < |order| && q != p ensures after[order[q]] == nodes[order[q]] { assert order[q] != i; }
  }

  lemma DrainedEnough(start: seq<Node>, nodes: seq<Node>, order: seq<nat>, p: nat, pos: Vec3, remaining: real)
    requires Filled(start) && order == NearestFirst(start, pos) && p <= |order|
    requires DrainedUpTo(start, nodes, order, p, pos, remaining > 0.0) && (p == |order| || remaining <= 0.0)
    ensures DrainedGreedily(start, nodes, pos)
    ensures Available(nodes, pos) >= 0.0 && (remaining > 0.0 ==> Available(nodes, pos) == 0.0)
  {
    NearestFirstOrders(start, pos);
    assert Filled(nodes);
    AvailableSign(nodes, pos);
    if remaining > 0.0 {
      forall i | 0 <= i < |nodes| && Reaches(nodes[i], pos) ensures nodes[i].charge == 0.0 {
        assert i in order;
      }
    }
    forall i, j | 0 <= i < |start| && 0 <= j < |start| && nodes[i].charge < start[i].charge && Reaches(start[j], pos)
                  && DistanceTo(start, pos, j) < DistanceTo(start, pos, i)
      ensures nodes[j].charge == 0.0
    {
      assert i in order && j in order;
      var r :| 0 <= r < |order| && order[r] == i;
      var q :| 0 <= q < |order| && order[q] == j;
      assert r < p && q < r;
    }
  }

  lemma RechargeKeepsProper(nodes: seq<Node>, lines: seq<Line>, tide: real, dt: real)
    requires Proper(nodes, lines) && tide >= 0.0 && dt >= 0.0
    ensures Proper(Recharge(nodes, tide, dt), lines)
    ensures forall i :: 0 <= i < |nodes| ==> nodes[i].charge <= Recharge(nodes, tide, dt)[i].charge
  {
    forall i | 0 <= i < |nodes| ensures nodes[i].charge <= Recharge(nodes, tide, dt)[i].charge <= nodes[i].capacity {
      var g := nodes[i].capacity * 0.01 * tide;
      assert g >= 0.0;
      ScaledMono(g, 0.0, dt);
    }
  }

  // ---- a level network rises together ----

  /** Every well that can hold anything is at saturation `s`. */
  ghost predicate Level(nodes: seq<Node>, s: real) {
    forall i :: 0 <= i < |nodes| && nodes[i].capacity > 0.0 ==> nodes[i].Saturation() == s
  }

  lemma Portions(c: real, s: real, tide: real, dt: real)
    ensures Times(s, c) + c * 0.01 * tide * dt == Times(s + 0.01 * tide * dt, c)
  {
    Regroup(c, tide, dt);
  }

  lemma Regroup(c: real, tide: real, dt: real)
    ensures c * 0.01 * tide * dt == 0.01 * tide * dt * c
  {
    assert c * 0.01 * tide == 0.01 * tide * c;
    Swap(0.01 * tide, c, dt);
  }

  lemma Swap(x: real, y: real, z: real)
    ensures x * y * z == x * z * y
  {
  }

  lemma LeastPortion(x: real, c: real)
    requires c > 0.0
    ensures Min(Times(x, c), c) == Times(Min(x, 1.0), c)
  {
    if x <= 1.0 { ScaledMono(c, x, 1.0); } else { ScaledMono(c, 1.0, x); }
  }

  /** Recharging raises every well by the same share of its own capacity, up to full. */
  lemma RechargeBySaturation(nodes: seq<Node>, tide: real, dt: real, i: nat)
    requires Filled(nodes) && i < |nodes| && nodes[i].capacity > 0.0 && tide >= 0.0 && dt >= 0.0
    ensures Recharge(nodes, tide, dt)[i].Saturation() == Min(1.0, nodes[i].Saturation() + 0.01 * tide * dt)
  {
    var n, c, s := nodes[i], nodes[i].capacity, nodes[i].Saturation();
    ChargeIsSaturation(n);
    var x := s + 0.01 * tide * dt;
    Portions(c, s, tide, dt);
    LeastPortion(x, c);
    NoneOf(0.01 * tide, dt);
    assert n.charge == Times(s, c);
    LevelSat(Recharged(n, tide, dt), Min(x, 1.0));
  }

  lemma {:induction false} NoGradient(sats: seq<real>, lines: seq<Line>, pulls: seq<real>, i: nat)
    requires Joined(lines, |sats|) && |pulls| == |lines|
    requires forall k :: 0 <= k < |lines| && pulls[k] != 0.0 ==>
               lines[k].a < |sats| && lines[k].b < |sats| && sats[lines[k].a] == sats[lines[k].b]
    ensures Delta(sats, lines, pulls, i) == 0.0
  {
    if lines != [] {
      var n := |lines| - 1;
      NoGradient(sats, lines[..n], pulls[..n], i);
      assert lines[n] in lines;
    }
  }

  /** Nothing flows in a level network, whatever its lines. */
  lemma LevelIsStill(nodes: seq<Node>, lines: seq<Line>, dt: real, s: real)
    requires Proper(nodes, lines) && Level(nodes, s)
    ensures Diffused(nodes, lines, dt) == nodes
  {
    var sats, pulls := Sats(nodes), Pulls(nodes, lines, dt);
    forall k | 0 <= k < |lines| && pulls[k] != 0.0
      ensures lines[k].a < |sats| && lines[k].b < |sats| && sats[lines[k].a] == sats[lines[k].b]
    {
      PullNeedsCapacity(nodes, lines, dt, k);
    }
    forall i | 0 <= i < |nodes| ensures Deltas(nodes, lines, dt)[i] == 0.0 { NoGradient(sats, lines, pulls, i); }
  }

  /** A step's length, and the season's tide during it. */
  datatype Step = Step(dt: real, tide: real) {
    predicate Forward() { dt >= 0.0 && tide >= 0.0 }

    /** The share of its capacity every well recovers. */
    function Recovery(): real { 0.01 * tide * dt }
  }

  ghost predicate AllForward(steps: seq<Step>) {
    forall step :: step in steps ==> step.Forward()
  }

  function Recovered(steps: seq<Step>): real {
    if steps == [] then 0.0 else Recovered(steps[..|steps|-1]) + steps[|steps|-1].Recovery()
  }

  function Ticked(nodes: seq<Node>, lines: seq<Line>, step: Step): (r: seq<Node>)
    requires Proper(nodes, lines) && step.Forward()
    ensures Proper(r, lines) && SameWells(nodes, r)
  {
    RechargeKeepsProper(nodes, lines, step.tide, step.dt);
    DiffusionBalance(Recharge(nodes, step.tide, step.dt), lines, step.dt);
    Diffused(Recharge(nodes, step.tide, step.dt), lines, step.dt)
  }

  function After(nodes: seq<Node>, lines: seq<Line>, steps: seq<Step>): (r: seq<Node>)
    requires Proper(nodes, lines) && AllForward(steps)
    ensures Proper(r, lines) && SameWells(nodes, r)
  {
    if steps == [] then nodes
    else
      assert steps[|steps|-1].Forward();
      Ticked(After(nodes, lines, steps[..|steps|-1]), lines, steps[|steps|-1])
  }

  lemma LevelStepRises(nodes: seq<Node>, lines: seq<Line>, step: Step, s: real)
    requires Proper(nodes, lines) && Level(nodes, s) && step.Forward()
    ensures Level(Ticked(nodes, lines, step), Min(1.0, s + step.Recovery()))
  {
    var full, x := Recharge(nodes, step.tide, step.dt), Min(1.0, s + step.Recovery());
    RechargeKeepsProper(nodes, lines, step.tide, step.dt);
    forall i | 0 <= i < |full| && full[i].capacity > 0.0
      ensures full[i].Saturation() == x
    {
      RechargeBySaturation(nodes, step.tide, step.dt, i);
    }
    LevelIsStill(full, lines, step.dt, x);
  }

  /** Over any steps and seasons, wells level at the start stay level, however different their
      capacities and however they are joined, and rise by the recovery of each step until full. */
  lemma {:induction false} LevelNetworkRises(nodes: seq<Node>, lines: seq<Line>, steps: seq<Step>, s: real)
    requires Proper(nodes, lines) && Level(nodes, s) && s <= 1.0 && AllForward(steps)
    ensures Level(After(nodes, lines, steps), Min(1.0, s + Recovered(steps))) && Recovered(steps) >= 0.0
  {
    if steps != [] {
      var front, last := steps[..|steps|-1], steps[|steps|-1];
      LevelNetworkRises(nodes, lines, front, s);
      assert last.Forward();
      RecoveryIsForward(last);
      LevelStepRises(After(nodes, lines, front), lines, last, Min(1.0, s + Recovered(front)));
      StaysCapped(s, Recovered(front), last.Recovery());
    }
  }

  lemma RecoveryIsForward(step: Step)
    requires step.Forward()
    ensures step.Recovery() >= 0.0
  {
    NoneOf(0.01 * step.tide, step.dt);
  }

  lemma StaysCapped(s: real, x: real, y: real)
    requires x >= 0.0 && y >= 0.0
    ensures Min(1.0, Min(1.0, s + x) + y) == Min(1.0, s + (x + y))
  {
  }

  /** An empty network is full exactly once the summed recovery makes a whole. */
  lemma EmptyNetworkFillsIff(nodes: seq<Node>, lines: seq<Line>, steps: seq<Step>, i: nat)
    requires Proper(nodes, lines) && (forall j :: 0 <= j < |nodes| ==> nodes[j].charge == 0.0)
    requires AllForward(steps) && i < |nodes| && nodes[i].capacity > 0.0
    ensures After(nodes, lines, steps)[i].charge == nodes[i].capacity <==> Recovered(steps) >= 1.0
  {
    LevelNetworkRises(nodes, lines, steps, 0.0);
    ChargeIsSaturation(After(nodes, lines, steps)[i]);
    FullIff(After(nodes, lines, steps)[i]);
  }

  lemma FullIff(n: Node)
    requires n.capacity > 0.0 && 0.0 <= n.charge <= n.capacity
    ensures n.charge == n.capacity <==> n.Saturation() == 1.0
  {
    ChargeIsSaturation(n);
    if n.charge == n.capacity { LevelSat(n, 1.0); }
  }

  // ---- two wells ----

  /** The step of the smaller well `a` and the larger one `b` towards each other: `h` of the gap. */
  function Closer(x: real, y: real, h: real): real { x - Times(x - y, h) }

  lemma CloserIsBetween(x: real, y: real, h: real)
    requires 0.0 <= x <= 1.0 && 0.0 <= y <= 1.0 && 0.0 <= h <= 1.0
    ensures 0.0 <= Closer(x, y, h) <= 1.0
  {
    if x >= y { Within(x - y, h); Commute(x - y, h); } else { Within(y - x, h); Commute(y - x, h); Opposite(x, y, h); }
  }

  lemma Commute(x: real, y: real)
    ensures Times(x, y) == Times(y, x)
  {
  }

  lemma Opposite(x: real, y: real, h: real)
    ensures Times(x - y, h) == -Times(y - x, h)
  {
  }

  lemma FlowOut(x: real, gap: real, h: real, c: real)
    ensures Times(x, c) - Times(gap, Times(h, c)) == Times(x - Times(gap, h), c)
    ensures Times(x, c) + Times(gap, Times(h, c)) == Times(x + Times(gap, h), c)
  {
    assert gap * (h * c) == gap * h * c;
  }

  lemma SmallerShare(h: real, small: real, large: real)
    requires large > 0.0
    ensures Times(h, small) == Times(Times(h, small / large), large)
  {
    assert small / large * large == small;
    assert h * (small / large) * large == h * (small / large * large);
  }

  lemma ShareAtMost(h: real, small: real, large: real)
    requires 0.0 <= h <= 1.0 && 0.0 < small <= large
    ensures 0.0 <= Times(h, small / large) <= 1.0
  {
    assert 0.0 <= small / large <= 1.0;
    Within(small / large, h);
  }

  lemma OnlyLine(sats: seq<real>, l: Line, pull: real, i: nat)
    requires Joined([l], |sats|)
    ensures l in [l] && Delta(sats, [l], [pull], i) == Gain(sats, l, pull, i)
  {
    assert [l][..0] == [] && [pull][..0] == [];
  }

  lemma PairPull(a: Node, b: Node, g: real, dt: real)
    requires a.capacity <= b.capacity && Joined([Line(0, 1, g)], 2)
    ensures Pulls([a, b], [Line(0, 1, g)], dt) == [Times(g * 0.5 * dt, a.capacity)]
  {
    var nodes := [a, b];
    assert nodes[0] == a && nodes[1] == b;
    assert PullOf(g, dt, a.capacity, b.capacity) == Times(g * 0.5 * dt, a.capacity);
  }

  lemma GainEnds(sats: seq<real>, l: Line, pull: real, x: real, y: real)
    requires l.a < |sats| && l.b < |sats| && l.a != l.b && x == sats[l.a] && y == sats[l.b]
    ensures Gain(sats, l, pull, l.a) == -Times(x - y, pull) && Gain(sats, l, pull, l.b) == Times(x - y, pull)
  {
  }

  /** What the only line of two wells moves. */
  lemma PairDeltas(a: Node, b: Node, g: real, dt: real, pull: real)
    requires Filled([a, b]) && a.capacity <= b.capacity && pull == Times(g * 0.5 * dt, a.capacity)
    ensures Joined([Line(0, 1, g)], 2)
    ensures var flow := Times(a.Saturation() - b.Saturation(), pull);
            Deltas([a, b], [Line(0, 1, g)], dt) == [-flow, flow]
  {
    var nodes, l := [a, b], Line(0, 1, g);
    var sats := Sats(nodes);
    assert nodes[0] == a && nodes[1] == b;
    PairPull(a, b, g, dt);
    OnlyLine(sats, l, pull, 0);
    OnlyLine(sats, l, pull, 1);
    GainEnds(sats, l, pull, a.Saturation(), b.Saturation());
  }

  lemma SmallerCloses(a: Node, y: real, h: real, after: Node)
    requires 0.0 < a.capacity && 0.0 <= a.charge <= a.capacity && 0.0 <= h <= 1.0 && 0.0 <= y <= 1.0
    requires var delta := -Times(a.Saturation() - y, Times(h, a.capacity));
             after == a.(charge := Clamp(a.charge + delta, 0.0, a.capacity))
    ensures after.Saturation() == Closer(a.Saturation(), y, h)
  {
    var x := a.Saturation();
    ChargeIsSaturation(a);
    FlowOut(x, x - y, h, a.capacity);
    CloserIsBetween(x, y, h);
    Landed(a, -Times(x - y, Times(h, a.capacity)), Closer(x, y, h), after);
  }

  lemma LargerCloses(b: Node, small: real, x: real, h: real, after: Node)
    requires 0.0 < small <= b.capacity && 0.0 <= b.charge <= b.capacity && 0.0 <= h <= 1.0 && 0.0 <= x <= 1.0
    requires var delta := Times(x - b.Saturation(), Times(h, small));
             after == b.(charge := Clamp(b.charge + delta, 0.0, b.capacity))
    ensures after.Saturation() == Closer(b.Saturation(), x, Times(h, small / b.capacity))
  {
    var y, k := b.Saturation(), Times(h, small / b.capacity);
    SmallerShare(h, small, b.capacity);
    ShareAtMost(h, small, b.capacity);
    Opposite(x, y, Times(k, b.capacity));
    ChargeIsSaturation(b);
    SmallerCloses(b, x, k, after);
  }

  /** One line between two wells, exactly: the smaller one moves g * dt / 2 of the gap between the two
      saturations towards the larger, and that one as much less as its capacity is larger. Wells of
      one capacity are left with 1 - g * dt of the gap. */
  lemma PairCloses(a: Node, b: Node, g: real, dt: real)
    requires Filled([a, b]) && 0.0 < a.capacity <= b.capacity && 0.0 <= g * dt <= 2.0
    ensures Joined([Line(0, 1, g)], 2)
    ensures var after := Diffused([a, b], [Line(0, 1, g)], dt);
            var x, y, h := a.Saturation(), b.Saturation(), g * dt / 2.0;
            && after[0].Saturation() == Closer(x, y, h)
            && after[1].Saturation() == Closer(y, x, Times(h, a.capacity / b.capacity))
            && (a.capacity == b.capacity ==>
                  after[0].Saturation() - after[1].Saturation() == Times(x - y, 1.0 - g * dt))
  {
    var nodes, h := [a, b], g * dt / 2.0;
    assert nodes[0] == a && nodes[1] == b;
    var after := Diffused(nodes, [Line(0, 1, g)], dt);
    HalfOf(g, dt);
    PairDeltas(a, b, g, dt, Times(h, a.capacity));
    ChargeIsSaturation(a);
    ChargeIsSaturation(b);
    SmallerCloses(a, b.Saturation(), h, after[0]);
    LargerCloses(b, a.capacity, a.Saturation(), h, after[1]);
    if a.capacity == b.capacity {
      WholeOf(h, a.capacity);
      EvenGap(a.Saturation(), b.Saturation(), g, dt);
    }
  }

  lemma HalfOf(g: real, dt: real)
    ensures g * 0.5 * dt == g * dt / 2.0
  {
  }

  lemma WholeOf(h: real, c: real)
    requires c > 0.0
    ensures Times(h, c / c) == h
  {
  }

  lemma Landed(n: Node, delta: real, s: real, n': Node)
    requires n.capacity > 0.0 && 0.0 <= s <= 1.0 && n.charge + delta == Times(s, n.capacity)
    requires n' == n.(charge := Clamp(n.charge + delta, 0.0, n.capacity))
    ensures n'.Saturation() == s
  {
    Within(n.capacity, s);
    LevelSat(n', s);
  }

  lemma EvenGap(x: real, y: real, g: real, dt: real)
    ensures Closer(x, y, g * dt / 2.0) - Closer(y, x, g * dt / 2.0) == Times(x - y, 1.0 - g * dt)
  {
    var z, d := g * dt, x - y;
    assert Times(d, z / 2.0) == Times(d, z) / 2.0;
    Opposite(y, x, z / 2.0);
    assert Times(d, 1.0 - z) == d - Times(d, z);
  }
}
