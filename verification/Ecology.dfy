/** The food web (arena-mythos): one population step per in-world day. Populations are reals;
    the mutation dice of a day and a species are a parameter. */
module Ecology {
  import opened Geometry
  import opened Protocol
  import opened Sorting

  const DAY_TICKS := 92160

  datatype Season = Kindling | Highsun | Emberfall | Duskwane | LongDark

  datatype Trophic = Grazer | Predator | Apex

  datatype Species = Species(mob: Id, trophic: Trophic, prey: seq<Id>, capacity: real, growth: real, population: real)

  datatype Event =
    | Bloom(mob: Id, population: real)
    | Crash(mob: Id)
    | Mutation(base: Id, variant: Id, powerMult: real)

  /** For a tick and a mob, the two uniform fractions its generator draws. */
  type Dice = (nat, Id) -> (real, real)

  datatype Web = Web(species: seq<Species>, lastDay: nat)

  function SeasonGrowth(season: Season): real {
    match season
    case Kindling => 1.1
    case Highsun => 1.0
    case Emberfall => 1.3
    case Duskwane => 0.8
    case LongDark => 0.5
  }

  /** The population of the first species of that name. */
  function PopOf(species: seq<Species>, mob: Id): real {
    if species == [] then 0.0
    else if species[0].mob == mob then species[0].population
    else PopOf(species[1..], mob)
  }

  function Available(species: seq<Species>, prey: seq<Id>): real {
    if prey == [] then 0.0 else Available(species, prey[..|prey| - 1]) + PopOf(species, prey[|prey| - 1])
  }

  /** What the last species of that name has to eat. */
  function PreyFor(species: seq<Species>, among: seq<Species>, mob: Id): real {
    if among == [] then 0.0
    else if among[|among| - 1].mob == mob then Available(species, among[|among| - 1].prey)
    else PreyFor(species, among[..|among| - 1], mob)
  }

  function Rate(s: Species, season: Season): real { Times(s.growth, SeasonGrowth(season)) }

  function Fill(x: real, capacity: real): real { x / Max(capacity, 1.0) }

  function Next(s: Species, prey: real, season: Season): real {
    var r, p := Rate(s, season), s.population;
    match s.trophic
    case Grazer => p + Times(Times(r, p), 1.0 - Fill(p, s.capacity))
    case _ => p + Times(Times(r, p), Min(Fill(prey, s.capacity), 1.0) - 0.5) - p * 0.02
  }

  function StepOne(species: seq<Species>, s: Species, season: Season): Species {
    s.(population := Max(Next(s, PreyFor(species, species, s.mob), season), 0.0))
  }

  function Stepped(species: seq<Species>, season: Season): seq<Species> {
    Map((s: Species) => StepOne(species, s, season), species)
  }

  function Blooms(before: Species, after: Species): bool {
    after.population > before.capacity * 1.3 && before.population <= before.capacity * 1.3
  }

  function Crashes(before: Species, after: Species): bool {
    after.population < before.capacity * 0.1 && before.population >= before.capacity * 0.1
  }

  function Mutates(after: Species, dice: Dice, tick: nat): bool {
    dice(tick, after.mob).0 < 0.01 * (if after.population < after.capacity * 0.2 then 3.0 else 1.0)
  }

  function EventsOf(before: Species, after: Species, dice: Dice, tick: nat): seq<Event> {
    (if Blooms(before, after) then [Bloom(after.mob, after.population)] else [])
    + (if Crashes(before, after) then [Crash(after.mob)] else [])
    + (if Mutates(after, dice, tick)
       then [Mutation(after.mob, after.mob + ".scion", 1.2 + dice(tick, after.mob).1 * 0.7)] else [])
  }

  function EventsUpTo(before: seq<Species>, after: seq<Species>, dice: Dice, tick: nat, n: nat): seq<Event>
    requires n <= |before| == |after|
  {
    if n == 0 then []
    else EventsUpTo(before, after, dice, tick, n - 1) + EventsOf(before[n - 1], after[n - 1], dice, tick)
  }

  /** Nothing happens twice on one day. */
  function TickIn(w: Web, tick: nat, season: Season): Web {
    if tick / DAY_TICKS == w.lastDay then w else Web(Stepped(w.species, season), tick / DAY_TICKS)
  }

  function EventsIn(w: Web, dice: Dice, tick: nat, season: Season): seq<Event> {
    if tick / DAY_TICKS == w.lastDay then []
    else EventsUpTo(w.species, Stepped(w.species, season), dice, tick, |w.species|)
  }

  ghost predicate IsPrey(totals: map<Id, real>, species: seq<Species>) {
    forall mob :: LookUp(totals, mob) == PreyFor(species, species, mob)
  }

  function LookUp(totals: map<Id, real>, mob: Id): real { if mob in totals then totals[mob] else 0.0 }

  function Moved(s: Species, totals: map<Id, real>, season: Season): Species {
    s.(population := Max(Next(s, LookUp(totals, s.mob), season), 0.0))
  }

  lemma EventsStep(before: seq<Species>, after: seq<Species>, dice: Dice, tick: nat, n: nat, t: Species)
    requires n < |before| == |after|
    ensures EventsUpTo(before, after[n := t], dice, tick, n + 1) ==
            EventsUpTo(before, after, dice, tick, n) + EventsOf(before[n], t, dice, tick)
  {
    EventsReadPrefix(before, after, after[n := t], dice, tick, n);
  }

  lemma {:induction false} EventsReadPrefix(
    before: seq<Species>, after: seq<Species>, after': seq<Species>, dice: Dice, tick: nat, n: nat)
    requires n <= |before| == |after| == |after'| && forall k :: 0 <= k < n ==> after[k] == after'[k]
    ensures EventsUpTo(before, after', dice, tick, n) == EventsUpTo(before, after, dice, tick, n)
  {
    if n > 0 {
      EventsReadPrefix(before, after, after', dice, tick, n - 1);
    }
  }

  class Ecosystem {
    var species: seq<Species>
    var lastDay: nat

    ghost function View(): Web
      reads this
    {
      Web(species, lastDay)
    }

    constructor ()
      ensures View() == Web([], 0)
    {
      species, lastDay := [], 0;
    }

    method Add(s: Species)
      modifies this`species
      ensures species == old(species) + [s]
    {
      species := species + [s];
    }

    /** Prey is counted before anything moves, so the species may be stepped in place, one after
        the other. */
    method Tick(dice: Dice, tick: nat, season: Season) returns (events: seq<Event>)
      modifies this
      ensures View() == TickIn(old(View()), tick, season)
      ensures events == EventsIn(old(View()), dice, tick, season)
    {
      events := [];
      var day := tick / DAY_TICKS;
      if day == lastDay {
        return;
      }
      lastDay := day;
      var totals := PreyTotals();
      ghost var before := species;
      species, events := StepAll(species, totals, dice, tick, season);
      assert species == Stepped(before, season);
    }

    /** Steps the species one after the other. */
    static method StepAll(before: seq<Species>, totals: map<Id, real>, dice: Dice, tick: nat, season: Season)
      returns (stepped: seq<Species>, events: seq<Event>)
      ensures |stepped| == |before| && forall k :: 0 <= k < |before| ==> stepped[k] == Moved(before[k], totals, season)
      ensures events == EventsUpTo(before, stepped, dice, tick, |before|)
    {
      stepped, events := before, [];
      var i := 0;
      while i < |before|
        invariant i <= |stepped| == |before|
        invariant forall k :: 0 <= k < i ==> stepped[k] == Moved(before[k], totals, season)
        invariant forall k :: i <= k < |before| ==> stepped[k] == before[k]
        invariant events == EventsUpTo(before, stepped, dice, tick, i)
      {
        var s := stepped[i];
        assert s == before[i];
        var t := NextOf(s, totals, season);
        EventsStep(before, stepped, dice, tick, i, t);
        stepped := stepped[i := t];
        events := events + EventsOf(s, t, dice, tick);
        i := i + 1;
      }
    }

    static method NextOf(s: Species, totals: map<Id, real>, season: Season) returns (t: Species)
      ensures t == Moved(s, totals, season)
    {
      var r := Times(s.growth, SeasonGrowth(season));
      var next: real;
      if s.trophic == Grazer {
        next := s.population + Times(Times(r, s.population), 1.0 - Fill(s.population, s.capacity));
      } else {
        var prey := if s.mob in totals then totals[s.mob] else 0.0;
        var support := Min(Fill(prey, s.capacity), 1.0);
        next := s.population + Times(Times(r, s.population), support - 0.5) - s.population * 0.02;
      }
      t := s.(population := Max(next, 0.0));
    }

    method PreyTotals() returns (totals: map<Id, real>)
      ensures IsPrey(totals, species)
    {
      totals := map[];
      var i := 0;
      while i < |species|
        invariant i <= |species|
        invariant forall mob :: LookUp(totals, mob) == PreyFor(species, species[..i], mob)
      {
        assert species[..i + 1][..i] == species[..i];
        totals := totals[species[i].mob := Available(species, species[i].prey)];
        i := i + 1;
      }
      assert species[..i] == species;
    }

    method SpawnWeight(mob: Id) returns (weight: real)
      ensures weight == WeightOf(species, mob)
    {
      var i := 0;
      while i < |species|
        invariant i <= |species|
        invariant WeightOf(species, mob) == WeightOf(species[i..], mob)
      {
        if species[i].mob == mob {
          return Clamp(Fill(species[i].population, species[i].capacity), 0.0, 2.5);
        }
        i := i + 1;
      }
      weight := 1.0;
    }
  }

  function WeightOf(species: seq<Species>, mob: Id): real {
    if species == [] then 1.0
    else if species[0].mob == mob then Clamp(Fill(species[0].population, species[0].capacity), 0.0, 2.5)
    else WeightOf(species[1..], mob)
  }

  // ---- one step ----

  lemma LogisticBound(r: real, p: real, k: real)
    requires 0.0 <= r <= 1.0 && 0.0 <= p <= k && k > 0.0
    ensures p <= p + Times(Times(r, p), 1.0 - p / k) <= k
  {
    var q, rp := p / k, r * p;
    assert q * k == p;
    assert q > 1.0 ==> q * k > k;
    assert 0.0 <= rp <= p;
    assert (1.0 - q) * k == k - q * k;
    Bounded(rp, 1.0 - q, p, k);
  }

  lemma Bounded(rp: real, g: real, p: real, k: real)
    requires 0.0 <= rp <= p <= k && 0.0 <= g <= 1.0 && g * k == k - p
    ensures 0.0 <= Times(rp, g) <= k - p
  {
    assert rp * g <= k * g;
  }

  /** A grazer at or below what the land supports, breeding at no more than a full rate. */
  predicate Settled(s: Species, season: Season) {
    s.trophic == Grazer && 0.0 <= s.population <= Max(s.capacity, 1.0) && 0.0 <= Rate(s, season) <= 1.0
  }

  /** A settled grazer never shrinks, never outgrows the land, and with a capacity of at least
      one never blooms. */
  lemma GrazersSettle(species: seq<Species>, s: Species, season: Season)
    requires Settled(s, season)
    ensures s.population <= StepOne(species, s, season).population <= Max(s.capacity, 1.0)
    ensures s.capacity >= 1.0 ==> !Blooms(s, StepOne(species, s, season))
  {
    LogisticBound(Rate(s, season), s.population, Max(s.capacity, 1.0));
  }

  lemma Overshoot(r: real, e: real, w: real)
    requires e > 0.0 && w > 0.0 && r == 2.0 * w + 1.0 && Times(r, e) == w
    ensures Times(Times(r, 1.0 - e), e) > e
  {
    assert Times(r, 1.0 - e) == r - w;
    assert Times(r - w, e) == Times(r, e) - Times(w, e);
    assert Times(r, e) == 2.0 * Times(w, e) + e;
    assert Times(w, e) > 0.0;
  }

  lemma Regroup(r: real, q: real, k: real, z: real)
    ensures Times(Times(r, Times(q, k)), z) == Times(Times(Times(r, q), z), k)
  {
    assert r * (q * k) == (r * q) * k;
    assert (r * q) * k * z == (r * q) * z * k;
  }

  lemma Exceeds(x: real, y: real, k: real)
    requires k > 0.0 && x > y
    ensures Times(x, k) > Times(y, k)
  {
    Scaled(y, x, k);
  }

  lemma InUnits(r: real, q: real, z: real, k: real)
    requires k > 0.0 && Times(Times(r, q), z) > 1.0 - q
    ensures Times(Times(r, Times(q, k)), z) > k - Times(q, k)
  {
    Exceeds(Times(Times(r, q), z), 1.0 - q, k);
    Regroup(r, q, k, z);
    assert Times(1.0 - q, k) == k - Times(q, k);
  }

  lemma Portion(r: real, w: real) returns (e: real)
    requires w > 0.0 && r == 2.0 * w + 1.0
    ensures 0.0 < e < 1.0 && Times(r, e) == w
  {
    e := w / r;
  }

  lemma OfCapacity(q: real, k: real)
    requires 0.0 <= q <= 1.0 && k > 0.0
    ensures 0.0 <= Times(q, k) <= k && Times(q, k) / k == q
  {
    assert (1.0 - q) * k >= 0.0;
  }

  /** A population that a rate above one carries past the land's capacity `k`. */
  lemma TooFast(r: real, k: real) returns (p: real)
    requires r > 1.0 && k > 0.0
    ensures 0.0 <= p <= k && p + Times(Times(r, p), 1.0 - p / k) > k
  {
    var w := (r - 1.0) / 2.0;
    var e := Portion(r, w);
    Overshoot(r, e, w);
    InUnits(r, 1.0 - e, e, k);
    OfCapacity(1.0 - e, k);
    p := Times(1.0 - e, k);
    assert 1.0 - p / k == e;
  }

  lemma Dwindles(r: real, k: real)
    requires r < 0.0 && k > 0.0
    ensures Times(Times(r, 0.5 * k), 1.0 - 0.5 * k / k) < 0.0
  {
    assert 0.5 * k / k == 0.5;
    assert r * (0.5 * k) < 0.0;
  }

  /** One step keeps the grazer between where it was and what the land supports. */
  predicate KeptBy(species: seq<Species>, s: Species, season: Season) {
    s.population <= StepOne(species, s, season).population <= Max(s.capacity, 1.0)
  }

  /** The bound on the rate is sharp: every population within the land's means is kept there, and
      from shrinking, exactly if the season's rate lies between nothing and one. */
  lemma GrazersSettleIff(species: seq<Species>, s: Species, season: Season)
    requires s.trophic == Grazer
    ensures (forall p :: 0.0 <= p <= Max(s.capacity, 1.0) ==> KeptBy(species, s.(population := p), season))
       <==> 0.0 <= Rate(s, season) <= 1.0
  {
    var r, k := Rate(s, season), Max(s.capacity, 1.0);
    if r < 0.0 {
      Dwindles(r, k);
      assert !KeptBy(species, s.(population := 0.5 * k), season);
    } else if r > 1.0 {
      var p := TooFast(r, k);
      assert !KeptBy(species, s.(population := p), season);
    } else {
      forall p | 0.0 <= p <= k
        ensures KeptBy(species, s.(population := p), season)
      {
        GrazersSettle(species, s.(population := p), season);
      }
    }
  }

  /** Grazers gain most when the land is half full: a quarter of the rate times what it supports. */
  lemma GrazersGainMostAtHalf(species: seq<Species>, s: Species, season: Season)
    requires s.trophic == Grazer && s.population >= 0.0 && Rate(s, season) > 0.0
    ensures var k, gain := Max(s.capacity, 1.0), Next(s, 0.0, season) - s.population;
            && gain <= Times(Rate(s, season), k / 4.0)
            && (gain == Times(Rate(s, season), k / 4.0) <==> s.population == k / 2.0)
  {
    var r, p, k := Rate(s, season), s.population, Max(s.capacity, 1.0);
    HalfFull(p, k);
    var short := k / 4.0 - Times(p, 1.0 - p / k);
    assert Times(Times(r, p), 1.0 - p / k) == Times(r, Times(p, 1.0 - p / k)) by { Reassociate(r, p, 1.0 - p / k); }
    Shortfall(r, short, k / 4.0);
  }

  lemma Reassociate(x: real, y: real, z: real)
    ensures Times(Times(x, y), z) == Times(x, Times(y, z))
  {
  }

  lemma Shortfall(r: real, short: real, most: real)
    requires r > 0.0 && short >= 0.0
    ensures Times(r, most - short) <= Times(r, most) && (Times(r, most - short) == Times(r, most) <==> short == 0.0)
  {
    assert r * (most - short) == r * most - r * short;
    assert short > 0.0 ==> r * short > 0.0;
  }

  lemma HalfFull(p: real, k: real)
    requires k > 0.0
    ensures Times(p, 1.0 - p / k) <= k / 4.0 && (Times(p, 1.0 - p / k) == k / 4.0 <==> p == k / 2.0)
  {
    var d := p / k - 0.5;
    assert p == (d + 0.5) * k;
    Square(d, k);
    assert d == 0.0 <==> p == k / 2.0 by { if p == k / 2.0 { Halved(k); } }
  }

  lemma Halved(k: real)
    requires k > 0.0
    ensures (k / 2.0) / k == 0.5
  {
  }

  lemma ScalesPositive(k: real, q: real)
    requires k > 0.0 && q >= 0.0
    ensures Times(k, q) >= 0.0 && (Times(k, q) == 0.0 <==> q == 0.0)
  {
    assert q > 0.0 ==> k * q > 0.0;
  }

  lemma SquarePositive(d: real)
    ensures d * d >= 0.0 && (d * d == 0.0 <==> d == 0.0)
  {
    if d > 0.0 {
      ScalesPositive(d, d);
    } else if d < 0.0 {
      ScalesPositive(-d, -d);
      assert d * d == -d * -d;
    }
  }

  lemma Square(d: real, k: real)
    requires k > 0.0
    ensures Times((d + 0.5) * k, 0.5 - d) == k / 4.0 - Times(k, d * d)
    ensures Times(k, d * d) >= 0.0 && (Times(k, d * d) == 0.0 <==> d == 0.0)
  {
    assert (d + 0.5) * k * (0.5 - d) == k * ((d + 0.5) * (0.5 - d));
    assert (d + 0.5) * (0.5 - d) == 0.25 - d * d;
    var q := d * d;
    SquarePositive(d);
    ScalesPositive(k, q);
    assert k * (0.25 - q) == k / 4.0 - k * q;
  }

  /** Nothing comes back from nothing, at any level of the web. */
  lemma ExtinctStaysExtinct(species: seq<Species>, s: Species, season: Season)
    requires s.population == 0.0
    ensures StepOne(species, s, season).population == 0.0
  {
  }

  /** A predator grows exactly when its food supports more than half of it, with two percent to
      spare; with no food at all at least two percent of it starve. */
  lemma PredatorGrowsIff(s: Species, prey: real, season: Season)
    requires s.trophic != Grazer && s.population > 0.0
    ensures var support := Min(Fill(prey, s.capacity), 1.0);
            Next(s, prey, season) > s.population <==> Times(Rate(s, season), support - 0.5) > 0.02
    ensures prey == 0.0 && Rate(s, season) >= 0.0 ==> Next(s, prey, season) <= 0.98 * s.population
  {
    var support := Min(Fill(prey, s.capacity), 1.0);
    Factor(Rate(s, season), s.population, support - 0.5);
  }

  lemma Factor(r: real, p: real, d: real)
    requires p > 0.0
    ensures Times(Times(r, p), d) - p * 0.02 > 0.0 <==> Times(r, d) > 0.02
    ensures r >= 0.0 && d == -0.5 ==> Times(Times(r, p), d) <= 0.0
  {
    assert r * p * d - p * 0.02 == p * (r * d - 0.02);
    var x := r * d - 0.02;
    assert p * x > 0.0 <==> x > 0.0;
    assert r >= 0.0 ==> r * p >= 0.0;
  }

  // ---- what a diet is worth ----

  /** The populations of the web, each as often as the diet names it. */
  function Eaten(species: seq<Species>, diet: multiset<Id>): real {
    if species == [] then 0.0
    else Times(diet[species[0].mob] as real, species[0].population) + Eaten(species[1..], diet)
  }

  lemma OnceMore(n: nat, p: real)
    ensures Times((n + 1) as real, p) == Times(n as real, p) + p
  {
  }

  lemma {:induction false} EatenOneMore(species: seq<Species>, diet: multiset<Id>, mob: Id)
    requires DistinctMobs(species)
    ensures Eaten(species, diet + multiset{mob}) == Eaten(species, diet) + PopOf(species, mob)
  {
    if species != [] {
      var s, rest := species[0], species[1..];
      EatenOneMore(rest, diet, mob);
      PopOfMember(rest, mob);
      if s.mob == mob {
        OnceMore(diet[mob], s.population);
        assert forall t :: t in rest ==> t.mob != mob;
      }
    }
  }

  lemma {:induction false} EatenNothing(species: seq<Species>)
    ensures Eaten(species, multiset{}) == 0.0
  {
    if species != [] { EatenNothing(species[1..]); }
  }

  /** What a diet makes available is the population of each species it names, all added up. */
  lemma {:induction false} AvailableIsEaten(species: seq<Species>, prey: seq<Id>)
    requires DistinctMobs(species)
    ensures Available(species, prey) == Eaten(species, multiset(prey))
  {
    if prey == [] {
      EatenNothing(species);
    } else {
      var front, last := prey[..|prey| - 1], prey[|prey| - 1];
      AvailableIsEaten(species, front);
      EatenOneMore(species, multiset(front), last);
      assert prey == front + [last];
    }
  }

  /** A predator of the web grows on a day exactly when everything its diet names, together,
      supports more than half of it with two percent to spare. */
  lemma PredatorEatsItsDiet(species: seq<Species>, s: Species, season: Season)
    requires DistinctMobs(species) && s in species && s.trophic != Grazer && s.population > 0.0
    ensures var support := Min(Fill(Eaten(species, multiset(s.prey)), s.capacity), 1.0);
            StepOne(species, s, season).population > s.population <==>
            Times(Rate(s, season), support - 0.5) > 0.02
  {
    PreyOfMember(species, species, s.mob);
    AvailableIsEaten(species, s.prey);
    PredatorGrowsIff(s, Eaten(species, multiset(s.prey)), season);
  }

  /** How fast a predator with all it can eat must breed to grow at all: in the long dark more than
      twice as fast as in an ember fall. */
  lemma FedPredatorGrowsIff(s: Species, prey: real, season: Season)
    requires s.trophic != Grazer && s.population > 0.0 && prey >= Max(s.capacity, 1.0)
    ensures Next(s, prey, season) > s.population <==>
            match season
            case Kindling => s.growth > 2.0 / 55.0
            case Highsun => s.growth > 0.04
            case Emberfall => s.growth > 2.0 / 65.0
            case Duskwane => s.growth > 0.05
            case LongDark => s.growth > 0.08
  {
    WellFed(prey, Max(s.capacity, 1.0));
    PredatorGrowsIff(s, prey, season);
  }

  lemma WellFed(prey: real, capacity: real)
    requires prey >= capacity > 0.0
    ensures prey / capacity >= 1.0
  {
  }

  // ---- the order of the species ----

  ghost predicate DistinctMobs(species: seq<Species>) {
    forall i, j :: 0 <= i < j < |species| ==> species[i].mob != species[j].mob
  }

  lemma {:induction false} PopOfMember(species: seq<Species>, mob: Id)
    requires DistinctMobs(species)
    ensures forall s :: s in species && s.mob == mob ==> PopOf(species, mob) == s.population
    ensures (forall s :: s in species ==> s.mob != mob) ==> PopOf(species, mob) == 0.0
  {
    if species != [] {
      PopOfMember(species[1..], mob);
      assert species == [species[0]] + species[1..];
    }
  }

  lemma {:induction false} PreyOfMember(species: seq<Species>, among: seq<Species>, mob: Id)
    requires DistinctMobs(among)
    ensures forall s :: s in among && s.mob == mob ==> PreyFor(species, among, mob) == Available(species, s.prey)
    ensures (forall s :: s in among ==> s.mob != mob) ==> PreyFor(species, among, mob) == 0.0
  {
    if among != [] {
      PreyOfMember(species, among[..|among| - 1], mob);
      assert among == among[..|among| - 1] + [among[|among| - 1]];
    }
  }

  lemma SameMembers<T>(xs: seq<T>, ys: seq<T>)
    requires multiset(xs) == multiset(ys)
    ensures forall x :: x in xs <==> x in ys
  {
    forall x ensures x in xs <==> x in ys { assert x in multiset(xs) <==> x in multiset(ys); }
  }

  lemma PopOfAgrees(a: seq<Species>, b: seq<Species>, mob: Id)
    requires multiset(a) == multiset(b) && DistinctMobs(a) && DistinctMobs(b)
    ensures PopOf(a, mob) == PopOf(b, mob)
  {
    SameMembers(a, b);
    PopOfMember(a, mob);
    PopOfMember(b, mob);
    if s :| s in a && s.mob == mob { assert s in b; }
  }

  lemma {:induction false} AvailableAgrees(a: seq<Species>, b: seq<Species>, prey: seq<Id>)
    requires multiset(a) == multiset(b) && DistinctMobs(a) && DistinctMobs(b)
    ensures Available(a, prey) == Available(b, prey)
  {
    if prey != [] {
      AvailableAgrees(a, b, prey[..|prey| - 1]);
      PopOfAgrees(a, b, prey[|prey| - 1]);
    }
  }

  lemma StepAgrees(a: seq<Species>, b: seq<Species>, s: Species, season: Season)
    requires multiset(a) == multiset(b) && DistinctMobs(a) && DistinctMobs(b) && s in a
    ensures StepOne(a, s, season) == StepOne(b, s, season)
  {
    SameMembers(a, b);
    PreyOfMember(a, a, s.mob);
    PreyOfMember(b, b, s.mob);
    AvailableAgrees(a, b, s.prey);
  }

  /** The order in which the species are listed does not matter to where they end up. */
  lemma StepIgnoresOrder(a: seq<Species>, b: seq<Species>, season: Season)
    requires multiset(a) == multiset(b) && DistinctMobs(a) && DistinctMobs(b)
    ensures multiset(Stepped(a, season)) == multiset(Stepped(b, season))
  {
    MultisetMap(a, b, (s: Species) => StepOne(a, s, season));
    SameMembers(a, b);
    forall s | s in b ensures StepOne(a, s, season) == StepOne(b, s, season) { StepAgrees(a, b, s, season); }
    assert Map((s: Species) => StepOne(a, s, season), b) == Stepped(b, season);
  }

  function Flatten(xs: seq<seq<Event>>): seq<Event> {
    if xs == [] then [] else Flatten(xs[..|xs| - 1]) + xs[|xs| - 1]
  }

  lemma {:induction false} FlattenSplits(xs: seq<seq<Event>>, ys: seq<seq<Event>>)
    ensures Flatten(xs + ys) == Flatten(xs) + Flatten(ys)
  {
    if ys == [] {
      assert xs + ys == xs;
    } else {
      FlattenSplits(xs, ys[..|ys| - 1]);
      assert (xs + ys)[..|xs + ys| - 1] == xs + ys[..|ys| - 1];
    }
  }

  lemma {:induction false} FlattenIgnoresOrder(xs: seq<seq<Event>>, ys: seq<seq<Event>>)
    requires multiset(xs) == multiset(ys)
    ensures multiset(Flatten(xs)) == multiset(Flatten(ys))
  {
    if xs == [] {
      assert |ys| == |multiset(ys)|;
    } else {
      var k := TakeOut(xs, ys);
      FlattenIgnoresOrder(xs[1..], ys[..k] + ys[k + 1..]);
      FlattenTakesOut(xs, 0);
      FlattenTakesOut(ys, k);
      assert xs[..0] + xs[1..] == xs[1..];
    }
  }

  lemma FlattenAround(xs: seq<seq<Event>>, k: nat)
    requires k < |xs|
    ensures Flatten(xs) == Flatten(xs[..k]) + xs[k] + Flatten(xs[k + 1..])
    ensures Flatten(xs[..k] + xs[k + 1..]) == Flatten(xs[..k]) + Flatten(xs[k + 1..])
  {
    Around(xs, k);
    FlattenSplits(xs[..k] + [xs[k]], xs[k + 1..]);
    FlattenSplits(xs[..k], [xs[k]]);
    FlattenSplits(xs[..k], xs[k + 1..]);
    FlattenOne(xs[k]);
  }

  lemma Around<T>(xs: seq<T>, k: nat)
    requires k < |xs|
    ensures xs == (xs[..k] + [xs[k]]) + xs[k + 1..]
  {
  }

  lemma FlattenOne(x: seq<Event>)
    ensures Flatten([x]) == x
  {
    assert [x][..0] == [];
  }

  lemma AroundMultiset<T>(a: seq<T>, x: seq<T>, b: seq<T>)
    ensures multiset(a + x + b) == multiset(a + b) + multiset(x)
  {
    assert multiset(a + x + b) == multiset(a + x) + multiset(b);
  }

  lemma FlattenTakesOut(xs: seq<seq<Event>>, k: nat)
    requires k < |xs|
    ensures multiset(Flatten(xs)) == multiset(Flatten(xs[..k] + xs[k + 1..])) + multiset(xs[k])
  {
    FlattenAround(xs, k);
    AroundMultiset(Flatten(xs[..k]), xs[k], Flatten(xs[k + 1..]));
  }

  function News(species: seq<Species>, season: Season, dice: Dice, tick: nat): Species -> seq<Event> {
    (s: Species) => EventsOf(s, StepOne(species, s, season), dice, tick)
  }

  lemma {:induction false} EventsAreNews(species: seq<Species>, season: Season, dice: Dice, tick: nat, n: nat)
    requires n <= |species|
    ensures EventsUpTo(species, Stepped(species, season), dice, tick, n) ==
            Flatten(Map(News(species, season, dice, tick), species[..n]))
  {
    if n > 0 {
      EventsAreNews(species, season, dice, tick, n - 1);
      var news := Map(News(species, season, dice, tick), species[..n]);
      assert news[..n - 1] == Map(News(species, season, dice, tick), species[..n - 1]);
    }
  }

  lemma NewsAgreeOn(a: seq<Species>, b: seq<Species>, s: Species, season: Season, dice: Dice, tick: nat)
    requires StepOne(a, s, season) == StepOne(b, s, season)
    ensures News(a, season, dice, tick)(s) == News(b, season, dice, tick)(s)
  {
  }

  lemma NewsAgreeAt(a: seq<Species>, b: seq<Species>, i: nat, season: Season, dice: Dice, tick: nat)
    requires multiset(a) == multiset(b) && DistinctMobs(a) && DistinctMobs(b) && i < |b|
    ensures News(a, season, dice, tick)(b[i]) == News(b, season, dice, tick)(b[i])
  {
    SameMembers(a, b);
    StepAgrees(a, b, b[i], season);
    NewsAgreeOn(a, b, b[i], season, dice, tick);
  }

  lemma NewsAgree(a: seq<Species>, b: seq<Species>, season: Season, dice: Dice, tick: nat)
    requires multiset(a) == multiset(b) && DistinctMobs(a) && DistinctMobs(b)
    ensures Map(News(a, season, dice, tick), b) == Map(News(b, season, dice, tick), b)
  {
    forall i | 0 <= i < |b|
      ensures News(a, season, dice, tick)(b[i]) == News(b, season, dice, tick)(b[i])
    {
      NewsAgreeAt(a, b, i, season, dice, tick);
    }
    MapAgrees(News(a, season, dice, tick), News(b, season, dice, tick), b);
  }

  /** Nor to what happens on the way. */
  lemma EventsIgnoreOrder(a: seq<Species>, b: seq<Species>, season: Season, dice: Dice, tick: nat)
    requires multiset(a) == multiset(b) && DistinctMobs(a) && DistinctMobs(b)
    ensures multiset(EventsUpTo(a, Stepped(a, season), dice, tick, |a|)) ==
            multiset(EventsUpTo(b, Stepped(b, season), dice, tick, |b|))
  {
    EventsAreNews(a, season, dice, tick, |a|);
    EventsAreNews(b, season, dice, tick, |b|);
    assert a[..|a|] == a && b[..|b|] == b;
    NewsAgree(a, b, season, dice, tick);
    MultisetMap(a, b, News(a, season, dice, tick));
    FlattenIgnoresOrder(Map(News(a, season, dice, tick), a), Map(News(a, season, dice, tick), b));
  }

  // ---- runs ----

  type Day = (nat, Season)

  function Run(w: Web, days: seq<Day>): Web {
    if days == [] then w
    else TickIn(Run(w, days[..|days| - 1]), days[|days| - 1].0, days[|days| - 1].1)
  }

  /** Over every run a grazer that starts within the land's means, and never breeds beyond the
      full rate, stays there and never shrinks. */
  lemma {:induction false} GrazersStayInBounds(w: Web, days: seq<Day>, i: nat)
    requires i < |w.species| && w.species[i].trophic == Grazer
    requires 0.0 <= w.species[i].population <= Max(w.species[i].capacity, 1.0)
    requires forall d :: d in days ==> 0.0 <= Rate(w.species[i], d.1) <= 1.0
    ensures |Run(w, days).species| == |w.species|
    ensures var s := Run(w, days).species[i];
            s == w.species[i].(population := s.population) &&
            w.species[i].population <= s.population <= Max(s.capacity, 1.0)
  {
    if days != [] {
      var before, last := Run(w, days[..|days| - 1]), days[|days| - 1];
      assert last in days;
      GrazersStayInBounds(w, days[..|days| - 1], i);
      GrazersSettle(before.species, before.species[i], last.1);
    }
  }

  /** Predators feed on nothing but numbers: whatever else lives in the web, a grazer's
      population runs the same course. */
  lemma {:induction false} GrazersAreNeverEaten(v: Web, w: Web, days: seq<Day>, i: nat, j: nat)
    requires i < |v.species| && j < |w.species| && v.species[i] == w.species[j] && v.species[i].trophic == Grazer
    requires v.lastDay == w.lastDay
    ensures |Run(v, days).species| == |v.species| && |Run(w, days).species| == |w.species|
    ensures Run(v, days).lastDay == Run(w, days).lastDay
    ensures Run(v, days).species[i] == Run(w, days).species[j] && Run(v, days).species[i].trophic == Grazer
  {
    if days != [] {
      GrazersAreNeverEaten(v, w, days[..|days| - 1], i, j);
    }
  }

  /** The species blooms on day `t` of the run. */
  ghost predicate BloomsOn(w: Web, days: seq<Day>, i: nat, t: nat)
    requires t < |days|
  {
    var before, after := Run(w, days[..t]), Run(w, days[..t + 1]);
    i < |before.species| == |after.species| && before != after && Blooms(before.species[i], after.species[i])
  }

  /** And over no such run does it bloom, given a capacity of at least one. */
  lemma SettledGrazersNeverBloom(w: Web, days: seq<Day>, i: nat, t: nat)
    requires i < |w.species| && w.species[i].trophic == Grazer && t < |days|
    requires 0.0 <= w.species[i].population <= w.species[i].capacity && w.species[i].capacity >= 1.0
    requires forall d :: d in days ==> 0.0 <= Rate(w.species[i], d.1) <= 1.0
    ensures !BloomsOn(w, days, i, t)
  {
    assert forall d :: d in days[..t] || d in days[..t + 1] ==> d in days;
    GrazersStayInBounds(w, days[..t], i);
    GrazersStayInBounds(w, days[..t + 1], i);
  }

  lemma {:induction false} RunKeepsSpecies(w: Web, days: seq<Day>, i: nat)
    requires i < |w.species|
    ensures |Run(w, days).species| == |w.species|
    ensures Run(w, days).species[i] == w.species[i].(population := Run(w, days).species[i].population)
    ensures w.species[i].population >= 0.0 ==> Run(w, days).species[i].population >= 0.0
  {
    if days != [] {
      RunKeepsSpecies(w, days[..|days| - 1], i);
    }
  }

  /** Two blooms of one species are separated by a day on which it was back under the mark. */
  lemma BloomsAreSeparated(w: Web, days: seq<Day>, i: nat, t: nat, u: nat)
    requires t < u < |days| && i < |w.species| && BloomsOn(w, days, i, t) && BloomsOn(w, days, i, u)
    ensures exists d :: t + 1 < d <= u && |Run(w, days[..d]).species| == |w.species| &&
                        Run(w, days[..d]).species[i].population <= 1.3 * w.species[i].capacity
  {
    RunKeepsSpecies(w, days[..t + 1], i);
    RunKeepsSpecies(w, days[..t], i);
    RunKeepsSpecies(w, days[..u], i);
    assert Run(w, days[..u]).species[i].population <= 1.3 * w.species[i].capacity;
    assert Run(w, days[..t + 1]).species[i].population > 1.3 * w.species[i].capacity;
  }

  /** The species falls below a tenth of its capacity on day `t` of the run. */
  ghost predicate CrashesOn(w: Web, days: seq<Day>, i: nat, t: nat)
    requires t < |days|
  {
    var before, after := Run(w, days[..t]), Run(w, days[..t + 1]);
    i < |before.species| == |after.species| && before != after && Crashes(before.species[i], after.species[i])
  }

  /** And two crashes by a day on which it was back over its own mark. */
  lemma CrashesAreSeparated(w: Web, days: seq<Day>, i: nat, t: nat, u: nat)
    requires t < u < |days| && i < |w.species| && CrashesOn(w, days, i, t) && CrashesOn(w, days, i, u)
    ensures exists d :: t + 1 < d <= u && |Run(w, days[..d]).species| == |w.species| &&
                        10.0 * Run(w, days[..d]).species[i].population >= w.species[i].capacity
  {
    RunKeepsSpecies(w, days[..t + 1], i);
    RunKeepsSpecies(w, days[..t], i);
    RunKeepsSpecies(w, days[..u], i);
    assert 10.0 * Run(w, days[..u]).species[i].population >= w.species[i].capacity;
    assert 10.0 * Run(w, days[..t + 1]).species[i].population < w.species[i].capacity;
  }

  // ---- the day's report ----

  /** What is worth reporting of a species that was `before` and is `after`. */
  ghost predicate Reportable(before: Species, after: Species, dice: Dice, tick: nat, e: Event) {
    match e
    case Bloom(mob, population) =>
      && mob == after.mob && population == after.population
      && before.population <= 1.3 * before.capacity < after.population
    case Crash(mob) =>
      mob == after.mob && after.population < before.capacity / 10.0 <= before.population
    case Mutation(base, variant, powerMult) =>
      && base == after.mob && variant == base + ".scion"
      && dice(tick, base).0 < (if after.population < after.capacity / 5.0 then 0.03 else 0.01)
      && powerMult == 1.2 + 0.7 * dice(tick, base).1
  }

  lemma {:induction false} ReportedIff(
    before: seq<Species>, after: seq<Species>, dice: Dice, tick: nat, n: nat, e: Event)
    requires n <= |before| == |after|
    ensures e in EventsUpTo(before, after, dice, tick, n) <==>
            exists i :: 0 <= i < n && Reportable(before[i], after[i], dice, tick, e)
  {
    if n > 0 {
      ReportedIff(before, after, dice, tick, n - 1, e);
      ReportedOfOne(before[n - 1], after[n - 1], dice, tick, e);
    }
  }

  lemma ReportedOfOne(before: Species, after: Species, dice: Dice, tick: nat, e: Event)
    ensures e in EventsOf(before, after, dice, tick) <==> Reportable(before, after, dice, tick, e)
  {
  }

  /** A tick reports, once a day, exactly what happened to some species between the day before and
      this one: a bloom past 1.3 times its capacity, a crash below a tenth, and a mutation as the
      dice have it, three times as likely below a fifth. */
  lemma DayReportsIff(w: Web, dice: Dice, tick: nat, season: Season, e: Event)
    ensures var after := TickIn(w, tick, season).species;
            && |after| == |w.species|
            && (e in EventsIn(w, dice, tick, season) <==>
                && tick / DAY_TICKS != w.lastDay
                && exists i :: 0 <= i < |after| && Reportable(w.species[i], after[i], dice, tick, e))
  {
    if tick / DAY_TICKS != w.lastDay {
      ReportedIff(w.species, Stepped(w.species, season), dice, tick, |w.species|, e);
    }
  }

  // ---- what spawns ----

  /** How a mob's spawn weight follows its population: in proportion to what the land holds, never
      below nothing or above 2.5, by the first species of its name. */
  lemma {:induction false} SpawnWeightFollows(species: seq<Species>, mob: Id, i: nat)
    requires i < |species| && species[i].mob == mob && forall j :: 0 <= j < i ==> species[j].mob != mob
    ensures var p, k, weight := species[i].population, Max(species[i].capacity, 1.0), WeightOf(species, mob);
            && 0.0 <= weight <= 2.5
            && (0.0 <= p <= 2.5 * k ==> Times(weight, k) == p)
            && (weight == 2.5 <==> p >= 2.5 * k)
            && (weight == 0.0 <==> p <= 0.0)
  {
    if i > 0 {
      SpawnWeightFollows(species[1..], mob, i - 1);
    } else {
      Proportion(species[0].population, Max(species[0].capacity, 1.0));
    }
  }

  lemma Proportion(p: real, k: real)
    requires k > 0.0
    ensures Times(p / k, k) == p
    ensures p / k >= 2.5 <==> p >= 2.5 * k
    ensures p / k <= 0.0 <==> p <= 0.0
  {
    var q := p / k;
    assert q * k == p;
    assert q >= 2.5 ==> q * k >= 2.5 * k;
    assert q < 2.5 ==> q * k < 2.5 * k;
    assert q <= 0.0 ==> q * k <= 0.0;
    assert q > 0.0 ==> q * k > 0.0;
  }

  lemma {:induction false} StrangersSpawnEvenly(species: seq<Species>, mob: Id)
    requires forall s :: s in species ==> s.mob != mob
    ensures WeightOf(species, mob) == 1.0
  {
    if species != [] { StrangersSpawnEvenly(species[1..], mob); }
  }

  // ---- what bounds a predator ----

  /** The `n` days after `lastDay`, one tick each, in the seasons of those ticks. */
  function Consecutive(lastDay: nat, n: nat, seasonOf: nat -> Season): seq<Day> {
    if n == 0 then [] else Consecutive(lastDay, n - 1, seasonOf) + [DayOf(lastDay + n, seasonOf)]
  }

  function DayOf(day: nat, seasonOf: nat -> Season): Day { (day * DAY_TICKS, seasonOf(day * DAY_TICKS)) }

  /** A grazer at the land's capacity and a breeding predator it feeds in full. */
  predicate Feast(species: seq<Species>) {
    && |species| == 2
    && species[0].trophic == Grazer
    && species[0].population == species[0].capacity >= Max(species[1].capacity, 1.0)
    && species[1].trophic != Grazer
    && species[1].prey == [species[0].mob]
    && species[1].mob != species[0].mob
    && species[1].growth >= 0.1
    && species[1].population > 0.0
  }

  function SupportOf(species: seq<Species>, s: Species): real {
    Min(Fill(PreyFor(species, species, s.mob), s.capacity), 1.0)
  }

  lemma FedInFull(species: seq<Species>)
    requires Feast(species)
    ensures SupportOf(species, species[1]) == 1.0
  {
    assert Available(species, [species[0].mob]) == PopOf(species, species[0].mob) by {
      assert [species[0].mob][..0] == [];
    }
    AtLeastFull(species[0].population, Max(species[1].capacity, 1.0));
  }

  lemma AtLeastFull(x: real, k: real)
    requires x >= k > 0.0
    ensures x / k >= 1.0
    ensures x == k ==> x / k == 1.0
  {
  }

  lemma AtCapacityStays(species: seq<Species>, s: Species, season: Season)
    requires s.trophic == Grazer && s.population == s.capacity >= 1.0
    ensures StepOne(species, s, season) == s
  {
    AtLeastFull(s.population, s.capacity);
    NoRoom(Times(Rate(s, season), s.population));
  }

  lemma NoRoom(x: real)
    ensures Times(x, 1.0 - 1.0) == 0.0
  {
  }

  lemma LeanestRate(s: Species, season: Season)
    requires s.growth >= 0.1
    ensures Rate(s, season) >= 0.05
  {
    assert SeasonGrowth(season) >= 0.5;
    assert s.growth * SeasonGrowth(season) >= 0.1 * SeasonGrowth(season);
  }

  lemma GrowsByHalfAPercent(r: real, p: real)
    requires r >= 0.05 && p >= 0.0
    ensures p + Times(Times(r, p), 0.5) - p * 0.02 >= 1.005 * p
  {
    assert r * p >= 0.05 * p;
  }

  lemma FeastGoesOn(species: seq<Species>, season: Season)
    requires Feast(species)
    ensures Feast(Stepped(species, season))
    ensures Stepped(species, season)[1].population >= 1.005 * species[1].population
  {
    AtCapacityStays(species, species[0], season);
    FedInFull(species);
    LeanestRate(species[1], season);
    GrowsByHalfAPercent(Rate(species[1], season), species[1].population);
    assert Next(species[1], PreyFor(species, species, species[1].mob), season) >= 1.005 * species[1].population;
  }

  /** Half a percent of the start, every day. */
  function Grown(p: real, n: nat): real { p + Times(0.005 * n as real, p) }

  lemma LastDay(w: Web, days: seq<Day>, day: nat, seasonOf: nat -> Season)
    requires Run(w, days).lastDay + 1 == day
    ensures Run(w, days + [DayOf(day, seasonOf)]) == Web(Stepped(Run(w, days).species, seasonOf(day * DAY_TICKS)), day)
  {
    assert (days + [DayOf(day, seasonOf)])[..|days|] == days;
    assert day * DAY_TICKS / DAY_TICKS == day;
  }

  /** Through `day` the feast has gone on and the predator is at least `floor`. */
  predicate Feasting(v: Web, day: nat, floor: real) {
    v.lastDay == day && Feast(v.species) && v.species[1].population >= floor
  }

  lemma FeastDay(w: Web, days: seq<Day>, day: nat, seasonOf: nat -> Season, floor: real, next: real)
    requires day > 0 && Feasting(Run(w, days), day - 1, floor) && 1.005 * floor >= next
    ensures Feasting(Run(w, days + [DayOf(day, seasonOf)]), day, next)
  {
    LastDay(w, days, day, seasonOf);
    FeastGoesOn(Run(w, days).species, seasonOf(day * DAY_TICKS));
  }

  lemma {:induction false} FeastGrows(w: Web, n: nat, seasonOf: nat -> Season)
    requires Feast(w.species)
    ensures Feasting(Run(w, Consecutive(w.lastDay, n, seasonOf)), w.lastDay + n, Grown(w.species[1].population, n))
  {
    if n > 0 {
      var p := w.species[1].population;
      FeastGrows(w, n - 1, seasonOf);
      Compound(p, n);
      FeastDay(w, Consecutive(w.lastDay, n - 1, seasonOf), w.lastDay + n, seasonOf, Grown(p, n - 1), Grown(p, n));
    }
  }

  lemma Compound(p: real, n: nat)
    requires n > 0 && p >= 0.0
    ensures 1.005 * Grown(p, n - 1) >= Grown(p, n)
  {
    var m := (n - 1) as real;
    assert n as real == m + 1.0;
    assert Times(0.005 * m, p) >= 0.0;
    assert Times(0.005 * (m + 1.0), p) == Times(0.005 * m, p) + 0.005 * p;
  }

  lemma GrownPasses(p: real, bound: real) returns (n: nat)
    requires p > 0.0
    ensures Grown(p, n) > bound
  {
    var days := bound / (0.005 * p);
    n := if days < 0.0 then 0 else days.Floor + 1;
    assert n as real > days && n as real >= 0.0;
    Scaled(days, n as real, 0.005 * p);
    assert days * (0.005 * p) == bound;
    assert Times(0.005 * n as real, p) == n as real * (0.005 * p);
  }

  lemma Scaled(x: real, y: real, k: real)
    requires x < y && k > 0.0
    ensures x * k < y * k
  {
  }

  /** Only grazers answer to the land's capacity: whatever the seasons, day after day a predator
      fed in full outgrows any bound. */
  lemma PredatorsOutgrowAnyBound(w: Web, seasonOf: nat -> Season, bound: real)
    requires Feast(w.species)
    ensures exists n: nat ::
              |Run(w, Consecutive(w.lastDay, n, seasonOf)).species| == 2 &&
              Run(w, Consecutive(w.lastDay, n, seasonOf)).species[1].population > bound
  {
    var n := GrownPasses(w.species[1].population, bound);
    FeastGrows(w, n, seasonOf);
    assert Run(w, Consecutive(w.lastDay, n, seasonOf)).species[1].population > bound;
  }

  /** What a day of that season multiplies a predator's numbers by. */
  function DailyFactor(species: seq<Species>, i: nat, season: Season): real
    requires i < |species|
  {
    Max(0.98 + Times(Rate(species[i], season), SupportOf(species, species[i]) - 0.5), 0.0)
  }

  /** The web after `n` days in a row. */
  function SpeciesAfter(w: Web, n: nat, seasonOf: nat -> Season): seq<Species> {
    Run(w, Consecutive(w.lastDay, n, seasonOf)).species
  }

  function PopulationAfter(w: Web, n: nat, i: nat, seasonOf: nat -> Season): real
    requires i < |w.species|
  {
    RunKeepsSpecies(w, Consecutive(w.lastDay, n, seasonOf), i);
    SpeciesAfter(w, n, seasonOf)[i].population
  }

  /** The factor of the `n`th of the days in a row. */
  function FactorOn(w: Web, n: nat, i: nat, seasonOf: nat -> Season): real
    requires n > 0 && i < |w.species|
  {
    RunKeepsSpecies(w, Consecutive(w.lastDay, n - 1, seasonOf), i);
    DailyFactor(SpeciesAfter(w, n - 1, seasonOf), i, DayOf(w.lastDay + n, seasonOf).1)
  }

  /** The factors of `n` days in a row, multiplied. */
  function Factors(w: Web, n: nat, i: nat, seasonOf: nat -> Season): real
    requires i < |w.species|
  {
    if n == 0 then 1.0 else Times(Factors(w, n - 1, i, seasonOf), FactorOn(w, n, i, seasonOf))
  }

  lemma FactorOut(p: real, r: real, d: real)
    ensures p + Times(Times(r, p), d) - p * 0.02 == Times(0.98 + Times(r, d), p)
  {
    assert r * p * d == r * d * p;
  }

  lemma NoLessThanNothing(f: real, p: real)
    requires p >= 0.0
    ensures Max(Times(f, p), 0.0) == Times(Max(f, 0.0), p)
  {
    if f >= 0.0 { assert f * p >= 0.0; } else { assert f * p <= 0.0; }
  }

  lemma FactorSteps(species: seq<Species>, i: nat, season: Season)
    requires i < |species| && species[i].trophic != Grazer && species[i].population >= 0.0
    ensures Stepped(species, season)[i].population == Times(DailyFactor(species, i, season), species[i].population)
  {
    var s := species[i];
    var f := 0.98 + Times(Rate(s, season), SupportOf(species, s) - 0.5);
    FactorOut(s.population, Rate(s, season), SupportOf(species, s) - 0.5);
    NoLessThanNothing(f, s.population);
  }

  lemma {:induction false} RunReachesDay(w: Web, n: nat, seasonOf: nat -> Season)
    ensures Run(w, Consecutive(w.lastDay, n, seasonOf)).lastDay == w.lastDay + n
  {
    if n > 0 {
      RunReachesDay(w, n - 1, seasonOf);
      LastDay(w, Consecutive(w.lastDay, n - 1, seasonOf), w.lastDay + n, seasonOf);
    }
  }

  lemma Multiply(f: real, g: real, p: real)
    ensures Times(g, Times(f, p)) == Times(Times(f, g), p)
  {
    assert g * (f * p) == f * g * p;
  }

  lemma OneMoreDay(w: Web, n: nat, i: nat, seasonOf: nat -> Season)
    requires n > 0 && i < |w.species| && w.species[i].trophic != Grazer && w.species[i].population >= 0.0
    ensures PopulationAfter(w, n, i, seasonOf) ==
            Times(FactorOn(w, n, i, seasonOf), PopulationAfter(w, n - 1, i, seasonOf))
  {
    var days := Consecutive(w.lastDay, n - 1, seasonOf);
    RunKeepsSpecies(w, days, i);
    RunReachesDay(w, n - 1, seasonOf);
    LastDay(w, days, w.lastDay + n, seasonOf);
    FactorSteps(SpeciesAfter(w, n - 1, seasonOf), i, DayOf(w.lastDay + n, seasonOf).1);
  }

  /** Predators compound: over any days in a row, in any web and any seasons, a predator's numbers
      are multiplied each day by 0.98 plus its rate times how far its food supports more than half
      of it, and never fall below nothing. */
  lemma {:induction false} PredatorCompounds(w: Web, n: nat, i: nat, seasonOf: nat -> Season)
    requires i < |w.species| && w.species[i].trophic != Grazer && w.species[i].population >= 0.0
    ensures PopulationAfter(w, n, i, seasonOf) == Times(Factors(w, n, i, seasonOf), w.species[i].population)
  {
    if n > 0 {
      PredatorCompounds(w, n - 1, i, seasonOf);
      OneMoreDay(w, n, i, seasonOf);
      Multiply(Factors(w, n - 1, i, seasonOf), FactorOn(w, n, i, seasonOf), w.species[i].population);
    }
  }

  /** On a day of that season the food does not let the species grow. */
  predicate Underfed(species: seq<Species>, i: nat, season: Season)
    requires i < |species|
  {
    Times(Rate(species[i], season), SupportOf(species, species[i]) - 0.5) <= 0.02
  }

  /** Underfed at the start of every day of the run. */
  ghost predicate AlwaysUnderfed(w: Web, days: seq<Day>, i: nat) {
    forall k :: 0 <= k < |days| ==>
      i < |Run(w, days[..k]).species| && Underfed(Run(w, days[..k]).species, i, days[k].1)
  }

  lemma UnderfedShrinks(species: seq<Species>, i: nat, season: Season)
    requires i < |species| && species[i].trophic != Grazer && species[i].population >= 0.0 &&
             Underfed(species, i, season)
    ensures StepOne(species, species[i], season).population <= species[i].population
  {
    var s := species[i];
    if s.population > 0.0 {
      PredatorGrowsIff(s, PreyFor(species, species, s.mob), season);
    } else {
      ExtinctStaysExtinct(species, s, season);
    }
  }

  /** What does bound a predator is its food alone: as long as it is underfed day by day, it never
      exceeds its start. */
  lemma {:induction false} UnderfedPredatorsStayBounded(w: Web, days: seq<Day>, i: nat)
    requires i < |w.species| && w.species[i].trophic != Grazer && w.species[i].population >= 0.0
    requires AlwaysUnderfed(w, days, i)
    ensures |Run(w, days).species| == |w.species|
    ensures 0.0 <= Run(w, days).species[i].population <= w.species[i].population
  {
    RunKeepsSpecies(w, days, i);
    if days != [] {
      var before, last := days[..|days| - 1], days[|days| - 1];
      forall k | 0 <= k < |before|
        ensures i < |Run(w, before[..k]).species| && Underfed(Run(w, before[..k]).species, i, before[k].1)
      {
        assert before[..k] == days[..k] && before[k] == days[k];
      }
      UnderfedPredatorsStayBounded(w, before, i);
      RunKeepsSpecies(w, before, i);
      UnderfedShrinks(Run(w, before).species, i, last.1);
    }
  }

  /** An extinct species stays extinct over every run. */
  lemma {:induction false} ExtinctForever(w: Web, days: seq<Day>, i: nat)
    requires i < |w.species| && w.species[i].population == 0.0
    ensures |Run(w, days).species| == |w.species| && Run(w, days).species[i].population == 0.0
  {
    if days != [] {
      var before := Run(w, days[..|days| - 1]);
      ExtinctForever(w, days[..|days| - 1], i);
      ExtinctStaysExtinct(before.species, before.species[i], days[|days| - 1].1);
    }
  }
}
