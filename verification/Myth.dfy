/** The myth engine (arena-mythos): deeds become renown, renown legends, and legends stars or sites.
    Renown is real; the names and dice a deed's generator yields are a parameter. */
module Myth {
  import opened Geometry
  import opened Protocol
  import opened Sorting
  import Ecology

  datatype Facet = Valor | Cunning | Grace | Dread | Wisdom

  datatype Renown = Renown(valor: real, cunning: real, grace: real, dread: real, wisdom: real) {
    function Total(): real { valor + cunning + grace + dread + wisdom }

    function Get(f: Facet): real {
      match f
      case Valor => valor
      case Cunning => cunning
      case Grace => grace
      case Dread => dread
      case Wisdom => wisdom
    }

    function Plus(f: Facet, amount: real): Renown {
      match f
      case Valor => this.(valor := valor + amount)
      case Cunning => this.(cunning := cunning + amount)
      case Grace => this.(grace := grace + amount)
      case Dread => this.(dread := dread + amount)
      case Wisdom => this.(wisdom := wisdom + amount)
    }
  }

  const UNKNOWN := Renown(0.0, 0.0, 0.0, 0.0, 0.0)

  datatype DeedKind =
    | Slay(victim: Id, victimRenown: real)
    | Fell(slayer: Id)
    | LastStand(foes: nat)
    | Discover(place: string)
    | Forge(item: string)
    | Duel(rival: Id)
    | Ward(saved: nat)
    | Atrocity

  datatype Deed = Deed(actor: Id, kind: DeedKind, location: Vec3, tick: nat, magnitude: real)

  datatype Manifestation =
    | Constellation(star: string, element: string)
    | HallowedGround(place: Vec3)
    | HauntedGround(place: Vec3)
    | RelicSite(place: Vec3, rarityTier: nat)
    | NamedFoeRises(mob: Id, powerMult: real)

  datatype Legend = Legend(id: nat, name: string, about: Id, facet: Facet, bornTick: nat, manifestation: Manifestation)

  datatype Star = Star(name: string, element: string, bornTick: nat, brightness: real)

  /** What the generator seeded by a deed's tick and actor comes up with. */
  datatype Fate = Fate(name: string, element: string, haunts: bool, powerMult: real, tier: nat)

  /** Everything the world leaves to its generators and its calendar. */
  datatype Fates = Fates(fateOf: Deed -> Fate, dice: Ecology.Dice, seasonOf: nat -> Ecology.Season)

  datatype Chronicle = Chronicle(renown: map<Id, Renown>, legends: seq<Legend>, threshold: real, nextId: nat)

  const FIRST_AGE := Chronicle(map[], [], 100.0, 0)

  // ---- the chronicle ----

  function FacetWeight(kind: DeedKind): (Facet, real) {
    match kind
    case Slay(_, _) => (Valor, 1.0)
    case Fell(_) => (Valor, 0.2)
    case LastStand(foes) => (Valor, 0.5 + foes as real * 0.1)
    case Discover(_) => (Wisdom, 1.0)
    case Forge(_) => (Wisdom, 1.2)
    case Duel(_) => (Cunning, 1.0)
    case Ward(saved) => (Grace, 0.5 + saved as real * 0.2)
    case Atrocity => (Dread, 1.5)
  }

  function FacetOf(kind: DeedKind): Facet { FacetWeight(kind).0 }

  function Inherited(kind: DeedKind): real { if kind.Slay? then kind.victimRenown * 0.25 else 0.0 }

  function Max0(x: real): real { if x >= 0.0 then x else 0.0 }

  function Gained(deed: Deed): real { Max0(Times(deed.magnitude, FacetWeight(deed.kind).1) + Inherited(deed.kind)) }

  function RenownOf(c: Chronicle, actor: Id): Renown { if actor in c.renown then c.renown[actor] else UNKNOWN }

  /** Mythic in itself, whatever the actor's renown. */
  predicate Mythic(kind: DeedKind, threshold: real) {
    match kind
    case Slay(_, victimRenown) => victimRenown >= threshold
    case LastStand(foes) => foes >= 20
    case Forge(_) => true
    case _ => false
  }

  function Credited(c: Chronicle, deed: Deed): Renown { RenownOf(c, deed.actor).Plus(FacetOf(deed.kind), Gained(deed)) }

  predicate Mints(c: Chronicle, deed: Deed) {
    Credited(c, deed).Total() >= c.threshold || Mythic(deed.kind, c.threshold)
  }

  /** The branches in the order they are tried. */
  function Manifest(deed: Deed, facet: Facet, fate: Fate): Manifestation {
    if deed.kind.Fell? || facet == Valor || facet == Grace || facet == Wisdom
    then Constellation(fate.name, fate.element)
    else if deed.kind.Atrocity? || facet == Dread then
      if fate.haunts then HauntedGround(deed.location) else NamedFoeRises(deed.actor, fate.powerMult)
    else if deed.kind.Slay? then RelicSite(deed.location, fate.tier)
    else HallowedGround(deed.location)
  }

  function Minted(c: Chronicle, deed: Deed, fate: Fate): Legend {
    var facet := FacetOf(deed.kind);
    Legend(c.nextId, fate.name, deed.actor, facet, deed.tick, Manifest(deed, facet, fate))
  }

  /** Each minted legend raises the bar for the next. */
  function Higher(bar: real): real { bar * 1.15 }

  /** The chronicle once a deed is credited and, if it is to, has given birth to a legend. */
  function Enter(c: Chronicle, actor: Id, credited: Renown, mints: bool, legend: Legend): Chronicle {
    var renown := c.renown[actor := credited];
    if mints then Chronicle(renown, c.legends + [legend], Higher(c.threshold), c.nextId + 1)
    else Chronicle(renown, c.legends, c.threshold, c.nextId)
  }

  function RecordIn(c: Chronicle, deed: Deed, fate: Fate): Chronicle {
    Enter(c, deed.actor, Credited(c, deed), Mints(c, deed), Minted(c, deed, fate))
  }

  // ---- the world ----

  datatype World = World(tick: nat, chronicle: Chronicle, stars: seq<Star>, pending: seq<Manifestation>,
                         web: Ecology.Web)

  /** A star's brightness, from the weight of the life behind it. */
  function Brightness(total: real): real { Glow(LifeWeight(total)) }

  function LifeWeight(total: real): real { Clamp(total / 200.0, 0.2, 2.0) }

  function Glow(weight: real): real { Clamp(0.4 + weight, 0.4, 2.0) }

  function StarOf(c: Chronicle, legend: Legend): Star
    requires legend.manifestation.Constellation?
  {
    Star(legend.manifestation.star, legend.manifestation.element, legend.bornTick,
         Brightness(RenownOf(c, legend.about).Total()))
  }

  function RisingFoes(events: seq<Ecology.Event>): seq<Manifestation> {
    if events == [] then []
    else
      var last := events[|events| - 1];
      RisingFoes(events[..|events| - 1]) + if last.Mutation? then [NamedFoeRises(last.variant, last.powerMult)] else []
  }

  function AdvanceIn(w: World, to: nat, fates: Fates): World {
    if to <= w.tick then w
    else
      w.(tick := to,
         web := Ecology.TickIn(w.web, to, fates.seasonOf(to)),
         pending := w.pending + RisingFoes(Ecology.EventsIn(w.web, fates.dice, to, fates.seasonOf(to))))
  }

  /** Where a legend goes once the chronicle `c` holds it: to the sky, or to the queue of sites. */
  function Realised(w: World, c: Chronicle, legend: Legend): World {
    if legend.manifestation.Constellation? then w.(chronicle := c, stars := w.stars + [StarOf(c, legend)])
    else w.(chronicle := c, pending := w.pending + [legend.manifestation])
  }

  function Woven(w: World, c: Chronicle, mints: bool, legend: Legend): World {
    if mints then Realised(w, c, legend) else w.(chronicle := c)
  }

  function DeedIn(w: World, deed: Deed, fates: Fates): World {
    var fate := fates.fateOf(deed);
    Woven(w, RecordIn(w.chronicle, deed, fate), Mints(w.chronicle, deed), Minted(w.chronicle, deed, fate))
  }

  class WorldSoul {
    var tick: nat
    var chronicle: Chronicle
    var stars: seq<Star>
    var pending: seq<Manifestation>
    const ecology: Ecology.Ecosystem
    const fates: Fates

    ghost function View(): World
      reads this, ecology
    {
      World(tick, chronicle, stars, pending, ecology.View())
    }

    constructor (fates: Fates)
      ensures fresh(ecology) && this.fates == fates && View() == World(0, FIRST_AGE, [], [], Ecology.Web([], 0))
    {
      tick, chronicle, stars, pending := 0, FIRST_AGE, [], [];
      ecology := new Ecology.Ecosystem();
      this.fates := fates;
    }

    method Advance(to: nat)
      modifies this, ecology
      ensures View() == AdvanceIn(old(View()), to, fates)
    {
      if to <= tick {
        return;
      }
      tick := to;
      var events := ecology.Tick(fates.dice, to, fates.seasonOf(to));
      var i := 0;
      while i < |events|
        invariant i <= |events|
        invariant pending == old(pending) + RisingFoes(events[..i])
        invariant tick == to && chronicle == old(chronicle) && stars == old(stars)
        invariant ecology.View() == Ecology.TickIn(old(ecology.View()), to, fates.seasonOf(to))
      {
        assert events[..i + 1][..i] == events[..i];
        if events[i].Mutation? {
          pending := pending + [NamedFoeRises(events[i].variant, events[i].powerMult)];
        }
        i := i + 1;
      }
      assert events[..i] == events;
    }

    /** Credits the deed, then weaves the legend it may have given birth to into the world. */
    method RecordDeed(deed: Deed) returns (born: seq<Legend>)
      modifies this
      ensures View() == DeedIn(old(View()), deed, fates)
      ensures chronicle.legends == old(chronicle).legends + born
      ensures |born| == if Mints(old(chronicle), deed) then 1 else 0
    {
      born := Record(deed);
      var i := 0;
      while i < |born|
        invariant i <= |born| && tick == old(tick) && chronicle == RecordIn(old(chronicle), deed, fates.fateOf(deed))
        invariant i == 0 ==> stars == old(stars) && pending == old(pending)
        invariant i == 1 ==> View() == DeedIn(old(View()), deed, fates)
      {
        Realise(born[i]);
        i := i + 1;
      }
    }

    method Record(deed: Deed) returns (born: seq<Legend>)
      modifies this`chronicle
      ensures chronicle == RecordIn(old(chronicle), deed, fates.fateOf(deed))
      ensures born == if Mints(old(chronicle), deed) then [Minted(old(chronicle), deed, fates.fateOf(deed))] else []
    {
      var credited := Credited(chronicle, deed);
      var crossed := credited.Total() >= chronicle.threshold;
      var mythic := Mythic(deed.kind, chronicle.threshold);
      var legend := Minted(chronicle, deed, fates.fateOf(deed));
      assert (crossed || mythic) == Mints(chronicle, deed);
      born := Inscribe(deed.actor, credited, crossed || mythic, legend);
    }

    method Inscribe(actor: Id, credited: Renown, mints: bool, legend: Legend) returns (born: seq<Legend>)
      modifies this`chronicle
      ensures chronicle == Enter(old(chronicle), actor, credited, mints, legend)
      ensures born == if mints then [legend] else []
    {
      born := [];
      chronicle := chronicle.(renown := chronicle.renown[actor := credited]);
      if mints {
        chronicle := chronicle.(nextId := chronicle.nextId + 1);
        born := [legend];
        chronicle := chronicle.(legends := chronicle.legends + [legend]);
        chronicle := chronicle.(threshold := Higher(chronicle.threshold));
      }
    }

    method Realise(legend: Legend)
      modifies this`stars, this`pending
      ensures legend.manifestation.Constellation? ==>
                stars == old(stars) + [StarOf(chronicle, legend)] && pending == old(pending)
      ensures !legend.manifestation.Constellation? ==>
                stars == old(stars) && pending == old(pending) + [legend.manifestation]
    {
      match legend.manifestation
      case Constellation(name, element) =>
        var star := Light(legend);
        stars := stars + [star];
      case other =>
        pending := pending + [other];
    }

    method Light(legend: Legend) returns (star: Star)
      requires legend.manifestation.Constellation?
      ensures star == StarOf(chronicle, legend)
    {
      var weight := LifeWeight(RenownOf(chronicle, legend.about).Total());
      star := Star(legend.manifestation.star, legend.manifestation.element, legend.bornTick, Glow(weight));
      assert star.brightness == Brightness(RenownOf(chronicle, legend.about).Total());
    }

    method TakePending() returns (sites: seq<Manifestation>)
      modifies this`pending
      ensures sites == old(pending) && pending == []
    {
      sites := pending;
      pending := [];
    }
  }

  // ---- which deed marks the world how ----

  /** Duels hallow the ground, atrocities haunt it or raise a foe, and every other legend goes to
      the stars: no relic is ever seeded, because slaying always counts as valor. */
  lemma DeedDecidesManifestation(deed: Deed, fate: Fate)
    ensures var m := Manifest(deed, FacetOf(deed.kind), fate);
            && !m.RelicSite?
            && (m.Constellation? <==> !deed.kind.Duel? && !deed.kind.Atrocity?)
            && (m.HallowedGround? <==> deed.kind.Duel?)
            && (m.HauntedGround? <==> deed.kind.Atrocity? && fate.haunts)
            && (m.NamedFoeRises? <==> deed.kind.Atrocity? && !fate.haunts)
  {
  }

  /** A legend is about whoever did the deed, and what it leaves behind is named, placed and armed as
      it should be: the star bears the legend's own name, the ground lies where the deed was done, and
      the foe that rises is the one who did it. */
  lemma LegendFitsDeed(c: Chronicle, deed: Deed, fate: Fate)
    ensures var legend := Minted(c, deed, fate);
            && legend.about == deed.actor && legend.bornTick == deed.tick && legend.name == fate.name
            && match legend.manifestation
               case Constellation(star, element) => star == legend.name && element == fate.element
               case HallowedGround(place) => place == deed.location
               case HauntedGround(place) => place == deed.location
               case RelicSite(place, _) => place == deed.location
               case NamedFoeRises(mob, powerMult) => mob == legend.about && powerMult == fate.powerMult
  {
  }

  /** A deed that leaves its actor under the bar gives birth to a legend all the same exactly if it
      is mythic in itself: something forged, a stand against twenty or more, or the slaying of
      somebody whose own renown reaches the bar. */
  lemma MythicDeedsIff(c: Chronicle, deed: Deed, fate: Fate)
    requires Credited(c, deed).Total() < c.threshold
    ensures RecordIn(c, deed, fate).legends != c.legends <==>
              || deed.kind.Forge?
              || (deed.kind.LastStand? && deed.kind.foes >= 20)
              || (deed.kind.Slay? && deed.kind.victimRenown >= c.threshold)
  {
    assert |c.legends + [Minted(c, deed, fate)]| == |c.legends| + 1;
  }

  /** A deed moves one facet of its actor, and nobody else's. */
  lemma DeedMovesOneFacet(c: Chronicle, deed: Deed, fate: Fate, actor: Id, f: Facet)
    ensures var before, after := RenownOf(c, actor), RenownOf(RecordIn(c, deed, fate), actor);
            after.Get(f) != before.Get(f) <==>
              && actor == deed.actor
              && Gained(deed) != 0.0
              && match f
                 case Valor => deed.kind.Slay? || deed.kind.Fell? || deed.kind.LastStand?
                 case Cunning => deed.kind.Duel?
                 case Grace => deed.kind.Ward?
                 case Dread => deed.kind.Atrocity?
                 case Wisdom => deed.kind.Discover? || deed.kind.Forge?
  {
  }

  /** What deeds of one magnitude are worth against each other: an atrocity half as much again as
      a discovery, a duel or the slaying of a nobody, a forging a fifth more, one's own fall a
      fifth; a last stand as much from five foes on and a rescue from three saved. */
  lemma DeedsCompare(deed: Deed, n: nat, victim: Id, renown: real)
    requires deed.kind.Discover? && deed.magnitude > 0.0
    ensures forall kind: DeedKind :: kind.Duel? ==> Gained(deed.(kind := kind)) == Gained(deed)
    ensures forall kind: DeedKind :: kind.Forge? ==> Gained(deed.(kind := kind)) == 1.2 * Gained(deed)
    ensures forall kind: DeedKind :: kind.Fell? ==> Gained(deed.(kind := kind)) == 0.2 * Gained(deed)
    ensures Gained(deed.(kind := Atrocity)) == 1.5 * Gained(deed)
    ensures Gained(deed.(kind := Slay(victim, 0.0))) == Gained(deed)
    ensures Gained(deed.(kind := LastStand(n))) >= Gained(deed) <==> n >= 5
    ensures Gained(deed.(kind := Ward(n))) >= Gained(deed) <==> n >= 3
    ensures Gained(deed.(kind := LastStand(n))) >= Gained(deed.(kind := Atrocity)) <==> n >= 10
    ensures Gained(deed.(kind := Ward(n))) >= Gained(deed.(kind := Atrocity)) <==> n >= 5
    ensures renown >= 0.0 ==> Gained(deed.(kind := Slay(victim, renown))) == Gained(deed) + renown / 4.0
  {
    var m := deed.magnitude;
    WorthAt(m, 0.5 + n as real * 0.1, 1.0);
    WorthAt(m, 0.5 + n as real * 0.2, 1.0);
    WorthAt(m, 0.5 + n as real * 0.1, 1.5);
    WorthAt(m, 0.5 + n as real * 0.2, 1.5);
  }

  lemma WorthAt(m: real, x: real, y: real)
    requires m > 0.0 && x >= 0.0
    ensures Times(m, x) >= 0.0 && (Times(m, x) >= Times(m, y) <==> x >= y)
  {
    if x >= y { ScaleBy(m, y, x); } else { ScaleBy(m, x, y); assert m * y - m * x == m * (y - x) > 0.0; }
    ScaleBy(m, 0.0, x);
  }

  lemma ScaleBy(m: real, x: real, y: real)
    requires m > 0.0 && x <= y
    ensures m * x <= m * y
  {
  }

  // ---- runs ----

  datatype Event = Advance(to: nat) | RecordDeed(deed: Deed) | TakePending

  /** The world, and everything drained from it so far. */
  datatype History = History(world: World, drained: seq<Manifestation>)

  function Step(h: History, e: Event, fates: Fates): History {
    match e
    case Advance(to) => h.(world := AdvanceIn(h.world, to, fates))
    case RecordDeed(deed) => h.(world := DeedIn(h.world, deed, fates))
    case TakePending => History(h.world.(pending := []), h.drained + h.world.pending)
  }

  function Run(h: History, es: seq<Event>, fates: Fates): History {
    if es == [] then h else Step(Run(h, es[..|es| - 1], fates), es[|es| - 1], fates)
  }

  function Begin(web: Ecology.Web): History { History(World(0, FIRST_AGE, [], [], web), []) }

  /** The legends hung in the sky, and those that mark the ground, in the order of their birth. */
  function Hung(legends: seq<Legend>): seq<(string, string, nat)> {
    if legends == [] then []
    else
      var last := legends[|legends| - 1];
      Hung(legends[..|legends| - 1]) +
      if last.manifestation.Constellation?
      then [(last.manifestation.star, last.manifestation.element, last.bornTick)] else []
  }

  function Sited(legends: seq<Legend>): seq<Manifestation> {
    if legends == [] then []
    else
      var last := legends[|legends| - 1];
      Sited(legends[..|legends| - 1]) + if last.manifestation.Constellation? then [] else [last.manifestation]
  }

  function Signature(s: Star): (string, string, nat) { (s.name, s.element, s.bornTick) }

  /** The foes one event raises. */
  function RaisedBy(w: World, e: Event, fates: Fates): seq<Manifestation> {
    if e.Advance? && e.to > w.tick then RisingFoes(Ecology.EventsIn(w.web, fates.dice, e.to, fates.seasonOf(e.to)))
    else []
  }

  /** The foes the ecology raised over a run. */
  function Raised(h: History, es: seq<Event>, fates: Fates): seq<Manifestation> {
    if es == [] then []
    else Raised(h, es[..|es| - 1], fates) + RaisedBy(Run(h, es[..|es| - 1], fates).world, es[|es| - 1], fates)
  }

  /** Each legend, and each foe the ecology raised, is in exactly one place: in the sky, waiting, or
      drained. */
  ghost predicate Accounted(h: History, raised: seq<Manifestation>) {
    var legends := h.world.chronicle.legends;
    && Map(Signature, h.world.stars) == Hung(legends)
    && multiset(h.drained + h.world.pending) == multiset(Sited(legends)) + multiset(raised)
  }

  lemma LegendAppended(legends: seq<Legend>, x: Legend)
    ensures Hung(legends + [x]) ==
            Hung(legends) +
            if x.manifestation.Constellation? then [(x.manifestation.star, x.manifestation.element, x.bornTick)] else []
    ensures Sited(legends + [x]) == Sited(legends) + if x.manifestation.Constellation? then [] else [x.manifestation]
  {
    assert (legends + [x])[..|legends|] == legends;
  }

  lemma HungAccounted(h: History, raised: seq<Manifestation>, c: Chronicle, legend: Legend)
    requires Accounted(h, raised) && c.legends == h.world.chronicle.legends + [legend]
    requires legend.manifestation.Constellation?
    ensures Accounted(h.(world := Realised(h.world, c, legend)), raised)
  {
    var w, star := h.world, StarOf(c, legend);
    LegendAppended(w.chronicle.legends, legend);
    assert Sited(c.legends) == Sited(w.chronicle.legends);
    assert Map(Signature, w.stars + [star]) == Map(Signature, w.stars) + [Signature(star)];
  }

  lemma SitedAccounted(h: History, raised: seq<Manifestation>, c: Chronicle, legend: Legend)
    requires Accounted(h, raised) && c.legends == h.world.chronicle.legends + [legend]
    requires !legend.manifestation.Constellation?
    ensures Accounted(h.(world := Realised(h.world, c, legend)), raised)
  {
    var w, site := h.world, legend.manifestation;
    LegendAppended(w.chronicle.legends, legend);
    assert Hung(c.legends) == Hung(w.chronicle.legends);
    assert h.drained + (w.pending + [site]) == (h.drained + w.pending) + [site];
  }

  lemma WovenAccounted(h: History, raised: seq<Manifestation>, c: Chronicle, mints: bool, legend: Legend)
    requires Accounted(h, raised)
    requires c.legends == h.world.chronicle.legends + if mints then [legend] else []
    ensures Accounted(h.(world := Woven(h.world, c, mints, legend)), raised)
  {
    if mints {
      if legend.manifestation.Constellation? {
        HungAccounted(h, raised, c, legend);
      } else {
        SitedAccounted(h, raised, c, legend);
      }
    } else {
      assert h.world.chronicle.legends + [] == h.world.chronicle.legends;
    }
  }

  lemma DeedAccounted(h: History, raised: seq<Manifestation>, deed: Deed, fates: Fates)
    requires Accounted(h, raised)
    ensures Accounted(h.(world := DeedIn(h.world, deed, fates)), raised)
  {
    var c, fate := h.world.chronicle, fates.fateOf(deed);
    var after, mints, legend := RecordIn(c, deed, fate), Mints(c, deed), Minted(c, deed, fate);
    assert after.legends == c.legends + if mints then [legend] else [] by {
      assert c.legends + [] == c.legends;
    }
    assert DeedIn(h.world, deed, fates) == Woven(h.world, after, mints, legend);
    WovenAccounted(h, raised, after, mints, legend);
  }

  /** Legend conservation: over every run nothing is lost and nothing is counted twice. */
  lemma {:induction false} EverythingIsAccounted(web: Ecology.Web, es: seq<Event>, fates: Fates)
    ensures Accounted(Run(Begin(web), es, fates), Raised(Begin(web), es, fates))
  {
    if es != [] {
      var before, last := es[..|es| - 1], es[|es| - 1];
      var h, raised := Run(Begin(web), before, fates), Raised(Begin(web), before, fates);
      EverythingIsAccounted(web, before, fates);
      StepAccounted(h, raised, last, fates);
    }
  }

  lemma StepAccounted(h: History, raised: seq<Manifestation>, e: Event, fates: Fates)
    requires Accounted(h, raised)
    ensures Accounted(Step(h, e, fates), raised + RaisedBy(h.world, e, fates))
  {
    assert raised + [] == raised;
    match e
    case RecordDeed(deed) => DeedAccounted(h, raised, deed, fates);
    case TakePending => assert (h.drained + h.world.pending) + [] == h.drained + h.world.pending;
    case Advance(to) => FoesAccounted(h, raised, to, fates);
  }

  lemma FoesAccounted(h: History, raised: seq<Manifestation>, to: nat, fates: Fates)
    requires Accounted(h, raised)
    ensures Accounted(h.(world := AdvanceIn(h.world, to, fates)), raised + RaisedBy(h.world, Advance(to), fates))
  {
    var w, foes := h.world, RaisedBy(h.world, Advance(to), fates);
    var after := AdvanceIn(w, to, fates);
    assert w.pending + [] == w.pending;
    assert after.chronicle == w.chronicle && after.stars == w.stars && after.pending == w.pending + foes;
    MoreToAccount(h.drained, w.pending, Sited(w.chronicle.legends), raised, foes);
  }

  lemma MoreToAccount<T>(drained: seq<T>, pending: seq<T>, sited: seq<T>, raised: seq<T>, foes: seq<T>)
    requires multiset(drained + pending) == multiset(sited) + multiset(raised)
    ensures multiset(drained + (pending + foes)) == multiset(sited) + multiset(raised + foes)
  {
    assert drained + (pending + foes) == (drained + pending) + foes;
    assert multiset((drained + pending) + foes) == multiset(drained + pending) + multiset(foes);
    assert multiset(raised + foes) == multiset(raised) + multiset(foes);
  }

  lemma {:induction false} HungOrSited(legends: seq<Legend>)
    ensures |Hung(legends)| + |Sited(legends)| == |legends|
  {
    if legends != [] {
      HungOrSited(legends[..|legends| - 1]);
    }
  }

  lemma SizesAgree<T>(xs: seq<T>, ys: seq<T>, zs: seq<T>)
    requires multiset(xs) == multiset(ys) + multiset(zs)
    ensures |xs| == |ys| + |zs|
  {
    assert |multiset(xs)| == |xs| && |multiset(ys)| == |ys| && |multiset(zs)| == |zs|;
  }

  /** In numbers: stars, waiting sites and drained sites add up to the legends minted and the foes
      the ecology raised. */
  lemma LegendsAreConserved(web: Ecology.Web, es: seq<Event>, fates: Fates)
    ensures var h := Run(Begin(web), es, fates);
            |h.world.stars| + |h.world.pending| + |h.drained| ==
            |h.world.chronicle.legends| + |Raised(Begin(web), es, fates)|
  {
    var h, raised := Run(Begin(web), es, fates), Raised(Begin(web), es, fates);
    EverythingIsAccounted(web, es, fates);
    HungOrSited(h.world.chronicle.legends);
    SizesAgree(h.drained + h.world.pending, Sited(h.world.chronicle.legends), raised);
  }

  function Bar(n: nat): real { if n == 0 then 100.0 else Higher(Bar(n - 1)) }

  ghost predicate Numbered(c: Chronicle) {
    && c.nextId == |c.legends|
    && c.threshold == Bar(|c.legends|)
    && forall i :: 0 <= i < |c.legends| ==> c.legends[i].id == i
  }

  /** Ids count the legends from zero and never repeat, and each legend raised the bar by fifteen
      percent. */
  lemma {:induction false} LegendsAreNumbered(web: Ecology.Web, es: seq<Event>, fates: Fates)
    ensures Numbered(Run(Begin(web), es, fates).world.chronicle)
  {
    if es != [] {
      LegendsAreNumbered(web, es[..|es| - 1], fates);
      if es[|es| - 1].RecordDeed? {
        RecordKeepsNumbers(Run(Begin(web), es[..|es| - 1], fates).world.chronicle, es[|es| - 1].deed,
                           fates.fateOf(es[|es| - 1].deed));
      }
    }
  }

  lemma RecordKeepsNumbers(c: Chronicle, deed: Deed, fate: Fate)
    requires Numbered(c)
    ensures Numbered(RecordIn(c, deed, fate))
  {
  }

  lemma PlusGrows(r: Renown, g: Facet, amount: real, f: Facet)
    requires amount >= 0.0
    ensures r.Plus(g, amount).Get(f) >= r.Get(f)
    ensures r.Plus(g, amount).Total() == r.Total() + amount
  {
  }

  lemma CreditsNeverFall(c: Chronicle, deed: Deed, fate: Fate, actor: Id, f: Facet)
    ensures RenownOf(RecordIn(c, deed, fate), actor).Get(f) >= RenownOf(c, actor).Get(f)
    ensures RenownOf(RecordIn(c, deed, fate), actor).Total() >= RenownOf(c, actor).Total()
  {
    PlusGrows(RenownOf(c, deed.actor), FacetOf(deed.kind), Gained(deed), f);
    assert RenownOf(RecordIn(c, deed, fate), actor) ==
           if actor == deed.actor then Credited(c, deed) else RenownOf(c, actor);
  }

  /** No facet of anyone's renown ever falls, legends are never struck from the record, and the
      world's clock never runs back. */
  lemma {:induction false} NothingIsForgotten(h: History, es: seq<Event>, fates: Fates, actor: Id, f: Facet)
    ensures RenownOf(Run(h, es, fates).world.chronicle, actor).Get(f) >= RenownOf(h.world.chronicle, actor).Get(f)
    ensures h.world.chronicle.legends <= Run(h, es, fates).world.chronicle.legends
    ensures Run(h, es, fates).world.tick >= h.world.tick
  {
    if es != [] {
      var before, last := Run(h, es[..|es| - 1], fates), es[|es| - 1];
      NothingIsForgotten(h, es[..|es| - 1], fates, actor, f);
      if last.RecordDeed? {
        CreditsNeverFall(before.world.chronicle, last.deed, fates.fateOf(last.deed), actor, f);
      }
    }
  }

  /** What an actor's deeds of a run add up to in one facet. */
  function Earned(es: seq<Event>, actor: Id, f: Facet): real {
    if es == [] then 0.0
    else
      var last := es[|es| - 1];
      Earned(es[..|es| - 1], actor, f) +
      if last.RecordDeed? && last.deed.actor == actor && FacetOf(last.deed.kind) == f then Gained(last.deed) else 0.0
  }

  lemma CreditIsEarned(c: Chronicle, deed: Deed, fate: Fate, actor: Id, f: Facet)
    ensures RenownOf(RecordIn(c, deed, fate), actor).Get(f) ==
            RenownOf(c, actor).Get(f) + if deed.actor == actor && FacetOf(deed.kind) == f then Gained(deed) else 0.0
  {
    assert RenownOf(RecordIn(c, deed, fate), actor) ==
           if actor == deed.actor then Credited(c, deed) else RenownOf(c, actor);
  }

  /** Replaying the deeds explains every renown, facet by facet. */
  lemma {:induction false} RenownIsEarned(web: Ecology.Web, es: seq<Event>, fates: Fates, actor: Id, f: Facet)
    ensures RenownOf(Run(Begin(web), es, fates).world.chronicle, actor).Get(f) == Earned(es, actor, f)
  {
    if es != [] {
      RenownIsEarned(web, es[..|es| - 1], fates, actor, f);
      if es[|es| - 1].RecordDeed? {
        CreditIsEarned(Run(Begin(web), es[..|es| - 1], fates).world.chronicle, es[|es| - 1].deed,
                       fates.fateOf(es[|es| - 1].deed), actor, f);
      }
    }
  }

  /** No deed of the run is mythic in itself, against the bar of its moment. */
  ghost predicate Mundane(web: Ecology.Web, es: seq<Event>, fates: Fates) {
    forall k :: 0 <= k < |es| && es[k].RecordDeed? ==>
      !Mythic(es[k].deed.kind, Run(Begin(web), es[..k], fates).world.chronicle.threshold)
  }

  /** Whoever the legend is about has the renown it took to be the next after `i`. */
  predicate Worthy(c: Chronicle, legend: Legend, i: nat) {
    RenownOf(c, legend.about).Total() >= Bar(i)
  }

  ghost predicate Scarce(c: Chronicle) {
    forall i :: 0 <= i < |c.legends| ==> Worthy(c, c.legends[i], i)
  }

  lemma StaysWorthy(c: Chronicle, deed: Deed, fate: Fate, legend: Legend, i: nat)
    requires Worthy(c, legend, i)
    ensures Worthy(RecordIn(c, deed, fate), legend, i)
  {
    CreditsNeverFall(c, deed, fate, legend.about, Valor);
  }

  lemma MintedIsWorthy(c: Chronicle, deed: Deed, fate: Fate)
    requires Numbered(c) && Mints(c, deed) && !Mythic(deed.kind, c.threshold)
    ensures Worthy(RecordIn(c, deed, fate), Minted(c, deed, fate), |c.legends|)
  {
    assert RenownOf(RecordIn(c, deed, fate), deed.actor) == Credited(c, deed);
  }

  lemma RecordKeepsScarce(c: Chronicle, deed: Deed, fate: Fate)
    requires Numbered(c) && Scarce(c) && !Mythic(deed.kind, c.threshold)
    ensures Scarce(RecordIn(c, deed, fate))
  {
    var after, legend := RecordIn(c, deed, fate), Minted(c, deed, fate);
    forall i | 0 <= i < |c.legends|
      ensures Worthy(after, c.legends[i], i)
    {
      StaysWorthy(c, deed, fate, c.legends[i], i);
    }
    if Mints(c, deed) {
      MintedIsWorthy(c, deed, fate);
      assert after.legends == c.legends + [legend];
    } else {
      assert after.legends == c.legends;
    }
  }

  lemma StepKeepsScarce(h: History, e: Event, fates: Fates)
    requires Numbered(h.world.chronicle) && Scarce(h.world.chronicle)
    requires e.RecordDeed? ==> !Mythic(e.deed.kind, h.world.chronicle.threshold)
    ensures Scarce(Step(h, e, fates).world.chronicle)
  {
    if e.RecordDeed? {
      RecordKeepsScarce(h.world.chronicle, e.deed, fates.fateOf(e.deed));
      assert Step(h, e, fates).world.chronicle == RecordIn(h.world.chronicle, e.deed, fates.fateOf(e.deed));
    } else {
      assert Step(h, e, fates).world.chronicle == h.world.chronicle;
    }
  }

  lemma MundaneBefore(web: Ecology.Web, es: seq<Event>, fates: Fates)
    requires es != [] && Mundane(web, es, fates)
    ensures Mundane(web, es[..|es| - 1], fates)
  {
    var before := es[..|es| - 1];
    forall k | 0 <= k < |before| && before[k].RecordDeed?
      ensures !Mythic(before[k].deed.kind, Run(Begin(web), before[..k], fates).world.chronicle.threshold)
    {
      assert before[..k] == es[..k] && before[k] == es[k];
    }
  }

  /** Myth stays scarce: without inherently mythic deeds, the one the n-th legend is about has a
      renown of at least the bar 100 * 1.15^(n-1). */
  lemma {:induction false} LegendsAreScarce(web: Ecology.Web, es: seq<Event>, fates: Fates)
    requires Mundane(web, es, fates)
    ensures Scarce(Run(Begin(web), es, fates).world.chronicle)
  {
    if es != [] {
      var before, last := es[..|es| - 1], es[|es| - 1];
      MundaneBefore(web, es, fates);
      LegendsAreScarce(web, before, fates);
      LegendsAreNumbered(web, before, fates);
      StepKeepsScarce(Run(Begin(web), before, fates), last, fates);
    }
  }

  // ---- the bar is a level, not an edge ----

  /** The deed carries its actor's renown over the bar. */
  predicate Crosses(c: Chronicle, deed: Deed) {
    RenownOf(c, deed.actor).Total() < c.threshold <= Credited(c, deed).Total()
  }

  /** For a deed that is not mythic in itself, minting is crossing the bar exactly when the actor
      did not stand above it already. */
  lemma MintingIsCrossingIff(c: Chronicle, deed: Deed)
    requires !Mythic(deed.kind, c.threshold)
    ensures (Mints(c, deed) <==> Crosses(c, deed)) <==> RenownOf(c, deed.actor).Total() < c.threshold
  {
    PlusGrows(RenownOf(c, deed.actor), FacetOf(deed.kind), Gained(deed), Valor);
  }

  lemma {:induction false} BarsRise(i: nat, j: nat)
    requires i <= j
    ensures Bar(i) + 15.0 * (j - i) as real <= Bar(j)
    ensures 100.0 <= Bar(i) <= Bar(j)
    decreases j
  {
    if i < j {
      BarsRise(i, j - 1);
    } else if i > 0 {
      BarsRise(i - 1, i - 1);
    }
  }

  /** The bar rises past every renown. */
  lemma BarPasses(renown: real, from: nat) returns (n: nat)
    ensures n >= from && Bar(n) > renown
  {
    n := from + if renown < 0.0 then 0 else (renown / 15.0).Floor + 1;
    BarsRise(0, n);
  }

  function RecordAll(c: Chronicle, deeds: seq<Deed>, fates: Fates): Chronicle {
    if deeds == [] then c
    else
      var last := deeds[|deeds| - 1];
      RecordIn(RecordAll(c, deeds[..|deeds| - 1], fates), last, fates.fateOf(last))
  }

  /** A deed that earns its actor nothing and is not mythic in itself. */
  predicate Idle(deed: Deed, actor: Id, threshold: real) {
    deed.actor == actor && Gained(deed) == 0.0 && !Mythic(deed.kind, threshold)
  }

  /** From `c` to `after` by `n` idle deeds: a legend for each, until the bar passed the renown. */
  ghost predicate Climbed(c: Chronicle, after: Chronicle, actor: Id, n: nat) {
    var renown := RenownOf(c, actor).Total();
    && Numbered(after)
    && RenownOf(after, actor).Total() == renown
    && |c.legends| <= |after.legends| <= |c.legends| + n
    && (forall j :: |c.legends| <= j < |after.legends| ==> Bar(j) <= renown)
    && (|after.legends| == |c.legends| + n || Bar(|after.legends|) > renown)
  }

  lemma ClimbsOn(c: Chronicle, c': Chronicle, actor: Id, n: nat, deed: Deed, fate: Fate)
    requires Numbered(c) && Climbed(c, c', actor, n) && Idle(deed, actor, c.threshold)
    ensures Climbed(c, RecordIn(c', deed, fate), actor, n + 1)
  {
    BarsRise(|c.legends|, |c'.legends|);
    HigherIsNotMythic(deed.kind, c.threshold, c'.threshold);
    OneIdleDeed(c', deed, fate);
  }

  /** Idle deeds mint legends one by one, as long as there are deeds, until the bar has risen past
      the actor's renown - and not one more. */
  lemma {:induction false} IdleDeedsMint(c: Chronicle, actor: Id, deeds: seq<Deed>, fates: Fates)
    requires Numbered(c) && AllIdle(deeds, actor, c.threshold)
    ensures Climbed(c, RecordAll(c, deeds, fates), actor, |deeds|)
  {
    if deeds != [] {
      var before, last := deeds[..|deeds| - 1], deeds[|deeds| - 1];
      IdleDeedsMint(c, actor, before, fates);
      ClimbsOn(c, RecordAll(c, before, fates), actor, |before|, last, fates.fateOf(last));
    }
  }

  predicate AllIdle(deeds: seq<Deed>, actor: Id, threshold: real) {
    forall i :: 0 <= i < |deeds| ==> Idle(deeds[i], actor, threshold)
  }

  lemma ClimbEnds(c: Chronicle, after: Chronicle, actor: Id, k: nat, n: nat)
    requires Climbed(c, after, actor, k) && |c.legends| <= n && Bar(n) > RenownOf(c, actor).Total()
    ensures |after.legends| <= n
  {
    assert n < |after.legends| ==> Bar(n) <= RenownOf(c, actor).Total();
  }

  lemma IdleDeedsEnd(c: Chronicle, actor: Id, deeds: seq<Deed>, fates: Fates, n: nat)
    requires Numbered(c) && AllIdle(deeds, actor, c.threshold)
    requires |c.legends| <= n && Bar(n) > RenownOf(c, actor).Total()
    ensures |RecordAll(c, deeds, fates).legends| <= n
  {
    IdleDeedsMint(c, actor, deeds, fates);
    ClimbEnds(c, RecordAll(c, deeds, fates), actor, |deeds|, n);
  }

  /** So they run dry: some number of legends is never passed, however many idle deeds follow. */
  lemma IdleDeedsRunDry(c: Chronicle, actor: Id) returns (n: nat)
    requires Numbered(c)
    ensures forall deeds, fates :: AllIdle(deeds, actor, c.threshold) ==> |RecordAll(c, deeds, fates).legends| <= n
  {
    n := BarPasses(RenownOf(c, actor).Total(), |c.legends|);
    forall deeds, fates | AllIdle(deeds, actor, c.threshold)
      ensures |RecordAll(c, deeds, fates).legends| <= n
    {
      IdleDeedsEnd(c, actor, deeds, fates, n);
    }
  }

  lemma HigherIsNotMythic(kind: DeedKind, low: real, high: real)
    requires low <= high && !Mythic(kind, low)
    ensures !Mythic(kind, high)
  {
  }

  lemma OneIdleDeed(c: Chronicle, deed: Deed, fate: Fate)
    requires Numbered(c) && Idle(deed, deed.actor, c.threshold)
    ensures var after := RecordIn(c, deed, fate);
            && Numbered(after)
            && RenownOf(after, deed.actor).Total() == RenownOf(c, deed.actor).Total()
            && |after.legends| == |c.legends| + if Bar(|c.legends|) <= RenownOf(c, deed.actor).Total() then 1 else 0
  {
    RecordKeepsNumbers(c, deed, fate);
    PlusGrows(RenownOf(c, deed.actor), FacetOf(deed.kind), Gained(deed), Valor);
    assert RenownOf(RecordIn(c, deed, fate), deed.actor) == Credited(c, deed);
  }

  lemma DiscoveryCredits(deed: Deed)
    requires deed.kind.Discover? && deed.magnitude >= 0.0
    ensures Credited(FIRST_AGE, deed) == Renown(0.0, 0.0, 0.0, 0.0, deed.magnitude)
  {
    assert Times(deed.magnitude, 1.0) == deed.magnitude;
    assert Gained(deed) == deed.magnitude;
  }

  lemma FirstLegend(deed: Deed, fate: Fate)
    requires Credited(FIRST_AGE, deed).Total() >= 100.0
    ensures var c := RecordIn(FIRST_AGE, deed, fate);
            |c.legends| == 1 && c.threshold == 115.0 && RenownOf(c, deed.actor) == Credited(FIRST_AGE, deed)
  {
    assert Mints(FIRST_AGE, deed);
  }

  lemma FirstEvent(web: Ecology.Web, deed: Deed, fates: Fates)
    ensures Run(Begin(web), [RecordDeed(deed)], fates).world.chronicle ==
            RecordIn(FIRST_AGE, deed, fates.fateOf(deed))
  {
    assert [RecordDeed(deed)][..0] == [];
  }

  /** Such a world is one deed away: a single discovery of magnitude 100 or more mints the first
      legend and leaves its finder with that renown, under or over a bar of 115 - at magnitude 1000,
      far over it. */
  lemma OneDiscovery(web: Ecology.Web, deed: Deed, fates: Fates)
    requires deed.kind.Discover? && deed.magnitude >= 100.0
    ensures var c := Run(Begin(web), [RecordDeed(deed)], fates).world.chronicle;
            |c.legends| == 1 && c.threshold == 115.0 && RenownOf(c, deed.actor).Total() == deed.magnitude
  {
    DiscoveryCredits(deed);
    FirstLegend(deed, fates.fateOf(deed));
    FirstEvent(web, deed, fates);
  }

  // ---- rising foes ----

  lemma {:induction false} FoesAreMutations(events: seq<Ecology.Event>, m: Manifestation)
    ensures m in RisingFoes(events) <==>
              m.NamedFoeRises? && exists base :: Ecology.Mutation(base, m.mob, m.powerMult) in events
    ensures |RisingFoes(events)| <= |events|
  {
    if events != [] {
      var front, last := events[..|events| - 1], events[|events| - 1];
      FoesAreMutations(front, m);
      assert events == front + [last];
      assert forall e :: e in events <==> e in front || e == last;
    }
  }

  /** As the world moves on, what joins the queue are exactly the day's mutants, each a named foe of
      the power it mutated to. */
  lemma FoesRiseIff(w: World, to: nat, fates: Fates, m: Manifestation)
    ensures w.pending <= AdvanceIn(w, to, fates).pending
    ensures m in AdvanceIn(w, to, fates).pending[|w.pending|..] <==>
              && to > w.tick
              && m.NamedFoeRises?
              && exists base ::
                   Ecology.Mutation(base, m.mob, m.powerMult) in
                   Ecology.EventsIn(w.web, fates.dice, to, fates.seasonOf(to))
  {
    FoesAreMutations(Ecology.EventsIn(w.web, fates.dice, to, fates.seasonOf(to)), m);
    if to > w.tick {
      var foes := RisingFoes(Ecology.EventsIn(w.web, fates.dice, to, fates.seasonOf(to)));
      assert (w.pending + foes)[|w.pending|..] == foes;
    }
  }

  // ---- the sky's boon ----

  function SeasonOf(element: string): Ecology.Season {
    if element == "fire" then Ecology.Kindling
    else if element == "radiant" then Ecology.Highsun
    else if element == "nature" || element == "storm" then Ecology.Emberfall
    else if element == "shadow" || element == "void" || element == "blood" then Ecology.Duskwane
    else if element == "frost" then Ecology.LongDark
    else Ecology.Highsun
  }

  function Shine(s: Star, element: string, season: Ecology.Season): real {
    if s.element != element then 0.0
    else s.brightness * 0.03 * (if SeasonOf(s.element) == season then 1.0 else 0.35)
  }

  function Bonus(stars: seq<Star>, element: string, season: Ecology.Season): real {
    if stars == [] then 0.0
    else Bonus(stars[..|stars| - 1], element, season) + Shine(stars[|stars| - 1], element, season)
  }

  function BoonOf(stars: seq<Star>, element: string, season: Ecology.Season, visibility: real): real {
    if visibility <= 0.0 then 1.0 else 1.0 + Times(Bonus(stars, element, season), visibility)
  }

  method Boon(stars: seq<Star>, element: string, season: Ecology.Season, visibility: real) returns (boon: real)
    ensures boon == BoonOf(stars, element, season, visibility)
  {
    if visibility <= 0.0 {
      return 1.0;
    }
    var bonus := 0.0;
    var i := 0;
    while i < |stars|
      invariant i <= |stars| && bonus == Bonus(stars[..i], element, season)
    {
      assert stars[..i + 1][..i] == stars[..i];
      if stars[i].element == element {
        var factor := if SeasonOf(stars[i].element) == season then 1.0 else 0.35;
        bonus := bonus + stars[i].brightness * 0.03 * factor;
      }
      i := i + 1;
    }
    assert stars[..i] == stars;
    boon := 1.0 + Times(bonus, visibility);
  }

  /** A star hung for a life of renown 320 or more shines its brightest, one of 40 or less its
      faintest, and in between each two hundred of renown add a unit. */
  lemma BrightnessIff(total: real, more: real)
    ensures Brightness(total) == 2.0 <==> total >= 320.0
    ensures Brightness(total) == 0.6 <==> total <= 40.0
    ensures 40.0 <= total <= total + more <= 320.0 ==> Brightness(total + more) == Brightness(total) + more / 200.0
  {
  }

  /** Over the five seasons every star gives its element the same, 0.072 of its brightness, and five
      twelfths of that in its own season. */
  lemma StarYear(s: Star, season: Ecology.Season)
    ensures Shine(s, s.element, Ecology.Kindling) + Shine(s, s.element, Ecology.Highsun)
            + Shine(s, s.element, Ecology.Emberfall) + Shine(s, s.element, Ecology.Duskwane)
            + Shine(s, s.element, Ecology.LongDark) == 0.072 * s.brightness
    ensures 12.0 * Shine(s, s.element, SeasonOf(s.element)) == 5.0 * (0.072 * s.brightness)
    ensures s.brightness > 0.0 ==>
              (Shine(s, s.element, season) == 0.03 * s.brightness <==>
               match season
               case Kindling => s.element == "fire"
               case Emberfall => s.element in {"nature", "storm"}
               case Duskwane => s.element in {"shadow", "void", "blood"}
               case LongDark => s.element == "frost"
               case Highsun => s.element !in {"fire", "nature", "storm", "shadow", "void", "blood", "frost"})
  {
  }

  lemma BrightnessRange(total: real)
    ensures 0.6 <= Brightness(total) <= 2.0
  {
  }

  lemma ShineIff(s: Star, element: string, season: Ecology.Season)
    requires s.brightness >= 0.6
    ensures Shine(s, element, season) >= 0.0
    ensures Shine(s, element, season) > 0.0 <==> s.element == element
  {
    Dimmed(s.brightness, if SeasonOf(s.element) == season then 1.0 else 0.35);
  }

  lemma Dimmed(brightness: real, factor: real)
    requires brightness >= 0.6 && factor >= 0.35
    ensures brightness * 0.03 * factor > 0.0
  {
  }

  lemma BonusAppends(stars: seq<Star>, s: Star, element: string, season: Ecology.Season)
    ensures Bonus(stars + [s], element, season) == Bonus(stars, element, season) + Shine(s, element, season)
  {
    assert (stars + [s])[..|stars|] == stars;
  }

  lemma {:induction false} NoKindredStar(stars: seq<Star>, element: string, season: Ecology.Season)
    requires forall s :: s in stars ==> s.element != element
    ensures Bonus(stars, element, season) == 0.0
  {
    if stars != [] { NoKindredStar(stars[..|stars| - 1], element, season); }
  }

  /** Without a star of the element, or by day, the boon is exactly one; a single star in its season
      adds three hundredths of its brightness under a wholly visible sky. */
  lemma BoonStartsAtOne(stars: seq<Star>, element: string, season: Ecology.Season, visibility: real, s: Star)
    ensures visibility <= 0.0 || (forall t :: t in stars ==> t.element != element) ==>
              BoonOf(stars, element, season, visibility) == 1.0
    ensures BoonOf([s], s.element, SeasonOf(s.element), 1.0) == 1.0 + 0.03 * s.brightness
  {
    if forall t :: t in stars ==> t.element != element { NoKindredStar(stars, element, season); }
    assert [s][..0] == [] && Bonus([], s.element, SeasonOf(s.element)) == 0.0;
    assert Bonus([s], s.element, SeasonOf(s.element)) == Shine(s, s.element, SeasonOf(s.element));
    Whole(Bonus([s], s.element, SeasonOf(s.element)));
    Nothing(visibility);
  }

  lemma Whole(x: real)
    ensures Times(x, 1.0) == x
  {
  }

  lemma Nothing(x: real)
    ensures Times(0.0, x) == 0.0
  {
  }

  /** A new star strengthens its own element under a dark sky, and no other. */
  lemma NewStarHelpsItsElement(stars: seq<Star>, s: Star, element: string, season: Ecology.Season, visibility: real)
    requires s.brightness >= 0.6
    ensures var before, after :=
            BoonOf(stars, element, season, visibility), BoonOf(stars + [s], element, season, visibility);
            if visibility > 0.0 && element == s.element then after > before else after == before
  {
    BonusAppends(stars, s, element, season);
    ShineIff(s, element, season);
    More(Bonus(stars, element, season), Shine(s, element, season), visibility);
  }

  lemma More(bonus: real, shine: real, visibility: real)
    requires shine >= 0.0
    ensures visibility > 0.0 && shine > 0.0 ==> Times(bonus + shine, visibility) > Times(bonus, visibility)
    ensures shine == 0.0 ==> Times(bonus + shine, visibility) == Times(bonus, visibility)
  {
    assert (bonus + shine) * visibility == bonus * visibility + shine * visibility;
    assert visibility > 0.0 && shine > 0.0 ==> shine * visibility > 0.0;
  }

  /** Every star is at least that bright. */
  lemma {:induction false} StarsAreBright(web: Ecology.Web, es: seq<Event>, fates: Fates)
    ensures forall s :: s in Run(Begin(web), es, fates).world.stars ==> 0.6 <= s.brightness <= 2.0
  {
    if es != [] {
      StarsAreBright(web, es[..|es| - 1], fates);
      if es[|es| - 1].RecordDeed? {
        DeedKeepsBright(Run(Begin(web), es[..|es| - 1], fates).world, es[|es| - 1].deed, fates);
      }
    }
  }

  lemma DeedKeepsBright(w: World, deed: Deed, fates: Fates)
    requires forall s :: s in w.stars ==> 0.6 <= s.brightness <= 2.0
    ensures forall s :: s in DeedIn(w, deed, fates).stars ==> 0.6 <= s.brightness <= 2.0
  {
    var c, fate := w.chronicle, fates.fateOf(deed);
    WovenKeepsBright(w, RecordIn(c, deed, fate), Mints(c, deed), Minted(c, deed, fate));
  }

  lemma AppendedIsBright(stars: seq<Star>, star: Star)
    requires 0.6 <= star.brightness <= 2.0 && forall s :: s in stars ==> 0.6 <= s.brightness <= 2.0
    ensures forall s :: s in stars + [star] ==> 0.6 <= s.brightness <= 2.0
  {
  }

  lemma WovenKeepsBright(w: World, c: Chronicle, mints: bool, legend: Legend)
    requires forall s :: s in w.stars ==> 0.6 <= s.brightness <= 2.0
    ensures forall s :: s in Woven(w, c, mints, legend).stars ==> 0.6 <= s.brightness <= 2.0
  {
    if mints && legend.manifestation.Constellation? {
      StarIsBright(c, legend);
      AppendedIsBright(w.stars, StarOf(c, legend));
    }
  }

  lemma StarIsBright(c: Chronicle, legend: Legend)
    requires legend.manifestation.Constellation?
    ensures 0.6 <= StarOf(c, legend).brightness <= 2.0
  {
    BrightnessRange(RenownOf(c, legend.about).Total());
  }
}
