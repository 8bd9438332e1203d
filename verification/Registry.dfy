/** The live content registry (arena-content): one index per kind of definition over the served
    pack, and the staged swap that replaces both at a tick boundary. */
module Registry {
  import opened Protocol
  import opened Spell
  import opened Content
  import opened Wrappers

  datatype Kind =
    | Spells | Items | Abilities | Statuses | Mobs | Materials | Shaders | GameModes | LootTables | SpawnRules
    | Triggers | Affixes | Gems | ItemSets | Enchants | Runewords

  const KINDS := {Spells, Items, Abilities, Statuses, Mobs, Materials, Shaders, GameModes, LootTables, SpawnRules,
                  Triggers, Affixes, Gems, ItemSets, Enchants, Runewords}

  /** The ids of the pack's definitions of one kind, in the pack's order. */
  function Ids(pack: ContentPack, kind: Kind): seq<Id> {
    match kind
    case Spells => seq(|pack.spells|, i requires 0 <= i < |pack.spells| => pack.spells[i].id)
    case Items => NamedIds(pack.items)
    case Abilities => seq(|pack.abilities|, i requires 0 <= i < |pack.abilities| => pack.abilities[i].id)
    case Statuses => NamedIds(pack.statuses)
    case Mobs => NamedIds(pack.mobs)
    case Materials => NamedIds(pack.materials)
    case Shaders => NamedIds(pack.shaders)
    case GameModes => seq(|pack.gameModes|, i requires 0 <= i < |pack.gameModes| => pack.gameModes[i].id)
    case LootTables => seq(|pack.lootTables|, i requires 0 <= i < |pack.lootTables| => pack.lootTables[i].id)
    case SpawnRules => seq(|pack.spawnRules|, i requires 0 <= i < |pack.spawnRules| => pack.spawnRules[i].id)
    case Triggers => seq(|pack.triggers|, i requires 0 <= i < |pack.triggers| => pack.triggers[i].id)
    case Affixes => NamedIds(pack.affixes)
    case Gems => seq(|pack.gems|, i requires 0 <= i < |pack.gems| => pack.gems[i].id)
    case ItemSets => seq(|pack.itemSets|, i requires 0 <= i < |pack.itemSets| => pack.itemSets[i].id)
    case Enchants => NamedIds(pack.enchants)
    case Runewords => seq(|pack.runewords|, i requires 0 <= i < |pack.runewords| => pack.runewords[i].id)
  }

  function NamedIds(xs: seq<Named>): seq<Id> {
    seq(|xs|, i requires 0 <= i < |xs| => xs[i].id)
  }

  /** A hash map collected from (id, position) pairs: a repeated id keeps its last position. */
  function Positions(ids: seq<Id>): map<Id, nat> {
    if ids == [] then map[] else Positions(ids[..|ids| - 1])[ids[|ids| - 1] := |ids| - 1]
  }

  type Index = map<Kind, map<Id, nat>>

  function IndexOf(pack: ContentPack): Index {
    map kind | kind in KINDS :: Positions(Ids(pack, kind))
  }

  datatype Registry = Registry(epoch: nat, pack: ContentPack, index: Index, pending: Option<(nat, ContentPack)>)

  datatype StageError = Stale | Dangling(ref: Ref)

  function Opened(epoch: nat, pack: ContentPack): Registry {
    Registry(epoch, pack, IndexOf(pack), None)
  }

  function Refusal(r: Registry, epoch: nat, pack: ContentPack): Option<StageError> {
    if epoch <= r.epoch then Some(Stale)
    else if Validate(pack).Some? then Some(Dangling(Validate(pack).value))
    else None
  }

  function StageIn(r: Registry, epoch: nat, pack: ContentPack): Registry {
    if Refusal(r, epoch, pack).Some? then r else r.(pending := Some((epoch, pack)))
  }

  function ApplyIn(r: Registry): Registry {
    match r.pending
    case None => r
    case Some(next) => Opened(next.0, next.1)
  }

  class ContentRegistry {
    var epoch: nat
    var pack: ContentPack
    var index: Index
    var pending: Option<(nat, ContentPack)>

    ghost function View(): Registry
      reads this
    {
      Registry(epoch, pack, index, pending)
    }

    constructor Empty(e: nat)
      ensures epoch == e && pending == None
    {
      epoch, pack, index, pending := e, EMPTY, map[], None;
    }

    static method New(epoch: nat, pack: ContentPack) returns (r: ContentRegistry?, error: Option<Ref>)
      ensures error == Validate(pack) && (r == null <==> error.Some?)
      ensures r != null ==> fresh(r) && r.View() == Opened(epoch, pack)
    {
      error := Validate(pack);
      if error.Some? {
        return null, error;
      }
      var registry := new ContentRegistry.Empty(epoch);
      registry.Reindex(pack);
      r := registry;
    }

    method Reindex(next: ContentPack)
      modifies this`index, this`pack
      ensures pack == next && index == IndexOf(next)
    {
      index := map kind | kind in KINDS :: Positions(Ids(next, kind));
      pack := next;
    }

    method Stage(next: nat, staged: ContentPack) returns (error: Option<StageError>)
      modifies this`pending
      ensures error == Refusal(old(View()), next, staged)
      ensures View() == StageIn(old(View()), next, staged)
    {
      if next <= epoch {
        return Some(Stale);
      }
      var dangling := Validate(staged);
      if dangling.Some? {
        return Some(Dangling(dangling.value));
      }
      pending := Some((next, staged));
      error := None;
    }

    method ApplyPending() returns (swapped: Option<nat>)
      modifies this
      ensures View() == ApplyIn(old(View()))
      ensures swapped == match old(pending) { case None => None case Some(next) => Some(next.0) }
    {
      match pending
      case None => swapped := None;
      case Some(next) =>
        pending := None;
        epoch := next.0;
        Reindex(next.1);
        swapped := Some(next.0);
    }
  }

  // ---- lookups ----

  /** Where the served pack defines an id, by the index. */
  function Position(r: Registry, kind: Kind, id: Id): Option<nat> {
    if kind in r.index && id in r.index[kind] then Some(r.index[kind][id]) else None
  }

  function LookupSpell(r: Registry, id: Id): Option<SpellDef>
    requires Live(r)
  {
    IndexIsExact(r.pack, Spells, id);
    match Position(r, Spells, id)
    case None => None
    case Some(i) => Some(r.pack.spells[i])
  }

  function LookupAbility(r: Registry, id: Id): Option<AbilityDef>
    requires Live(r)
  {
    IndexIsExact(r.pack, Abilities, id);
    match Position(r, Abilities, id)
    case None => None
    case Some(i) => Some(r.pack.abilities[i])
  }

  /** The last position of an id, without any index. */
  ghost predicate LastOf(ids: seq<Id>, id: Id, i: nat) {
    i < |ids| && ids[i] == id && forall j :: i < j < |ids| ==> ids[j] != id
  }

  lemma {:induction false} PositionsAreLast(ids: seq<Id>, id: Id)
    ensures id in Positions(ids) <==> id in ids
    ensures id in Positions(ids) ==> LastOf(ids, id, Positions(ids)[id])
  {
    if ids != [] {
      var n := |ids| - 1;
      PositionsAreLast(ids[..n], id);
      assert ids == ids[..n] + [ids[n]];
    }
  }

  lemma IndexIsExact(pack: ContentPack, kind: Kind, id: Id)
    ensures kind in IndexOf(pack) && (id in IndexOf(pack)[kind] <==> id in Ids(pack, kind))
    ensures id in IndexOf(pack)[kind] ==> LastOf(Ids(pack, kind), id, IndexOf(pack)[kind][id])
  {
    PositionsAreLast(Ids(pack, kind), id);
  }

  /** Without any index: an id is found exactly when a definition in `xs` carries it, and what is
      found is the last that does. */
  ghost predicate FindsLast<T>(r: Registry, kind: Kind, xs: seq<T>, idOf: T -> Id) {
    forall id ::
      match Position(r, kind, id)
      case None => forall i :: 0 <= i < |xs| ==> idOf(xs[i]) != id
      case Some(i) => i < |xs| && idOf(xs[i]) == id && forall j :: i < j < |xs| ==> idOf(xs[j]) != id
  }

  lemma IndexFindsLast<T>(r: Registry, kind: Kind, xs: seq<T>, idOf: T -> Id)
    requires Live(r) && |Ids(r.pack, kind)| == |xs| && forall i :: 0 <= i < |xs| ==> Ids(r.pack, kind)[i] == idOf(xs[i])
    ensures FindsLast(r, kind, xs, idOf)
  {
    forall id: Id
      ensures match Position(r, kind, id)
              case None => forall i :: 0 <= i < |xs| ==> idOf(xs[i]) != id
              case Some(i) => i < |xs| && idOf(xs[i]) == id && forall j :: i < j < |xs| ==> idOf(xs[j]) != id
    {
      IndexIsExact(r.pack, kind, id);
      if Position(r, kind, id).None? {
        forall i | 0 <= i < |xs|
          ensures idOf(xs[i]) != id
        {
          assert Ids(r.pack, kind)[i] in Ids(r.pack, kind);
        }
      }
    }
  }

  function IdOf(x: Named): Id { x.id }

  lemma NamedFindLast(r: Registry)
    requires Live(r)
    ensures FindsLast(r, Items, r.pack.items, IdOf) && FindsLast(r, Statuses, r.pack.statuses, IdOf)
    ensures FindsLast(r, Mobs, r.pack.mobs, IdOf) && FindsLast(r, Materials, r.pack.materials, IdOf)
    ensures FindsLast(r, Shaders, r.pack.shaders, IdOf) && FindsLast(r, Affixes, r.pack.affixes, IdOf)
    ensures FindsLast(r, Enchants, r.pack.enchants, IdOf)
  {
    IndexFindsLast(r, Items, r.pack.items, IdOf);
    IndexFindsLast(r, Statuses, r.pack.statuses, IdOf);
    IndexFindsLast(r, Mobs, r.pack.mobs, IdOf);
    IndexFindsLast(r, Materials, r.pack.materials, IdOf);
    IndexFindsLast(r, Shaders, r.pack.shaders, IdOf);
    IndexFindsLast(r, Affixes, r.pack.affixes, IdOf);
    IndexFindsLast(r, Enchants, r.pack.enchants, IdOf);
  }

  /** Every lookup of a live registry answers from its own collection of the served pack, with the
      last definition that carries the id. */
  lemma LookupsFindLast(r: Registry)
    requires Live(r)
    ensures FindsLast(r, Spells, r.pack.spells, (x: SpellDef) => x.id)
    ensures FindsLast(r, Abilities, r.pack.abilities, (x: AbilityDef) => x.id)
    ensures FindsLast(r, GameModes, r.pack.gameModes, (x: GameModeDef) => x.id)
    ensures FindsLast(r, LootTables, r.pack.lootTables, (x: LootTableDef) => x.id)
    ensures FindsLast(r, SpawnRules, r.pack.spawnRules, (x: SpawnRuleDef) => x.id)
    ensures FindsLast(r, Triggers, r.pack.triggers, (x: TriggerDef) => x.id)
    ensures FindsLast(r, Gems, r.pack.gems, (x: GemDef) => x.id)
    ensures FindsLast(r, ItemSets, r.pack.itemSets, (x: SetDef) => x.id)
    ensures FindsLast(r, Runewords, r.pack.runewords, (x: RunewordDef) => x.id)
    ensures FindsLast(r, Items, r.pack.items, IdOf) && FindsLast(r, Statuses, r.pack.statuses, IdOf)
    ensures FindsLast(r, Mobs, r.pack.mobs, IdOf) && FindsLast(r, Materials, r.pack.materials, IdOf)
    ensures FindsLast(r, Shaders, r.pack.shaders, IdOf) && FindsLast(r, Affixes, r.pack.affixes, IdOf)
    ensures FindsLast(r, Enchants, r.pack.enchants, IdOf)
  {
    IndexFindsLast(r, Spells, r.pack.spells, (x: SpellDef) => x.id);
    IndexFindsLast(r, Abilities, r.pack.abilities, (x: AbilityDef) => x.id);
    IndexFindsLast(r, GameModes, r.pack.gameModes, (x: GameModeDef) => x.id);
    IndexFindsLast(r, LootTables, r.pack.lootTables, (x: LootTableDef) => x.id);
    IndexFindsLast(r, SpawnRules, r.pack.spawnRules, (x: SpawnRuleDef) => x.id);
    IndexFindsLast(r, Triggers, r.pack.triggers, (x: TriggerDef) => x.id);
    IndexFindsLast(r, Gems, r.pack.gems, (x: GemDef) => x.id);
    IndexFindsLast(r, ItemSets, r.pack.itemSets, (x: SetDef) => x.id);
    IndexFindsLast(r, Runewords, r.pack.runewords, (x: RunewordDef) => x.id);
    NamedFindLast(r);
  }

  // ---- runs ----

  datatype Event = Stage(epoch: nat, pack: ContentPack) | ApplyPending

  function Step(r: Registry, e: Event): Registry {
    match e
    case Stage(epoch, pack) => StageIn(r, epoch, pack)
    case ApplyPending => ApplyIn(r)
  }

  function Run(r: Registry, es: seq<Event>): Registry {
    if es == [] then r else Step(Run(r, es[..|es| - 1]), es[|es| - 1])
  }

  /** What holds between any two ticks: the index is that of the served pack, whatever is served
      or staged is sound, and a staged epoch is ahead of the served one. */
  ghost predicate Live(r: Registry) {
    && r.index == IndexOf(r.pack)
    && Sound(r.pack)
    && (r.pending.Some? ==> r.pending.value.0 > r.epoch && Sound(r.pending.value.1))
  }

  /** A swap moves the epoch strictly forward; nothing else moves it, or changes what is served. */
  lemma EpochAdvances(r: Registry, e: Event)
    requires Live(r)
    ensures Live(Step(r, e)) && Step(r, e).epoch >= r.epoch
    ensures Step(r, e).epoch == r.epoch <==> !(e.ApplyPending? && r.pending.Some?)
    ensures Step(r, e).epoch == r.epoch ==> Step(r, e).pack == r.pack && Step(r, e).index == r.index
  {
    if e.Stage? { ValidateIff(e.pack); }
  }

  /** Every registry reachable from a live one is live, and serves the same pack until its
      epoch has moved. */
  lemma {:induction false} RunsStayLive(r: Registry, es: seq<Event>)
    requires Live(r)
    ensures Live(Run(r, es)) && Run(r, es).epoch >= r.epoch
    ensures Run(r, es).epoch == r.epoch ==> Run(r, es).pack == r.pack
  {
    if es != [] {
      RunsStayLive(r, es[..|es| - 1]);
      EpochAdvances(Run(r, es[..|es| - 1]), es[|es| - 1]);
    }
  }

  lemma OpenedIsLive(epoch: nat, pack: ContentPack)
    requires Validate(pack).None?
    ensures Live(Opened(epoch, pack))
  {
    ValidateIff(pack);
  }

  /** The stages of a run that were accepted. */
  function Accepted(r: Registry, es: seq<Event>): seq<(nat, ContentPack)> {
    if es == [] then []
    else
      Accepted(r, es[..|es| - 1]) + AcceptedAt(Run(r, es[..|es| - 1]), es[|es| - 1])
  }

  function AcceptedAt(r: Registry, e: Event): seq<(nat, ContentPack)> {
    if e.Stage? && Refusal(r, e.epoch, e.pack).None? then [(e.epoch, e.pack)] else []
  }

  /** What a run should have left in place: the last accepted stage is served once an apply has
      followed it, and pending until then. */
  ghost predicate Serves(r0: Registry, accepted: seq<(nat, ContentPack)>, r: Registry) {
    match r.pending
    case Some(next) => accepted != [] && accepted[|accepted| - 1] == next
    case None => r == Latest(r0, accepted)
  }

  lemma StepServes(r0: Registry, accepted: seq<(nat, ContentPack)>, r: Registry, e: Event)
    requires Serves(r0, accepted, r) && r0.pending.None?
    ensures Serves(r0, accepted + AcceptedAt(r, e), Step(r, e))
  {
    assert accepted + [] == accepted;
  }

  lemma {:induction false} RunServes(epoch: nat, pack: ContentPack, es: seq<Event>)
    ensures var r0 := Opened(epoch, pack); Serves(r0, Accepted(r0, es), Run(r0, es))
  {
    if es != [] {
      var r0, before := Opened(epoch, pack), es[..|es| - 1];
      RunServes(epoch, pack, before);
      StepServes(r0, Accepted(r0, before), Run(r0, before), es[|es| - 1]);
    }
  }

  function Latest(r0: Registry, accepted: seq<(nat, ContentPack)>): Registry {
    if accepted == [] then r0 else Opened(accepted[|accepted| - 1].0, accepted[|accepted| - 1].1)
  }

  lemma RunThen(r: Registry, es: seq<Event>, e: Event)
    ensures Run(r, es + [e]) == Step(Run(r, es), e)
  {
    assert (es + [e])[..|es|] == es;
  }

  /** At a tick boundary - right after an apply - the registry is exactly the one the last
      accepted stage would open afresh: nothing of the packs before it is left. */
  lemma SwapIsWholesale(epoch: nat, pack: ContentPack, es: seq<Event>)
    ensures var r0 := Opened(epoch, pack); Run(r0, es + [ApplyPending]) == Latest(r0, Accepted(r0, es))
  {
    var r0 := Opened(epoch, pack);
    RunServes(epoch, pack, es);
    RunThen(r0, es, ApplyPending);
    ApplyServes(r0, Accepted(r0, es), Run(r0, es));
  }

  lemma ApplyServes(r0: Registry, accepted: seq<(nat, ContentPack)>, r: Registry)
    requires Serves(r0, accepted, r)
    ensures ApplyIn(r) == Latest(r0, accepted)
  {
  }

  /** In every reachable state a lookup returns the last definition carrying the id, an ability
      found has its spell, and every status its spell applies - at any depth - is defined. */
  lemma CastsResolve(r: Registry, id: Id)
    requires Live(r)
    ensures LookupAbility(r, id).Some? <==> id in Ids(r.pack, Abilities)
    ensures LookupAbility(r, id).Some? ==>
              var a := LookupAbility(r, id).value;
              && a.id == id
              && LookupSpell(r, a.spell).Some?
              && var s := LookupSpell(r, a.spell).value;
                 s.id == a.spell && StatusesResolve(r, s)
  {
    IndexIsExact(r.pack, Abilities, id);
    if LookupAbility(r, id).Some? {
      var a := LookupAbility(r, id).value;
      assert a in r.pack.abilities;
      assert Makes(r.pack, Ref(AbilitySpell, a.id, a.spell));
      assert a.spell in Known(r.pack, AbilitySpell);
      var s :| s in r.pack.spells && s.id == a.spell;
      SpellIsIndexed(r, s);
    }
  }

  ghost predicate StatusesResolve(r: Registry, s: SpellDef) {
    forall status :: s.root.Applies(status) ==> Position(r, Statuses, status).Some?
  }

  lemma SpellIsIndexed(r: Registry, s: SpellDef)
    requires Live(r) && s in r.pack.spells
    ensures LookupSpell(r, s.id).Some?
    ensures LookupSpell(r, s.id).value.id == s.id && StatusesResolve(r, LookupSpell(r, s.id).value)
  {
    IndexIsExact(r.pack, Spells, s.id);
    var i :| 0 <= i < |r.pack.spells| && r.pack.spells[i] == s;
    assert Ids(r.pack, Spells)[i] == s.id;
    AppliedResolve(r, LookupSpell(r, s.id).value);
  }

  lemma AppliedResolve(r: Registry, s: SpellDef)
    requires Live(r) && s in r.pack.spells
    ensures StatusesResolve(r, s)
  {
    forall status | s.root.Applies(status)
      ensures Position(r, Statuses, status).Some?
    {
      var ref := Ref(SpellStatus, s.id, status);
      assert MadeBySpell(s, ref);
      assert Makes(r.pack, ref);
      assert status in StatusIds(r.pack);
      var i :| 0 <= i < |r.pack.statuses| && r.pack.statuses[i].id == status;
      assert Ids(r.pack, Statuses)[i] == status;
      IndexIsExact(r.pack, Statuses, status);
    }
  }

  /** A stage is accepted exactly when its epoch is ahead of the served one and every reference of
      its pack resolves. */
  lemma StageIsAcceptedIff(r: Registry, epoch: nat, pack: ContentPack)
    ensures AcceptedAt(r, Stage(epoch, pack)) == [(epoch, pack)] <==> epoch > r.epoch && Sound(pack)
  {
    ValidateIff(pack);
  }

  /** And after any run such a pack, staged and applied, is what is served, whatever was pending. */
  lemma SoundUpdateIsServed(r: Registry, es: seq<Event>, epoch: nat, pack: ContentPack)
    requires epoch > Run(r, es).epoch && Sound(pack)
    ensures Run(r, es + [Stage(epoch, pack)] + [ApplyPending]) == Opened(epoch, pack)
  {
    ValidateIff(pack);
    RunThen(r, es, Stage(epoch, pack));
    RunThen(r, es + [Stage(epoch, pack)], ApplyPending);
  }

  // ---- every reference has its answer ----

  /** The lookup that answers for a place; tech nodes and rune symbols have none. */
  function LookupFor(place: Place): Option<Kind> {
    match place
    case AbilitySpell | CastSpell => Some(Spells)
    case SpellStatus | AppliedStatus => Some(Statuses)
    case TechItem | ModeItem | LootItem | PickupItem | ConditionItem | GrantedItem | SetPiece => Some(Items)
    case ModeAbility => Some(Abilities)
    case RuleMob | SpawnedMob => Some(Mobs)
    case RuleTable | RolledTable => Some(LootTables)
    case ConditionTech | RuneSymbol => None
  }

  ghost predicate Answered(r: Registry, ref: Ref) {
    match LookupFor(ref.place)
    case Some(kind) => Position(r, kind, ref.id).Some?
    case None =>
      if ref.place == ConditionTech then exists n :: n in r.pack.tech && n.id == ref.id
      else exists g :: g in r.pack.gems && g.runeSymbol == Some(ref.id)
  }

  lemma ListedIds<T(!new)>(xs: seq<T>, idOf: T -> Id, ids: seq<Id>, id: Id)
    requires |ids| == |xs| && forall i :: 0 <= i < |xs| ==> ids[i] == idOf(xs[i])
    ensures id in ids <==> exists x :: x in xs && idOf(x) == id
  {
    if x :| x in xs && idOf(x) == id {
      var i :| 0 <= i < |xs| && xs[i] == x;
      assert ids[i] == id;
    }
  }

  /** What may be named at a place is what its lookup is over. */
  lemma KnownIffListed(pack: ContentPack, place: Place, kind: Kind, id: Id)
    requires LookupFor(place) == Some(kind)
    ensures id in Known(pack, place) <==> id in Ids(pack, kind)
  {
    match kind
    case Spells => ListedIds(pack.spells, (x: SpellDef) => x.id, Ids(pack, Spells), id);
    case Abilities => ListedIds(pack.abilities, (x: AbilityDef) => x.id, Ids(pack, Abilities), id);
    case LootTables => ListedIds(pack.lootTables, (x: LootTableDef) => x.id, Ids(pack, LootTables), id);
    case Items => ListedIds(pack.items, (x: Named) => x.id, Ids(pack, Items), id);
    case Statuses => ListedIds(pack.statuses, (x: Named) => x.id, Ids(pack, Statuses), id);
    case Mobs => ListedIds(pack.mobs, (x: Named) => x.id, Ids(pack, Mobs), id);
  }

  lemma ResolvesIffAnswered(r: Registry, ref: Ref)
    requires r.index == IndexOf(r.pack)
    ensures Resolves(r.pack, ref) <==> Answered(r, ref)
  {
    match LookupFor(ref.place)
    case Some(kind) =>
      KnownIffListed(r.pack, ref.place, kind, ref.id);
      IndexIsExact(r.pack, kind, ref.id);
    case None =>
  }

  /** A pack is accepted exactly when, opened, the registry has an answer to every reference it
      makes, from the lookup the reference's place goes through. */
  lemma AcceptedIffAnswered(epoch: nat, pack: ContentPack)
    ensures Validate(pack).None? <==> forall ref :: Makes(pack, ref) ==> Answered(Opened(epoch, pack), ref)
  {
    ValidateIff(pack);
    forall ref: Ref ensures Resolves(pack, ref) <==> Answered(Opened(epoch, pack), ref) {
      ResolvesIffAnswered(Opened(epoch, pack), ref);
    }
  }

  /** So at any time in any run no reference of the served pack is left dangling. */
  lemma LiveAnswersAll(r: Registry, es: seq<Event>, ref: Ref)
    requires Live(r) && Makes(Run(r, es).pack, ref)
    ensures Answered(Run(r, es), ref)
  {
    RunsStayLive(r, es);
    ResolvesIffAnswered(Run(r, es), ref);
  }
}
