/** Content packs (arena-content): the references one definition makes to another, and the
    structural validation every pack passes before it is served. */
module Content {
  import opened Protocol
  import opened Spell
  import opened Wrappers

  // ---- definitions, down to the ids they carry and name ----

  datatype Named = Named(id: Id)

  datatype AbilityDef = AbilityDef(id: Id, spell: Id)

  datatype TechNode = TechNode(id: Id, unlockItems: seq<Id>)

  datatype GameModeDef = GameModeDef(id: Id, startingLoadout: seq<Id>, startingItems: seq<Id>)

  datatype LootTableDef = LootTableDef(id: Id, entries: seq<Id>)

  datatype SpawnRuleDef = SpawnRuleDef(id: Id, mob: Id, lootTable: Option<Id>)

  datatype Trigger = OnPickup(item: Id) | OnSpellCast(spell: Id) | OnOther

  datatype Condition = HasItem(item: Id) | HasTech(node: Id) | OtherCondition

  datatype Action =
    | GrantItem(item: Id)
    | GiveStatus(status: Id)
    | SpawnMob(mob: Id)
    | SpawnLoot(table: Id)
    | OtherAction

  datatype TriggerDef = TriggerDef(id: Id, on: Trigger, conditions: seq<Condition>, actions: seq<Action>)

  datatype GemDef = GemDef(id: Id, runeSymbol: Option<Id>)

  datatype SetDef = SetDef(id: Id, pieces: seq<Id>)

  datatype RunewordDef = RunewordDef(id: Id, sequence: seq<Id>)

  datatype ContentPack = ContentPack(
    spells: seq<SpellDef>, items: seq<Named>, abilities: seq<AbilityDef>, tech: seq<TechNode>,
    statuses: seq<Named>, materials: seq<Named>, shaders: seq<Named>, mobs: seq<Named>,
    gameModes: seq<GameModeDef>, lootTables: seq<LootTableDef>, spawnRules: seq<SpawnRuleDef>,
    triggers: seq<TriggerDef>, affixes: seq<Named>, gems: seq<GemDef>, itemSets: seq<SetDef>,
    enchants: seq<Named>, runewords: seq<RunewordDef>)

  const EMPTY := ContentPack([], [], [], [], [], [], [], [], [], [], [], [], [], [], [], [], [])

  // ---- references ----

  /** Where a reference stands; a validation error names the place, its owner and the id. */
  datatype Place =
    | AbilitySpell | TechItem | SpellStatus | ModeAbility | ModeItem | LootItem | RuleMob | RuleTable
    | PickupItem | CastSpell | ConditionItem | ConditionTech | GrantedItem | AppliedStatus | SpawnedMob
    | RolledTable | SetPiece | RuneSymbol

  datatype Ref = Ref(place: Place, owner: Id, id: Id)

  function Refs(place: Place, owner: Id, ids: seq<Id>): seq<Ref> {
    seq(|ids|, i requires 0 <= i < |ids| => Ref(place, owner, ids[i]))
  }

  function AbilityRefs(a: AbilityDef): seq<Ref> { Refs(AbilitySpell, a.id, [a.spell]) }

  function TechRefs(n: TechNode): seq<Ref> { Refs(TechItem, n.id, n.unlockItems) }

  function TableRefs(t: LootTableDef): seq<Ref> { Refs(LootItem, t.id, t.entries) }

  function SetRefs(s: SetDef): seq<Ref> { Refs(SetPiece, s.id, s.pieces) }

  function WordRefs(w: RunewordDef): seq<Ref> { Refs(RuneSymbol, w.id, w.sequence) }

  function ModeRefs(m: GameModeDef): seq<Ref> {
    Refs(ModeAbility, m.id, m.startingLoadout) + Refs(ModeItem, m.id, m.startingItems)
  }

  function RuleRefs(r: SpawnRuleDef): seq<Ref> {
    [Ref(RuleMob, r.id, r.mob)] + if r.lootTable.Some? then [Ref(RuleTable, r.id, r.lootTable.value)] else []
  }

  function OnRefs(t: TriggerDef): seq<Ref> {
    match t.on
    case OnPickup(item) => [Ref(PickupItem, t.id, item)]
    case OnSpellCast(spell) => [Ref(CastSpell, t.id, spell)]
    case OnOther => []
  }

  function ConditionRefs(owner: Id, cs: seq<Condition>): seq<Ref> {
    if cs == [] then []
    else
      (match cs[0]
       case HasItem(item) => [Ref(ConditionItem, owner, item)]
       case HasTech(node) => [Ref(ConditionTech, owner, node)]
       case OtherCondition => []) + ConditionRefs(owner, cs[1..])
  }

  function ActionRefs(owner: Id, xs: seq<Action>): seq<Ref> {
    if xs == [] then []
    else
      (match xs[0]
       case GrantItem(item) => [Ref(GrantedItem, owner, item)]
       case GiveStatus(status) => [Ref(AppliedStatus, owner, status)]
       case SpawnMob(mob) => [Ref(SpawnedMob, owner, mob)]
       case SpawnLoot(table) => [Ref(RolledTable, owner, table)]
       case OtherAction => []) + ActionRefs(owner, xs[1..])
  }

  function TriggerRefs(t: TriggerDef): seq<Ref> {
    OnRefs(t) + ConditionRefs(t.id, t.conditions) + ActionRefs(t.id, t.actions)
  }

  /** The ids a reference at this place may name. */
  function Known(pack: ContentPack, place: Place): set<Id> {
    match place
    case AbilitySpell => set s | s in pack.spells :: s.id
    case CastSpell => set s | s in pack.spells :: s.id
    case SpellStatus => StatusIds(pack)
    case AppliedStatus => StatusIds(pack)
    case ModeAbility => set a | a in pack.abilities :: a.id
    case RuleMob => set m | m in pack.mobs :: m.id
    case SpawnedMob => set m | m in pack.mobs :: m.id
    case RuleTable => set t | t in pack.lootTables :: t.id
    case RolledTable => set t | t in pack.lootTables :: t.id
    case ConditionTech => set n | n in pack.tech :: n.id
    case RuneSymbol => set g | g in pack.gems && g.runeSymbol.Some? :: g.runeSymbol.value
    case _ => set i | i in pack.items :: i.id
  }

  function StatusIds(pack: ContentPack): set<Id> {
    set s | s in pack.statuses :: s.id
  }

  predicate Resolves(pack: ContentPack, r: Ref) {
    r.id in Known(pack, r.place)
  }

  /** A spell refers to every status applied at any depth of its tree. */
  ghost predicate MadeBySpell(s: SpellDef, r: Ref) {
    r.place == SpellStatus && r.owner == s.id && s.root.Applies(r.id)
  }

  /** The references a pack makes, place by place. */
  ghost predicate Makes(pack: ContentPack, r: Ref) {
    match r.place
    case AbilitySpell => exists a :: a in pack.abilities && a.id == r.owner && a.spell == r.id
    case TechItem => exists n :: n in pack.tech && n.id == r.owner && r.id in n.unlockItems
    case SpellStatus => exists s :: s in pack.spells && MadeBySpell(s, r)
    case ModeAbility => exists m :: m in pack.gameModes && m.id == r.owner && r.id in m.startingLoadout
    case ModeItem => exists m :: m in pack.gameModes && m.id == r.owner && r.id in m.startingItems
    case LootItem => exists t :: t in pack.lootTables && t.id == r.owner && r.id in t.entries
    case RuleMob => exists u :: u in pack.spawnRules && u.id == r.owner && u.mob == r.id
    case RuleTable => exists u :: u in pack.spawnRules && u.id == r.owner && u.lootTable == Some(r.id)
    case PickupItem => exists t :: t in pack.triggers && t.id == r.owner && t.on == OnPickup(r.id)
    case CastSpell => exists t :: t in pack.triggers && t.id == r.owner && t.on == OnSpellCast(r.id)
    case ConditionItem => exists t :: t in pack.triggers && t.id == r.owner && HasItem(r.id) in t.conditions
    case ConditionTech => exists t :: t in pack.triggers && t.id == r.owner && HasTech(r.id) in t.conditions
    case GrantedItem => exists t :: t in pack.triggers && t.id == r.owner && GrantItem(r.id) in t.actions
    case AppliedStatus => exists t :: t in pack.triggers && t.id == r.owner && GiveStatus(r.id) in t.actions
    case SpawnedMob => exists t :: t in pack.triggers && t.id == r.owner && SpawnMob(r.id) in t.actions
    case RolledTable => exists t :: t in pack.triggers && t.id == r.owner && SpawnLoot(r.id) in t.actions
    case SetPiece => exists s :: s in pack.itemSets && s.id == r.owner && r.id in s.pieces
    case RuneSymbol => exists w :: w in pack.runewords && w.id == r.owner && r.id in w.sequence
  }

  ghost predicate Sound(pack: ContentPack) {
    forall r :: Makes(pack, r) ==> Resolves(pack, r)
  }

  // ---- validation ----

  /** The first reference, in order, that does not resolve. */
  function Missing(pack: ContentPack, refs: seq<Ref>): Option<Ref> {
    if refs == [] then None
    else if !Resolves(pack, refs[0]) then Some(refs[0])
    else Missing(pack, refs[1..])
  }

  function FirstMissing<T>(pack: ContentPack, xs: seq<T>, listed: T -> seq<Ref>): Option<Ref> {
    if xs == [] then None
    else Else(Missing(pack, listed(xs[0])), FirstMissing(pack, xs[1..], listed))
  }

  function Else(found: Option<Ref>, later: Option<Ref>): Option<Ref> {
    if found.Some? then found else later
  }

  function CheckSpells(pack: ContentPack, spells: seq<SpellDef>): Option<Ref> {
    if spells == [] then None
    else
      var found := spells[0].root.CheckStatusRefs(StatusIds(pack));
      if found.Some? then Some(Ref(SpellStatus, spells[0].id, found.value)) else CheckSpells(pack, spells[1..])
  }

  function ValidateBuilds(pack: ContentPack): Option<Ref> {
    Else(FirstMissing(pack, pack.abilities, AbilityRefs),
         Else(FirstMissing(pack, pack.tech, TechRefs),
              Else(CheckSpells(pack, pack.spells), FirstMissing(pack, pack.gameModes, ModeRefs))))
  }

  function ValidateWorld(pack: ContentPack): Option<Ref> {
    Else(FirstMissing(pack, pack.lootTables, TableRefs),
         Else(FirstMissing(pack, pack.spawnRules, RuleRefs), FirstMissing(pack, pack.triggers, TriggerRefs)))
  }

  function ValidateGear(pack: ContentPack): Option<Ref> {
    Else(FirstMissing(pack, pack.itemSets, SetRefs), FirstMissing(pack, pack.runewords, WordRefs))
  }

  /** The first dangling reference in checking order, or none. */
  function Validate(pack: ContentPack): Option<Ref> {
    Else(ValidateBuilds(pack), Else(ValidateWorld(pack), ValidateGear(pack)))
  }

  lemma {:induction false} MissingIff(pack: ContentPack, refs: seq<Ref>)
    ensures Missing(pack, refs).None? <==> forall r :: r in refs ==> Resolves(pack, r)
    ensures Missing(pack, refs).Some? ==>
              Missing(pack, refs).value in refs && !Resolves(pack, Missing(pack, refs).value)
  {
    if refs != [] {
      MissingIff(pack, refs[1..]);
      assert refs == [refs[0]] + refs[1..];
    }
  }

  /** A search over one kind of definition reports one of their dangling references, or there
      is none. */
  lemma {:induction false} FirstMissingIff<T(!new)>(pack: ContentPack, xs: seq<T>, listed: T -> seq<Ref>)
    ensures FirstMissing(pack, xs, listed).None? ==> forall r :: MadeBy(xs, listed, r) ==> Resolves(pack, r)
    ensures FirstMissing(pack, xs, listed).Some? ==>
              var r := FirstMissing(pack, xs, listed).value; MadeBy(xs, listed, r) && !Resolves(pack, r)
  {
    if xs != [] {
      FirstMissingIff(pack, xs[1..], listed);
      MissingIff(pack, listed(xs[0]));
      assert xs == [xs[0]] + xs[1..];
    }
  }

  lemma {:induction false} CheckSpellsIff(pack: ContentPack, spells: seq<SpellDef>)
    ensures CheckSpells(pack, spells).None? ==>
              forall s, r :: s in spells && MadeBySpell(s, r) ==> Resolves(pack, r)
    ensures CheckSpells(pack, spells).Some? ==>
              var r := CheckSpells(pack, spells).value;
              !Resolves(pack, r) && exists s :: s in spells && MadeBySpell(s, r)
  {
    if spells != [] {
      CheckSpellsIff(pack, spells[1..]);
      CheckSpellIff(pack, spells[0]);
      assert spells == [spells[0]] + spells[1..];
    }
  }

  lemma CheckSpellIff(pack: ContentPack, s: SpellDef)
    ensures var found := s.root.CheckStatusRefs(StatusIds(pack));
            && (found.None? ==> forall r :: MadeBySpell(s, r) ==> Resolves(pack, r))
            && (found.Some? ==> MadeBySpell(s, Ref(SpellStatus, s.id, found.value)) && found.value !in StatusIds(pack))
  {
    StatusCheckIff(s.root, StatusIds(pack));
  }

  // ---- the listings the checks walk hold every reference of a definition ----

  ghost predicate MadeBy<T(!new)>(xs: seq<T>, listed: T -> seq<Ref>, r: Ref) {
    exists x :: x in xs && r in listed(x)
  }

  ghost predicate Listed(pack: ContentPack, r: Ref) {
    || MadeBy(pack.abilities, AbilityRefs, r)
    || MadeBy(pack.tech, TechRefs, r)
    || (exists s :: s in pack.spells && MadeBySpell(s, r))
    || MadeBy(pack.gameModes, ModeRefs, r)
    || MadeBy(pack.lootTables, TableRefs, r)
    || MadeBy(pack.spawnRules, RuleRefs, r)
    || MadeBy(pack.triggers, TriggerRefs, r)
    || MadeBy(pack.itemSets, SetRefs, r)
    || MadeBy(pack.runewords, WordRefs, r)
  }

  lemma RefsIff(place: Place, owner: Id, ids: seq<Id>, r: Ref)
    ensures r in Refs(place, owner, ids) <==> r.place == place && r.owner == owner && r.id in ids
  {
    if r.place == place && r.owner == owner && r.id in ids {
      var i :| 0 <= i < |ids| && ids[i] == r.id;
      assert Refs(place, owner, ids)[i] == r;
    }
  }

  lemma {:induction false} ConditionRefsIff(owner: Id, cs: seq<Condition>, r: Ref)
    ensures r in ConditionRefs(owner, cs) <==>
              && r.owner == owner
              && ((r.place == ConditionItem && HasItem(r.id) in cs) ||
                  (r.place == ConditionTech && HasTech(r.id) in cs))
  {
    if cs != [] {
      ConditionRefsIff(owner, cs[1..], r);
      assert cs == [cs[0]] + cs[1..];
    }
  }

  lemma {:induction false} ActionRefsIff(owner: Id, xs: seq<Action>, r: Ref)
    ensures r in ActionRefs(owner, xs) <==>
              && r.owner == owner
              && (|| (r.place == GrantedItem && GrantItem(r.id) in xs)
                  || (r.place == AppliedStatus && GiveStatus(r.id) in xs)
                  || (r.place == SpawnedMob && SpawnMob(r.id) in xs)
                  || (r.place == RolledTable && SpawnLoot(r.id) in xs))
  {
    if xs != [] {
      ActionRefsIff(owner, xs[1..], r);
      assert xs == [xs[0]] + xs[1..];
    }
  }

  lemma TriggerRefsIff(t: TriggerDef, r: Ref)
    ensures r in TriggerRefs(t) <==>
              && r.owner == t.id
              && (|| (r.place == PickupItem && t.on == OnPickup(r.id))
                  || (r.place == CastSpell && t.on == OnSpellCast(r.id))
                  || (r.place == ConditionItem && HasItem(r.id) in t.conditions)
                  || (r.place == ConditionTech && HasTech(r.id) in t.conditions)
                  || (r.place == GrantedItem && GrantItem(r.id) in t.actions)
                  || (r.place == AppliedStatus && GiveStatus(r.id) in t.actions)
                  || (r.place == SpawnedMob && SpawnMob(r.id) in t.actions)
                  || (r.place == RolledTable && SpawnLoot(r.id) in t.actions))
  {
    ConditionRefsIff(t.id, t.conditions, r);
    ActionRefsIff(t.id, t.actions, r);
  }

  lemma BuildsListed(pack: ContentPack, r: Ref)
    ensures MadeBy(pack.abilities, AbilityRefs, r) <==> r.place == AbilitySpell && Makes(pack, r)
    ensures MadeBy(pack.tech, TechRefs, r) <==> r.place == TechItem && Makes(pack, r)
    ensures MadeBy(pack.gameModes, ModeRefs, r) <==> r.place in {ModeAbility, ModeItem} && Makes(pack, r)
  {
    forall a: AbilityDef ensures r in AbilityRefs(a) <==> r == Ref(AbilitySpell, a.id, a.spell) {
      RefsIff(AbilitySpell, a.id, [a.spell], r);
    }
    forall n: TechNode ensures r in TechRefs(n) <==> r.place == TechItem && r.owner == n.id && r.id in n.unlockItems {
      RefsIff(TechItem, n.id, n.unlockItems, r);
    }
    forall m: GameModeDef
      ensures r in ModeRefs(m) <==>
                && r.owner == m.id
                && ((r.place == ModeAbility && r.id in m.startingLoadout) ||
                    (r.place == ModeItem && r.id in m.startingItems))
    {
      RefsIff(ModeAbility, m.id, m.startingLoadout, r);
      RefsIff(ModeItem, m.id, m.startingItems, r);
    }
  }

  lemma WorldListed(pack: ContentPack, r: Ref)
    ensures MadeBy(pack.lootTables, TableRefs, r) <==> r.place == LootItem && Makes(pack, r)
    ensures MadeBy(pack.spawnRules, RuleRefs, r) <==> r.place in {RuleMob, RuleTable} && Makes(pack, r)
  {
    forall t: LootTableDef ensures r in TableRefs(t) <==> r.place == LootItem && r.owner == t.id && r.id in t.entries {
      RefsIff(LootItem, t.id, t.entries, r);
    }
    forall u: SpawnRuleDef
      ensures r in RuleRefs(u) <==>
                && r.owner == u.id
                && ((r.place == RuleMob && r.id == u.mob) || (r.place == RuleTable && u.lootTable == Some(r.id)))
    {
    }
  }

  lemma TriggersListed(pack: ContentPack, r: Ref)
    ensures MadeBy(pack.triggers, TriggerRefs, r) <==>
              && Makes(pack, r)
              && r.place in {PickupItem, CastSpell, ConditionItem, ConditionTech, GrantedItem, AppliedStatus,
                             SpawnedMob, RolledTable}
  {
    forall t: TriggerDef
      ensures r in TriggerRefs(t) <==>
                && r.owner == t.id
                && (|| (r.place == PickupItem && t.on == OnPickup(r.id))
                    || (r.place == CastSpell && t.on == OnSpellCast(r.id))
                    || (r.place == ConditionItem && HasItem(r.id) in t.conditions)
                    || (r.place == ConditionTech && HasTech(r.id) in t.conditions)
                    || (r.place == GrantedItem && GrantItem(r.id) in t.actions)
                    || (r.place == AppliedStatus && GiveStatus(r.id) in t.actions)
                    || (r.place == SpawnedMob && SpawnMob(r.id) in t.actions)
                    || (r.place == RolledTable && SpawnLoot(r.id) in t.actions))
    {
      TriggerRefsIff(t, r);
    }
  }

  lemma GearListed(pack: ContentPack, r: Ref)
    ensures MadeBy(pack.itemSets, SetRefs, r) <==> r.place == SetPiece && Makes(pack, r)
    ensures MadeBy(pack.runewords, WordRefs, r) <==> r.place == RuneSymbol && Makes(pack, r)
  {
    forall s: SetDef ensures r in SetRefs(s) <==> r.place == SetPiece && r.owner == s.id && r.id in s.pieces {
      RefsIff(SetPiece, s.id, s.pieces, r);
    }
    forall w: RunewordDef ensures r in WordRefs(w) <==> r.place == RuneSymbol && r.owner == w.id && r.id in w.sequence {
      RefsIff(RuneSymbol, w.id, w.sequence, r);
    }
  }

  lemma ListedIff(pack: ContentPack, r: Ref)
    ensures Listed(pack, r) <==> Makes(pack, r)
  {
    BuildsListed(pack, r);
    WorldListed(pack, r);
    TriggersListed(pack, r);
    GearListed(pack, r);
  }

  lemma ValidateListed(pack: ContentPack)
    ensures Validate(pack).None? ==> forall r :: Listed(pack, r) ==> Resolves(pack, r)
    ensures Validate(pack).Some? ==> Listed(pack, Validate(pack).value) && !Resolves(pack, Validate(pack).value)
  {
    FirstMissingIff(pack, pack.abilities, AbilityRefs);
    FirstMissingIff(pack, pack.tech, TechRefs);
    CheckSpellsIff(pack, pack.spells);
    FirstMissingIff(pack, pack.gameModes, ModeRefs);
    FirstMissingIff(pack, pack.lootTables, TableRefs);
    FirstMissingIff(pack, pack.spawnRules, RuleRefs);
    FirstMissingIff(pack, pack.triggers, TriggerRefs);
    FirstMissingIff(pack, pack.itemSets, SetRefs);
    FirstMissingIff(pack, pack.runewords, WordRefs);
  }

  /** Validation accepts a pack exactly when every reference it makes resolves; what it reports
      is a reference the pack makes and that does not. */
  lemma ValidateIff(pack: ContentPack)
    ensures Validate(pack).None? <==> Sound(pack)
    ensures Validate(pack).Some? ==> Makes(pack, Validate(pack).value) && !Resolves(pack, Validate(pack).value)
  {
    ValidateListed(pack);
    forall r: Ref ensures Listed(pack, r) <==> Makes(pack, r) { ListedIff(pack, r); }
  }
}
