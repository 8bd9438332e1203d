/** Spell trees (arena-content): the closed set of effect operations, their authoring cost and
    nesting depth, and the status references buried in them. */
module Spell {
  import opened Protocol
  import opened Wrappers

  /** The value a 32-bit sum is left with. */
  function Wrap(x: nat): U32 { x % 0x1_0000_0000 }

  function Add32(x: nat, y: nat): U32 { Wrap(x + y) }

  /** One operation. Ranges, amounts and durations are not read by any traversal, and are
      left out; what an operation refers to and what it runs next are kept. */
  datatype EffectOp =
    | Ray(next: EffectOp)
    | Projectile(onHit: EffectOp)
    | Area(next: EffectOp)
    | Cone(next: EffectOp)
    | Field(tick: EffectOp)
    | Damage
    | Heal
    | Shield
    | ApplyStatus(status: Id)
    | Impulse
    | Vortex
    | Teleport
    | Summon(mob: Id)
    | RestoreMana
    | Mark(tag: string)
    | Sequence(ops: seq<EffectOp>)
    | Parallel(ops: seq<EffectOp>)
    | Delay(next: EffectOp)
    | Repeat(op: EffectOp)
    | Chance(next: EffectOp)
    | IfMarked(tag: string, next: EffectOp, otherwise: EffectOp)
    | Noop
  {
    function Children(): (cs: seq<EffectOp>)
      ensures forall i :: 0 <= i < |cs| ==> cs[i] < this
    {
      match this
      case Ray(next) => [next]
      case Area(next) => [next]
      case Cone(next) => [next]
      case Delay(next) => [next]
      case Chance(next) => [next]
      case Projectile(onHit) => [onHit]
      case Field(tick) => [tick]
      case Repeat(op) => [op]
      case IfMarked(_, next, otherwise) => [next, otherwise]
      case Sequence(ops) => ops
      case Parallel(ops) => ops
      case _ => []
    }

    /** The price of this operation alone. */
    function Here(): nat {
      match this
      case Summon(_) => 5
      case Field(_) => 5
      case Teleport => 3
      case Shield => 3
      case Projectile(_) => 2
      case Area(_) => 2
      case Cone(_) => 2
      case Noop => 0
      case _ => 1
    }

    /** A 32-bit sum: every addition wraps around. */
    function Complexity(): U32
      decreases this, |Children()| + 1
    {
      Add32(Here(), ComplexityFrom(0))
    }

    function ComplexityFrom(i: nat): U32
      requires i <= |Children()|
      decreases this, |Children()| - i
    {
      if i == |Children()| then 0 else Add32(Children()[i].Complexity(), ComplexityFrom(i + 1))
    }

    function MaxDepth(): nat
      decreases this, |Children()| + 1
    {
      1 + DeepestFrom(0)
    }

    function DeepestFrom(i: nat): nat
      requires i <= |Children()|
      decreases this, |Children()| - i
    {
      if i == |Children()| then 0
      else
        var here, rest := Children()[i].MaxDepth(), DeepestFrom(i + 1);
        if here >= rest then here else rest
    }

    /** The first status applied anywhere in the tree that is not among `statuses`. */
    function CheckStatusRefs(statuses: set<Id>): Option<Id>
      decreases this, |Children()| + 1
    {
      if ApplyStatus? && status !in statuses then Some(status) else CheckFrom(0, statuses)
    }

    function CheckFrom(i: nat, statuses: set<Id>): Option<Id>
      requires i <= |Children()|
      decreases this, |Children()| - i
    {
      if i == |Children()| then None
      else
        var found := Children()[i].CheckStatusRefs(statuses);
        if found.Some? then found else CheckFrom(i + 1, statuses)
    }

    /** The operation reached by taking the given child at each level. */
    function At(path: seq<nat>): Option<EffectOp>
      decreases |path|
    {
      if path == [] then Some(this)
      else if path[0] < |Children()| then Children()[path[0]].At(path[1..])
      else None
    }

    // ---- what the traversals mean, kind by kind ----

    /** Every operation of the tree, each before the ones it runs. */
    function Preorder(): seq<EffectOp> {
      match this
      case Ray(next) => [this] + next.Preorder()
      case Projectile(onHit) => [this] + onHit.Preorder()
      case Area(next) => [this] + next.Preorder()
      case Cone(next) => [this] + next.Preorder()
      case Field(tick) => [this] + tick.Preorder()
      case Delay(next) => [this] + next.Preorder()
      case Repeat(op) => [this] + op.Preorder()
      case Chance(next) => [this] + next.Preorder()
      case IfMarked(_, next, otherwise) => [this] + (next.Preorder() + otherwise.Preorder())
      case Sequence(ops) => [this] + Listed(ops)
      case Parallel(ops) => [this] + Listed(ops)
      case Damage | Heal | Shield | Impulse | Vortex | Teleport | RestoreMana | Noop => [this]
      case ApplyStatus(_) | Summon(_) | Mark(_) => [this]
    }

    /** What the tree costs to author. */
    function Price(): nat {
      match this
      case Ray(next) => 1 + next.Price()
      case Projectile(onHit) => 2 + onHit.Price()
      case Area(next) => 2 + next.Price()
      case Cone(next) => 2 + next.Price()
      case Field(tick) => 5 + tick.Price()
      case Delay(next) => 1 + next.Price()
      case Repeat(op) => 1 + op.Price()
      case Chance(next) => 1 + next.Price()
      case IfMarked(_, next, otherwise) => 1 + next.Price() + otherwise.Price()
      case Sequence(ops) => 1 + Prices(ops)
      case Parallel(ops) => 1 + Prices(ops)
      case Summon(_) => 5
      case Shield | Teleport => 3
      case Damage | Heal | Impulse | Vortex | RestoreMana => 1
      case ApplyStatus(_) | Mark(_) => 1
      case Noop => 0
    }

    /** How deep the tree is nested. */
    function Nesting(): nat {
      match this
      case Ray(next) => 1 + next.Nesting()
      case Projectile(onHit) => 1 + onHit.Nesting()
      case Area(next) => 1 + next.Nesting()
      case Cone(next) => 1 + next.Nesting()
      case Field(tick) => 1 + tick.Nesting()
      case Delay(next) => 1 + next.Nesting()
      case Repeat(op) => 1 + op.Nesting()
      case Chance(next) => 1 + next.Nesting()
      case IfMarked(_, next, otherwise) => 1 + Max(next.Nesting(), otherwise.Nesting())
      case Sequence(ops) => 1 + Deepest(ops)
      case Parallel(ops) => 1 + Deepest(ops)
      case Damage | Heal | Shield | Impulse | Vortex | Teleport | RestoreMana | Noop => 1
      case ApplyStatus(_) | Summon(_) | Mark(_) => 1
    }

    /** Casting the tree may apply status `s`. */
    predicate Applies(s: Id) {
      match this
      case ApplyStatus(status) => status == s
      case Ray(next) => next.Applies(s)
      case Projectile(onHit) => onHit.Applies(s)
      case Area(next) => next.Applies(s)
      case Cone(next) => next.Applies(s)
      case Field(tick) => tick.Applies(s)
      case Delay(next) => next.Applies(s)
      case Repeat(op) => op.Applies(s)
      case Chance(next) => next.Applies(s)
      case IfMarked(_, next, otherwise) => next.Applies(s) || otherwise.Applies(s)
      case Sequence(ops) => exists i :: 0 <= i < |ops| && ops[i].Applies(s)
      case Parallel(ops) => exists i :: 0 <= i < |ops| && ops[i].Applies(s)
      case Damage | Heal | Shield | Impulse | Vortex | Teleport | RestoreMana | Noop => false
      case Summon(_) | Mark(_) => false
    }
  }

  function Listed(ops: seq<EffectOp>): seq<EffectOp> {
    if ops == [] then [] else ops[0].Preorder() + Listed(ops[1..])
  }

  function Prices(ops: seq<EffectOp>): nat {
    if ops == [] then 0 else ops[0].Price() + Prices(ops[1..])
  }

  function Deepest(ops: seq<EffectOp>): nat {
    if ops == [] then 0 else Max(ops[0].Nesting(), Deepest(ops[1..]))
  }

  function Max(x: nat, y: nat): nat { if x >= y then x else y }

  datatype SpellDef = SpellDef(id: Id, manaCost: real, root: EffectOp) {
    predicate Fits(budget: Budget) {
      && root.Complexity() <= budget.maxComplexity
      && root.MaxDepth() <= budget.maxDepth
      && manaCost >= budget.minManaFloor
    }
  }

  datatype Budget = Budget(maxComplexity: U32, maxDepth: U32, minManaFloor: real)

  function TotalPrice(ops: seq<EffectOp>): nat {
    if ops == [] then 0 else ops[0].Here() + TotalPrice(ops[1..])
  }

  function Working(ops: seq<EffectOp>): nat {
    if ops == [] then 0 else (if ops[0].Noop? then 0 else 1) + Working(ops[1..])
  }

  function FirstMissing(ops: seq<EffectOp>, statuses: set<Id>): Option<Id> {
    if ops == [] then None
    else if ops[0].ApplyStatus? && ops[0].status !in statuses then Some(ops[0].status)
    else FirstMissing(ops[1..], statuses)
  }

  lemma {:induction false} PriceOfSum(xs: seq<EffectOp>, ys: seq<EffectOp>)
    ensures TotalPrice(xs + ys) == TotalPrice(xs) + TotalPrice(ys)
  {
    if xs == [] {
      assert xs + ys == ys;
    } else {
      PriceOfSum(xs[1..], ys);
      assert (xs + ys)[1..] == xs[1..] + ys;
    }
  }

  lemma {:induction false} MissingOfSum(xs: seq<EffectOp>, ys: seq<EffectOp>, statuses: set<Id>)
    ensures FirstMissing(xs + ys, statuses) ==
            if FirstMissing(xs, statuses).Some? then FirstMissing(xs, statuses) else FirstMissing(ys, statuses)
  {
    if xs == [] {
      assert xs + ys == ys;
    } else {
      MissingOfSum(xs[1..], ys, statuses);
      assert (xs + ys)[1..] == xs[1..] + ys;
    }
  }

  lemma WholeWraps(x: nat, k: nat)
    ensures Wrap(x + k * 0x1_0000_0000) == Wrap(x)
  {
  }

  lemma WrapsThrough(x: nat, y: nat)
    ensures Add32(Wrap(x), Wrap(y)) == Wrap(x + y)
  {
    var j, k := x / 0x1_0000_0000, y / 0x1_0000_0000;
    assert x + y == (Wrap(x) + Wrap(y)) + (j + k) * 0x1_0000_0000;
    WholeWraps(Wrap(x) + Wrap(y), j + k);
  }

  lemma WrapsIff(x: nat)
    ensures Wrap(x) <= x
    ensures Wrap(x) == x <==> x < 0x1_0000_0000
  {
  }

  /** The children of an operation are what its kind runs. */
  lemma ChildrenAreRun(op: EffectOp)
    ensures op.Preorder() == [op] + Listed(op.Children())
    ensures op.Price() == op.Here() + Prices(op.Children())
    ensures op.Nesting() == 1 + Deepest(op.Children())
  {
    var cs := op.Children();
    if op.IfMarked? {
      Two(cs[0], cs[1]);
    } else if |cs| == 1 {
      One(cs[0]);
    }
  }

  lemma ChildrenApply(op: EffectOp, s: Id)
    ensures op.Applies(s) <==>
            op == ApplyStatus(s) || exists i :: 0 <= i < |op.Children()| && op.Children()[i].Applies(s)
  {
    var cs := op.Children();
    if op.IfMarked? {
      assert cs[0].Applies(s) || cs[1].Applies(s) <==> op.Applies(s);
    } else if |cs| == 1 {
      assert cs[0].Applies(s) ==> op.Applies(s);
    }
  }

  lemma One(x: EffectOp)
    ensures Listed([x]) == x.Preorder() && Prices([x]) == x.Price() && Deepest([x]) == x.Nesting()
  {
    assert [x][1..] == [];
    assert x.Preorder() + [] == x.Preorder();
  }

  lemma Two(x: EffectOp, y: EffectOp)
    ensures Listed([x, y]) == x.Preorder() + y.Preorder() && Prices([x, y]) == x.Price() + y.Price()
    ensures Deepest([x, y]) == Max(x.Nesting(), y.Nesting())
  {
    assert [x, y][1..] == [y];
    One(y);
  }

  /** Adding what wrapped sums have left wraps to what their sum leaves. */
  lemma WrapsTogether(x: nat, y: nat, p: nat, q: nat, total: nat)
    requires x == Wrap(p) && y == Wrap(q) && total == p + q
    ensures Add32(x, y) == Wrap(total)
  {
    WrapsThrough(p, q);
  }

  /** The operations still to come from child `i` on. */
  lemma ChildrenFrom(op: EffectOp, i: nat)
    requires i < |op.Children()|
    ensures var cs := op.Children(); cs[i..] != [] && cs[i..][0] == cs[i] && cs[i..][1..] == cs[i+1..]
  {
  }

  /** Complexity is the price of the tree, modulo 2^32. */
  lemma {:induction false} ComplexityIsPrice(op: EffectOp)
    ensures op.Complexity() == Wrap(op.Price())
    decreases op, |op.Children()| + 1
  {
    ComplexityIsPriceFrom(op, 0);
    ChildrenAreRun(op);
    WrapsIff(op.Here());
    assert op.Children()[0..] == op.Children();
    WrapsTogether(op.Here(), op.ComplexityFrom(0), op.Here(), Prices(op.Children()), op.Price());
  }

  lemma {:induction false} ComplexityIsPriceFrom(op: EffectOp, i: nat)
    requires i <= |op.Children()|
    ensures op.ComplexityFrom(i) == Wrap(Prices(op.Children()[i..]))
    decreases op, |op.Children()| - i
  {
    if i < |op.Children()| {
      var c := op.Children()[i];
      ComplexityIsPrice(c);
      ComplexityIsPriceFrom(op, i + 1);
      ChildrenFrom(op, i);
      WrapsTogether(c.Complexity(), op.ComplexityFrom(i + 1), c.Price(), Prices(op.Children()[i+1..]),
                    Prices(op.Children()[i..]));
    }
  }

  /** The price counts every operation of the tree once, at its own price. */
  lemma {:induction false} PriceCountsEveryOp(op: EffectOp)
    ensures op.Price() == TotalPrice(op.Preorder())
    decreases op, |op.Children()| + 1
  {
    PriceCountsFrom(op, 0);
    ChildrenAreRun(op);
    assert op.Children()[0..] == op.Children();
    PriceOfSum([op], Listed(op.Children()));
    assert [op][1..] == [];
  }

  lemma {:induction false} PriceCountsFrom(op: EffectOp, i: nat)
    requires i <= |op.Children()|
    ensures Prices(op.Children()[i..]) == TotalPrice(Listed(op.Children()[i..]))
    decreases op, |op.Children()| - i
  {
    if i < |op.Children()| {
      PriceCountsEveryOp(op.Children()[i]);
      PriceCountsFrom(op, i + 1);
      ChildrenFrom(op, i);
      PriceOfSum(op.Children()[i].Preorder(), Listed(op.Children()[i+1..]));
    }
  }

  /** Complexity is the price of every operation in the tree, each counted once, modulo 2^32. */
  lemma ComplexityCountsEveryOp(op: EffectOp)
    ensures op.Complexity() == Wrap(op.Price()) && op.Price() == TotalPrice(op.Preorder())
  {
    ComplexityIsPrice(op);
    PriceCountsEveryOp(op);
  }

  /** The depth computed is the nesting of the tree. */
  lemma {:induction false} DepthIsNesting(op: EffectOp)
    ensures op.MaxDepth() == op.Nesting()
    decreases op, |op.Children()| + 1
  {
    DepthIsNestingFrom(op, 0);
    ChildrenAreRun(op);
    assert op.Children()[0..] == op.Children();
  }

  lemma {:induction false} DepthIsNestingFrom(op: EffectOp, i: nat)
    requires i <= |op.Children()|
    ensures op.DeepestFrom(i) == Deepest(op.Children()[i..])
    decreases op, |op.Children()| - i
  {
    if i < |op.Children()| {
      DepthIsNesting(op.Children()[i]);
      DepthIsNestingFrom(op, i + 1);
      ChildrenFrom(op, i);
    }
  }

  lemma {:induction false} PriceBounds(ops: seq<EffectOp>)
    ensures Working(ops) <= TotalPrice(ops) <= 5 * Working(ops)
  {
    if ops != [] {
      PriceBounds(ops[1..]);
    }
  }

  /** The recursive check reports the first missing status in running order. */
  lemma {:induction false} CheckIsFirstMissing(op: EffectOp, statuses: set<Id>)
    ensures op.CheckStatusRefs(statuses) == FirstMissing(op.Preorder(), statuses)
    decreases op, |op.Children()| + 1
  {
    CheckFromIsFirstMissing(op, 0, statuses);
    ChildrenAreRun(op);
    assert op.Children()[0..] == op.Children();
    MissingOfSum([op], Listed(op.Children()), statuses);
    assert [op][1..] == [];
  }

  lemma {:induction false} CheckFromIsFirstMissing(op: EffectOp, i: nat, statuses: set<Id>)
    requires i <= |op.Children()|
    ensures op.CheckFrom(i, statuses) == FirstMissing(Listed(op.Children()[i..]), statuses)
    decreases op, |op.Children()| - i
  {
    if i < |op.Children()| {
      var c := op.Children()[i];
      CheckIsFirstMissing(c, statuses);
      CheckFromIsFirstMissing(op, i + 1, statuses);
      ChildrenFrom(op, i);
      MissingOfSum(c.Preorder(), Listed(op.Children()[i+1..]), statuses);
    }
  }

  lemma {:induction false} NoneMissing(ops: seq<EffectOp>, statuses: set<Id>)
    ensures FirstMissing(ops, statuses).None? <==>
              forall op :: op in ops && op.ApplyStatus? ==> op.status in statuses
    ensures FirstMissing(ops, statuses).Some? ==>
              FirstMissing(ops, statuses).value !in statuses && ApplyStatus(FirstMissing(ops, statuses).value) in ops
  {
    if ops != [] {
      NoneMissing(ops[1..], statuses);
      assert ops == [ops[0]] + ops[1..];
    }
  }

  lemma {:induction false} AppliesIffListed(op: EffectOp, s: Id)
    ensures op.Applies(s) <==> ApplyStatus(s) in op.Preorder()
    decreases op, |op.Children()| + 1
  {
    AppliesIffListedFrom(op, 0, s);
    ChildrenAreRun(op);
    ChildrenApply(op, s);
    assert op.Children()[0..] == op.Children();
  }

  lemma {:induction false} AppliesIffListedFrom(op: EffectOp, i: nat, s: Id)
    requires i <= |op.Children()|
    ensures (exists j :: i <= j < |op.Children()| && op.Children()[j].Applies(s)) <==>
            ApplyStatus(s) in Listed(op.Children()[i..])
    decreases op, |op.Children()| - i
  {
    if i < |op.Children()| {
      AppliesIffListed(op.Children()[i], s);
      AppliesIffListedFrom(op, i + 1, s);
      ChildrenFrom(op, i);
    }
  }

  /** A spell passes the status check exactly when every status it may apply, at any depth and down
      any branch, is known; a reported status is one the tree applies and nobody defines. */
  lemma StatusCheckIff(op: EffectOp, statuses: set<Id>)
    ensures op.CheckStatusRefs(statuses).None? <==> forall s :: op.Applies(s) ==> s in statuses
    ensures op.CheckStatusRefs(statuses).Some? ==>
              op.Applies(op.CheckStatusRefs(statuses).value) && op.CheckStatusRefs(statuses).value !in statuses
  {
    CheckIsFirstMissing(op, statuses);
    NoneMissing(op.Preorder(), statuses);
    forall s ensures op.Applies(s) <==> ApplyStatus(s) in op.Preorder() { AppliesIffListed(op, s); }
  }

  lemma {:induction false} PathsAreShallow(op: EffectOp, path: seq<nat>)
    requires op.At(path).Some?
    ensures |path| < op.MaxDepth()
    decreases |path|
  {
    if path != [] {
      PathsAreShallow(op.Children()[path[0]], path[1..]);
      NoDeeper(op, 0, path[0]);
    }
  }

  lemma {:induction false} NoDeeper(op: EffectOp, i: nat, j: nat)
    requires i <= j < |op.Children()|
    ensures op.Children()[j].MaxDepth() <= op.DeepestFrom(i)
    decreases j - i
  {
    if i < j {
      NoDeeper(op, i + 1, j);
    }
  }

  lemma {:induction false} DeepestPath(op: EffectOp) returns (path: seq<nat>)
    ensures op.At(path).Some? && |path| + 1 == op.MaxDepth()
    decreases op, |op.Children()| + 1
  {
    if op.Children() == [] {
      path := [];
    } else {
      var j, rest := DeepestPathFrom(op, 0);
      path := [j] + rest;
      assert path[1..] == rest;
    }
  }

  lemma {:induction false} DeepestPathFrom(op: EffectOp, i: nat) returns (j: nat, path: seq<nat>)
    requires i < |op.Children()|
    ensures j < |op.Children()| && op.Children()[j].At(path).Some? && |path| + 1 == op.DeepestFrom(i)
    decreases op, |op.Children()| - i
  {
    j := i;
    path := DeepestPath(op.Children()[i]);
    assert op.Children()[i].MaxDepth() > 0 && op.DeepestFrom(|op.Children()|) == 0;
    if op.DeepestFrom(i) != op.Children()[i].MaxDepth() {
      j, path := DeepestPathFrom(op, i + 1);
    }
  }

  /** Depth is the length of the longest path: the tree is at most `d` deep exactly when no
      path of `d` or more steps leads anywhere. */
  lemma DepthIff(op: EffectOp, d: nat)
    ensures op.MaxDepth() <= d <==> forall path :: op.At(path).Some? ==> |path| < d
  {
    forall path | op.At(path).Some?
      ensures |path| < op.MaxDepth()
    {
      PathsAreShallow(op, path);
    }
    var deepest := DeepestPath(op);
  }

  /** No budget that admits a spell is below its price, exactly if the price fits in 32 bits - or
      the spell is too deep for any budget. */
  lemma BudgetBoundsPriceIff(spell: SpellDef)
    ensures (forall budget: Budget :: spell.Fits(budget) ==> spell.root.Price() <= budget.maxComplexity)
       <==> spell.root.Price() < 0x1_0000_0000 || spell.root.Nesting() >= 0x1_0000_0000
  {
    ComplexityCountsEveryOp(spell.root);
    DepthIsNesting(spell.root);
    WrapsIff(spell.root.Price());
    if spell.root.Price() >= 0x1_0000_0000 && spell.root.Nesting() < 0x1_0000_0000 {
      assert spell.Fits(Budget(spell.root.Complexity(), spell.root.Nesting(), spell.manaCost));
    }
  }

  /** What the authoring budget buys: a fitting spell runs no more working operations than the
      complexity allowance, and no chain of operations reaches the depth allowance. */
  lemma FittingSpellsAreSmall(spell: SpellDef, budget: Budget)
    requires spell.Fits(budget)
    ensures spell.root.Price() < 0x1_0000_0000 ==> Working(spell.root.Preorder()) <= budget.maxComplexity
    ensures spell.root.Nesting() <= budget.maxDepth
    ensures forall path :: spell.root.At(path).Some? ==> |path| < budget.maxDepth
  {
    ComplexityCountsEveryOp(spell.root);
    DepthIsNesting(spell.root);
    WrapsIff(spell.root.Price());
    PriceBounds(spell.root.Preorder());
    DepthIff(spell.root, budget.maxDepth);
  }

  /** `n` strikes in a row. */
  function Strikes(n: nat): EffectOp { Sequence(seq(n, _ => Damage)) }

  lemma {:induction false} StrikesInARow(ops: seq<EffectOp>)
    requires forall j :: 0 <= j < |ops| ==> ops[j] == Damage
    ensures Prices(ops) == Working(Listed(ops)) == |ops| && Deepest(ops) <= 1
  {
    if ops != [] {
      StrikesInARow(ops[1..]);
      assert ([Damage] + Listed(ops[1..]))[1..] == Listed(ops[1..]);
    }
  }

  lemma StrikesCost(n: nat)
    ensures Strikes(n).Price() == Working(Strikes(n).Preorder()) == n + 1
    ensures Strikes(n).Nesting() <= 2
  {
    var op := Strikes(n);
    StrikesInARow(op.ops);
    assert ([op] + Listed(op.ops))[1..] == Listed(op.ops);
  }

  /** The price wraps: 2^32 strikes in a row cost one, and fit every budget for a single strike in a
      row. */
  lemma HugeSpellFits(spell: SpellDef, budget: Budget, n: nat)
    requires n == 0x1_0000_0000 && spell.root == Strikes(n)
    requires budget.maxComplexity >= 1 && budget.maxDepth >= 2 && spell.manaCost >= budget.minManaFloor
    ensures spell.Fits(budget) && Working(spell.root.Preorder()) == n + 1
  {
    StrikesCost(n);
    ComplexityCountsEveryOp(spell.root);
    DepthIsNesting(spell.root);
    WholeWraps(1, 1);
  }

  /** And a tree with few enough operations, none deep, always fits, whatever they are. */
  lemma SmallSpellsFit(spell: SpellDef, budget: Budget)
    requires 5 * Working(spell.root.Preorder()) <= budget.maxComplexity && spell.manaCost >= budget.minManaFloor
    requires spell.root.Nesting() <= budget.maxDepth
    ensures spell.Fits(budget)
  {
    ComplexityCountsEveryOp(spell.root);
    DepthIsNesting(spell.root);
    WrapsIff(spell.root.Price());
    PriceBounds(spell.root.Preorder());
    DepthIff(spell.root, budget.maxDepth);
  }
}
