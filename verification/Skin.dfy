/** Skinning (arena-assets): each vertex is bound to at most four bones, the nearest ones, with
    inverse-square weights that sum to one. Weights are reals; the names of bones are 16 bits wide
    and can wrap. */
module Skin {
  import opened Geometry

  const MAX_INFLUENCES := 4
  const NAMES := 0x1_0000

  datatype Slot = Slot(name: nat, weight: real)

  function WeightAt(v: Vec3, bone: Vec3): real
    ensures WeightAt(v, bone) > 0.0
  {
    LengthNonNegative(v.Sub(bone));
    1.0 / (v.Sub(bone).LengthSquared() + 0.001)
  }

  /** A bone weighs more exactly when it is nearer. */
  lemma NearerIsHeavier(v: Vec3, a: Vec3, b: Vec3)
    ensures WeightAt(v, a) >= WeightAt(v, b) <==> v.Sub(a).LengthSquared() <= v.Sub(b).LengthSquared()
  {
    LengthNonNegative(v.Sub(a));
    LengthNonNegative(v.Sub(b));
    Reciprocal(v.Sub(a).LengthSquared() + 0.001, v.Sub(b).LengthSquared() + 0.001);
  }

  lemma Reciprocal(x: real, y: real)
    requires x > 0.0 && y > 0.0
    ensures 1.0 / x >= 1.0 / y <==> x <= y
  {
    var p, q := 1.0 / x, 1.0 / y;
    assert p * x == 1.0 && q * y == 1.0;
    if x <= y {
      Larger(p, q, x, y);
    } else {
      StrictlyLarger(q, p, y, x);
    }
  }

  lemma Larger(p: real, q: real, x: real, y: real)
    requires p > 0.0 && q > 0.0 && 0.0 < x <= y && p * x == 1.0 && q * y == 1.0
    ensures p >= q
  {
    assert p < q ==> p * x < q * x;
    assert q * x <= q * y;
  }

  lemma StrictlyLarger(p: real, q: real, x: real, y: real)
    requires p > 0.0 && q > 0.0 && 0.0 < x < y && p * x == 1.0 && q * y == 1.0
    ensures p > q
  {
    assert p <= q ==> p * x <= q * x;
    assert q * x < q * y;
  }

  /** The row holds four bones - all of them, with empty slots, when there are fewer - and no
      bone left out is heavier than one kept. `owner` says which bone each slot holds. */
  ghost predicate TopFour(row: seq<Slot>, owner: seq<int>, weights: seq<real>) {
    && |row| == |owner| == MAX_INFLUENCES
    && (forall k :: 0 <= k < MAX_INFLUENCES ==> Holds(row[k], owner[k], weights))
    && (forall j, k :: 0 <= j < k < MAX_INFLUENCES && owner[j] >= 0 ==> owner[j] != owner[k])
    && (forall b, k :: 0 <= b < |weights| && b !in owner && 0 <= k < MAX_INFLUENCES ==> weights[b] <= row[k].weight)
  }

  ghost predicate Holds(slot: Slot, owner: int, weights: seq<real>) {
    if owner < 0 then slot == Slot(0, 0.0) else owner < |weights| && slot == Slot(owner % NAMES, weights[owner])
  }

  ghost predicate FourHeaviest(row: seq<Slot>, weights: seq<real>) {
    |row| == MAX_INFLUENCES && exists owner :: TopFour(row, owner, weights)
  }

  /** The first of the lightest slots. */
  method Weakest(best: array<Slot>) returns (weakest: nat)
    requires best.Length == MAX_INFLUENCES
    ensures weakest < MAX_INFLUENCES
    ensures forall j :: 0 <= j < MAX_INFLUENCES ==> best[weakest].weight <= best[j].weight
  {
    weakest := 0;
    var k := 1;
    while k < MAX_INFLUENCES
      invariant weakest < k <= MAX_INFLUENCES
      invariant forall j :: 0 <= j < k ==> best[weakest].weight <= best[j].weight
    {
      if best[k].weight < best[weakest].weight {
        weakest := k;
      }
      k := k + 1;
    }
  }

  lemma StillOwned(owner: seq<int>, k: nat, x: int, b: int)
    requires k < |owner|
    ensures b in owner && owner[k] != b ==> b in owner[k := x]
  {
    if b in owner && owner[k] != b {
      var i :| 0 <= i < |owner| && owner[i] == b;
      assert owner[k := x][i] == b;
    }
  }

  lemma Replaced(row: seq<Slot>, owner: seq<int>, weights: seq<real>, w: real, k: nat)
    requires TopFour(row, owner, weights) && w > 0.0 && k < MAX_INFLUENCES && w > row[k].weight
    requires forall j :: 0 <= j < MAX_INFLUENCES ==> row[k].weight <= row[j].weight
    ensures TopFour(row[k := Slot(|weights| % NAMES, w)], owner[k := |weights|], weights + [w])
  {
    var row', owner', weights' := row[k := Slot(|weights| % NAMES, w)], owner[k := |weights|], weights + [w];
    forall j | 0 <= j < MAX_INFLUENCES
      ensures Holds(row'[j], owner'[j], weights')
    {
      assert Holds(row[j], owner[j], weights);
    }
    forall i, j | 0 <= i < j < MAX_INFLUENCES && owner'[i] >= 0 ensures owner'[i] != owner'[j] {
      assert Holds(row[i], owner[i], weights) && Holds(row[j], owner[j], weights);
    }
    forall b, j | 0 <= b < |weights'| && b !in owner' && 0 <= j < MAX_INFLUENCES ensures weights'[b] <= row'[j].weight {
      StillOwned(owner, k, |weights|, b);
      assert owner'[k] == |weights|;
      assert Holds(row[k], owner[k], weights);
    }
  }

  lemma Passed(row: seq<Slot>, owner: seq<int>, weights: seq<real>, w: real)
    requires TopFour(row, owner, weights) && forall j :: 0 <= j < MAX_INFLUENCES ==> w <= row[j].weight
    ensures TopFour(row, owner, weights + [w])
  {
    forall j | 0 <= j < MAX_INFLUENCES
      ensures Holds(row[j], owner[j], weights + [w])
    {
      assert Holds(row[j], owner[j], weights);
    }
  }

  /** A bone takes the weakest slot if it outweighs it. */
  method Offer(best: array<Slot>, ghost owner: seq<int>, ghost weights: seq<real>, b: nat, w: real)
    returns (ghost owner': seq<int>)
    requires best.Length == MAX_INFLUENCES && TopFour(best[..], owner, weights) && b == |weights| && w > 0.0
    modifies best
    ensures TopFour(best[..], owner', weights + [w])
  {
    owner' := owner;
    var weakest := Weakest(best);
    if w > best[weakest].weight {
      Replaced(best[..], owner, weights, w, weakest);
      best[weakest] := Slot(b % NAMES, w);
      owner' := owner[weakest := b];
    } else {
      Passed(best[..], owner, weights, w);
    }
  }

  /** Replacing the weakest slot whenever a bone outweighs it leaves the four heaviest. */
  method BestFour(weights: seq<real>) returns (row: seq<Slot>)
    requires forall b :: 0 <= b < |weights| ==> weights[b] > 0.0
    ensures FourHeaviest(row, weights)
  {
    var best := new Slot[4](_ => Slot(0, 0.0));
    ghost var owner := [-1, -1, -1, -1];
    var b := 0;
    while b < |weights|
      invariant b <= |weights| && TopFour(best[..], owner, weights[..b])
    {
      var w := weights[b];
      assert weights[..b + 1] == weights[..b] + [w];
      owner := Offer(best, owner, weights[..b], b, w);
      b := b + 1;
    }
    assert weights[..b] == weights;
    row := best[..];
    assert TopFour(row, owner, weights);
  }

  // ---- one vertex ----

  function Weights(v: Vec3, bones: seq<Vec3>): seq<real> {
    seq(|bones|, i requires 0 <= i < |bones| => WeightAt(v, bones[i]))
  }

  function RowSum(row: seq<Slot>): real
    requires |row| == MAX_INFLUENCES
  {
    row[0].weight + row[1].weight + row[2].weight + row[3].weight
  }

  function Normalised(row: seq<Slot>): seq<real>
    requires |row| == MAX_INFLUENCES
  {
    var inv := if RowSum(row) > 0.0 then 1.0 / RowSum(row) else 0.0;
    [Times(row[0].weight, inv), Times(row[1].weight, inv), Times(row[2].weight, inv), Times(row[3].weight, inv)]
  }

  function Names(row: seq<Slot>): seq<nat>
    requires |row| == MAX_INFLUENCES
  {
    [row[0].name, row[1].name, row[2].name, row[3].name]
  }

  /** What skinning promises of one vertex: the bones of some top-four row, by name, with their
      weights scaled to sum to one. */
  ghost predicate Bound(v: Vec3, bones: seq<Vec3>, joints: seq<nat>, weights: seq<real>) {
    exists row :: FourHeaviest(row, Weights(v, bones)) && joints == Names(row) && weights == Normalised(row)
  }

  lemma BoundBy(v: Vec3, bones: seq<Vec3>, row: seq<Slot>)
    requires FourHeaviest(row, Weights(v, bones))
    ensures Bound(v, bones, Names(row), Normalised(row))
  {
  }

  ghost predicate AllBound(positions: seq<Vec3>, bones: seq<Vec3>, joints: seq<seq<nat>>, weights: seq<seq<real>>) {
    |joints| == |weights| <= |positions| && forall i :: 0 <= i < |joints| ==>
      Bound(positions[i], bones, joints[i], weights[i])
  }

  lemma OneMoreBound(positions: seq<Vec3>, bones: seq<Vec3>, joints: seq<seq<nat>>, weights: seq<seq<real>>,
                     names: seq<nat>, scaled: seq<real>)
    requires AllBound(positions, bones, joints, weights) && |joints| < |positions|
    requires Bound(positions[|joints|], bones, names, scaled)
    ensures AllBound(positions, bones, joints + [names], weights + [scaled])
  {
  }

  method SkinMesh(positions: seq<Vec3>, bones: seq<Vec3>) returns (joints: seq<seq<nat>>, weights: seq<seq<real>>)
    ensures |joints| == if bones == [] then 0 else |positions|
    ensures AllBound(positions, bones, joints, weights)
  {
    joints, weights := [], [];
    if bones == [] || positions == [] {
      return;
    }
    var i := 0;
    while i < |positions|
      invariant i == |joints| <= |positions| && AllBound(positions, bones, joints, weights)
    {
      var row := BestFour(Weights(positions[i], bones));
      BoundBy(positions[i], bones, row);
      OneMoreBound(positions, bones, joints, weights, Names(row), Normalised(row));
      joints := joints + [Names(row)];
      weights := weights + [Normalised(row)];
      i := i + 1;
    }
  }

  // ---- what the rows are worth ----

  /** The weights of a bound vertex are a partition of unity. */
  lemma WeightsSumToOne(v: Vec3, bones: seq<Vec3>, joints: seq<nat>, weights: seq<real>)
    requires bones != [] && Bound(v, bones, joints, weights)
    ensures |weights| == MAX_INFLUENCES && weights[0] + weights[1] + weights[2] + weights[3] == 1.0
    ensures forall k :: 0 <= k < MAX_INFLUENCES ==> 0.0 <= weights[k] <= 1.0
  {
    var row: seq<Slot> :|
      FourHeaviest(row, Weights(v, bones)) && joints == Names(row) && weights == Normalised(row);
    var owner: seq<int> :| TopFour(row, owner, Weights(v, bones));
    RowIsPositive(row, owner, Weights(v, bones));
    NormalisedSums(row);
  }

  lemma NormalisedSums(row: seq<Slot>)
    requires |row| == MAX_INFLUENCES && RowSum(row) > 0.0
    requires forall k :: 0 <= k < MAX_INFLUENCES ==> row[k].weight >= 0.0
    ensures var n := Normalised(row);
            n[0] + n[1] + n[2] + n[3] == 1.0 && forall k :: 0 <= k < MAX_INFLUENCES ==> 0.0 <= n[k] <= 1.0
  {
    Scaled(row[0].weight, row[1].weight, row[2].weight, row[3].weight, RowSum(row));
  }

  lemma RowIsPositive(row: seq<Slot>, owner: seq<int>, weights: seq<real>)
    requires TopFour(row, owner, weights) && weights != [] && forall b :: 0 <= b < |weights| ==> weights[b] > 0.0
    ensures forall k :: 0 <= k < MAX_INFLUENCES ==> row[k].weight >= 0.0
    ensures RowSum(row) > 0.0
  {
    assert forall k :: 0 <= k < MAX_INFLUENCES ==> Holds(row[k], owner[k], weights);
    if 0 in owner {
      var k :| 0 <= k < MAX_INFLUENCES && owner[k] == 0;
      assert row[k].weight > 0.0;
    }
  }

  lemma Scaled(a: real, b: real, c: real, d: real, sum: real)
    requires a >= 0.0 && b >= 0.0 && c >= 0.0 && d >= 0.0 && sum == a + b + c + d > 0.0
    ensures var inv := 1.0 / sum;
            Times(a, inv) + Times(b, inv) + Times(c, inv) + Times(d, inv) == 1.0 &&
            Times(a, inv) >= 0.0 && Times(b, inv) >= 0.0 && Times(c, inv) >= 0.0 && Times(d, inv) >= 0.0
  {
    var inv := 1.0 / sum;
    assert sum * inv == 1.0 && inv > 0.0;
    assert (a + b + c + d) * inv == a * inv + b * inv + c * inv + d * inv;
  }

  /** A bone's softened squared distance from the vertex. */
  function Spread(v: Vec3, bone: Vec3): real { v.Sub(bone).LengthSquared() + 0.001 }

  lemma WeightTimesSpread(v: Vec3, bone: Vec3)
    ensures Times(WeightAt(v, bone), Spread(v, bone)) == 1.0
  {
    LengthNonNegative(v.Sub(bone));
  }

  lemma SharedOut(w: real, d: real, inv: real)
    requires Times(w, d) == 1.0
    ensures Times(Times(w, inv), d) == inv
  {
    assert w * inv * d == w * d * inv;
  }

  /** The inverse-square law, after normalisation too: any two bones of a row share the vertex in
      inverse proportion to their squared distances. */
  lemma InverseSquareLaw(v: Vec3, bones: seq<Vec3>, row: seq<Slot>, owner: seq<int>, j: nat, k: nat)
    requires TopFour(row, owner, Weights(v, bones)) && j < MAX_INFLUENCES && k < MAX_INFLUENCES
    requires owner[j] >= 0 && owner[k] >= 0
    ensures owner[j] < |bones| && owner[k] < |bones|
    ensures Times(Normalised(row)[j], Spread(v, bones[owner[j]])) ==
            Times(Normalised(row)[k], Spread(v, bones[owner[k]]))
  {
    var inv := if RowSum(row) > 0.0 then 1.0 / RowSum(row) else 0.0;
    forall i | i == j || i == k
      ensures owner[i] < |bones| && Times(Normalised(row)[i], Spread(v, bones[owner[i]])) == inv
    {
      assert Holds(row[i], owner[i], Weights(v, bones));
      WeightTimesSpread(v, bones[owner[i]]);
      assert Normalised(row)[i] == Times(row[i].weight, inv);
      SharedOut(row[i].weight, Spread(v, bones[owner[i]]), inv);
    }
  }

  /** The slot names a bone, by its number modulo 2^16, or nothing at no weight. */
  predicate Names16(joint: nat, weight: real, owner: int, bones: nat) {
    if owner < 0 then weight == 0.0 else owner < bones && joint == owner % NAMES
  }

  /** Two bones share the vertex by the inverse-square law. */
  predicate ShareBySquares(v: Vec3, a: Vec3, b: Vec3, x: real, y: real) {
    Times(x, Spread(v, a)) == Times(y, Spread(v, b))
  }

  predicate NoFarther(v: Vec3, a: Vec3, b: Vec3) { v.Sub(a).LengthSquared() <= v.Sub(b).LengthSquared() }

  /** The bones behind the joints of a vertex: named slot by slot, in inverse-square shares, and none
      nearer left out. */
  ghost predicate BoundTo(v: Vec3, bones: seq<Vec3>, joints: seq<nat>, weights: seq<real>, owner: seq<int>) {
    && |owner| == |joints| == |weights| == MAX_INFLUENCES
    && (forall k :: 0 <= k < MAX_INFLUENCES ==> Names16(joints[k], weights[k], owner[k], |bones|))
    && (forall j, k :: 0 <= j < MAX_INFLUENCES && 0 <= k < MAX_INFLUENCES && owner[j] >= 0 && owner[k] >= 0 ==>
          ShareBySquares(v, bones[owner[j]], bones[owner[k]], weights[j], weights[k]))
    && (forall b, k :: 0 <= b < |bones| && b !in owner && 0 <= k < MAX_INFLUENCES ==>
          owner[k] >= 0 && NoFarther(v, bones[owner[k]], bones[b]))
  }

  lemma NoShare(inv: real)
    ensures Times(0.0, inv) == 0.0
  {
  }

  lemma RowNamesBone(v: Vec3, bones: seq<Vec3>, row: seq<Slot>, owner: seq<int>, k: nat)
    requires TopFour(row, owner, Weights(v, bones)) && k < MAX_INFLUENCES
    ensures Names16(Names(row)[k], Normalised(row)[k], owner[k], |bones|)
  {
    assert Holds(row[k], owner[k], Weights(v, bones));
    NoShare(if RowSum(row) > 0.0 then 1.0 / RowSum(row) else 0.0);
  }

  lemma JointsNameTheirBones(v: Vec3, bones: seq<Vec3>, joints: seq<nat>, weights: seq<real>)
    requires Bound(v, bones, joints, weights)
    ensures exists owner :: BoundTo(v, bones, joints, weights, owner)
  {
    var row: seq<Slot> :|
      FourHeaviest(row, Weights(v, bones)) && joints == Names(row) && weights == Normalised(row);
    var owner: seq<int> :| TopFour(row, owner, Weights(v, bones));
    RowIsBound(v, bones, row, owner);
  }

  lemma RowIsBound(v: Vec3, bones: seq<Vec3>, row: seq<Slot>, owner: seq<int>)
    requires TopFour(row, owner, Weights(v, bones))
    ensures BoundTo(v, bones, Names(row), Normalised(row), owner)
  {
    forall k: nat | k < MAX_INFLUENCES
      ensures Names16(Names(row)[k], Normalised(row)[k], owner[k], |bones|)
    {
      RowNamesBone(v, bones, row, owner, k);
    }
    forall j: nat, k: nat | j < MAX_INFLUENCES && k < MAX_INFLUENCES && owner[j] >= 0 && owner[k] >= 0
      ensures ShareBySquares(v, bones[owner[j]], bones[owner[k]], Normalised(row)[j], Normalised(row)[k])
    {
      InverseSquareLaw(v, bones, row, owner, j, k);
    }
    forall b: nat, k: nat | b < |bones| && b !in owner && k < MAX_INFLUENCES
      ensures owner[k] >= 0 && NoFarther(v, bones[owner[k]], bones[b])
    {
      KeptAreNearest(v, bones, row, owner, b, k);
    }
  }

  /** The kept bones are the nearest: no bone left out is nearer the vertex than one kept. */
  lemma KeptAreNearest(v: Vec3, bones: seq<Vec3>, row: seq<Slot>, owner: seq<int>, b: nat, k: nat)
    requires TopFour(row, owner, Weights(v, bones)) && k < MAX_INFLUENCES && b < |bones| && b !in owner
    ensures 0 <= owner[k] < |bones|
    ensures v.Sub(bones[owner[k]]).LengthSquared() <= v.Sub(bones[b]).LengthSquared()
  {
    assert Holds(row[k], owner[k], Weights(v, bones));
    assert Weights(v, bones)[b] <= row[k].weight;
    if owner[k] >= 0 { NearerIsHeavier(v, bones[owner[k]], bones[b]); }
  }

  /** Two filled slots carry the same name exactly when their bones' numbers agree modulo 2^16 -
      so never in a skeleton of at most 65536 bones. */
  lemma NamesCollideIff(row: seq<Slot>, owner: seq<int>, weights: seq<real>, j: nat, k: nat)
    requires TopFour(row, owner, weights) && j < k < MAX_INFLUENCES && owner[j] >= 0 && owner[k] >= 0
    ensures row[j].name == row[k].name <==> (owner[k] - owner[j]) % NAMES == 0
    ensures |weights| <= NAMES ==> row[j].name != row[k].name
  {
    assert Holds(row[j], owner[j], weights) && Holds(row[k], owner[k], weights);
    SameRemainder(owner[j], owner[k]);
  }

  lemma SameRemainder(x: nat, y: nat)
    ensures x % NAMES == y % NAMES <==> (y - x) % NAMES == 0
  {
  }
}
