/** Two-bone inverse kinematics (arena-anim): where the joint and the end of a limb go for a target.
    Exact arithmetic over the reals; of the square root only its defining property is used. The
    clamps are those of the original, with their margin. */
module TwoBone {
  import opened Geometry

  datatype Solution = Solution(mid: Vec3, end: Vec3)

  const EPS := 0.0001
  const DEGENERATE := 0.000001

  ghost predicate IsSqrt(sqrt: real -> real) {
    forall x :: x >= 0.0 ==> sqrt(x) >= 0.0 && Times(sqrt(x), sqrt(x)) == x
  }

  function Abs(x: real): real { if x < 0.0 then -x else x }

  function Length(sqrt: real -> real, v: Vec3): real { sqrt(v.LengthSquared()) }

  function Normalize(sqrt: real -> real, v: Vec3): Vec3 {
    var len := Length(sqrt, v);
    if len > 0.0 then v.Scale(1.0 / len) else ZERO
  }

  /** The distance the chain is asked to span: the target's, forced into what the bones allow. */
  function Reach(dist: real, upper: real, lower: real): real
    requires upper + lower >= 2.0 * EPS
  {
    Max(Clamp(dist, EPS, upper + lower - EPS), Abs(upper - lower) + EPS)
  }

  /** How far along the root-target line the joint's foot lies. */
  function Foot(upper: real, lower: real, d: real): real
    requires d != 0.0
  {
    (Times(upper, upper) - Times(lower, lower) + Times(d, d)) / (2.0 * d)
  }

  function Height(sqrt: real -> real, upper: real, a: real): real {
    sqrt(Max(Times(upper, upper) - Times(a, a), 0.0))
  }

  /** The part of the pole direction perpendicular to `dir`. */
  function Sideways(toPole: Vec3, dir: Vec3): Vec3 {
    toPole.Sub(dir.Scale(toPole.Dot(dir)))
  }

  function Bend(sqrt: real -> real, dir: Vec3, toPole: Vec3): Vec3 {
    var bend := Normalize(sqrt, Sideways(toPole, dir));
    if bend.LengthSquared() >= DEGENERATE then bend
    else
      var bend' := Normalize(sqrt, dir.Cross(UNIT_Y));
      if bend'.LengthSquared() >= DEGENERATE then bend' else Normalize(sqrt, dir.Cross(UNIT_X))
  }

  /** Clamping needs a range, so the two bones together must span at least 2e-4. */
  function Solve(sqrt: real -> real, root: Vec3, target: Vec3, upper: real, lower: real, pole: Vec3): Solution
    requires upper + lower >= 2.0 * EPS
  {
    var toTarget := target.Sub(root);
    var d := Reach(Length(sqrt, toTarget), upper, lower);
    var dir := Normalize(sqrt, toTarget);
    var a := Foot(upper, lower, d);
    var h := Height(sqrt, upper, a);
    var bend := Bend(sqrt, dir, pole.Sub(root));
    Assemble(root, dir, bend, a, h, Min(d, upper + lower))
  }

  function Assemble(root: Vec3, dir: Vec3, bend: Vec3, a: real, h: real, d: real): Solution {
    Solution(root.Add(dir.Scale(a)).Add(bend.Scale(h)), root.Add(dir.Scale(d)))
  }

  // ---- plane geometry in numbers ----

  /** Bones the solver can take: the clamp of the reach has a range. */
  predicate Bones(upper: real, lower: real) {
    upper > 0.0 && lower > 0.0 && upper + lower >= 2.0 * EPS
  }

  /** Neither bone is shorter than half the margin. */
  predicate Workable(upper: real, lower: real) {
    2.0 * Min(upper, lower) >= EPS
  }

  /** The reach the solver settles on lies in the triangle's range exactly for workable bones. */
  lemma ReachBounds(dist: real, upper: real, lower: real)
    requires Bones(upper, lower)
    ensures Reach(dist, upper, lower) >= Abs(upper - lower) + EPS
    ensures Reach(dist, upper, lower) <= upper + lower <==> Workable(upper, lower)
    ensures Min(Reach(dist, upper, lower), upper + lower) == dist <==> Spans(dist, upper, lower)
  {
  }

  /** The distances the chain can span up to the margin; a bone shorter than the margin leaves
      one only. */
  predicate Spans(dist: real, upper: real, lower: real) {
    if Min(upper, lower) >= EPS then Abs(upper - lower) + EPS <= dist <= upper + lower - EPS
    else dist == Min(Abs(upper - lower) + EPS, upper + lower)
  }

  lemma SquareMono(x: real, y: real)
    requires 0.0 <= x <= y
    ensures Times(x, x) <= Times(y, y)
  {
    assert x * x <= x * y && x * y <= y * y;
  }

  lemma SquareOfDifference(x: real, y: real)
    ensures Times(x - y, x - y) == Times(x, x) - 2.0 * Times(x, y) + Times(y, y)
    ensures Times(x + y, x + y) == Times(x, x) + 2.0 * Times(x, y) + Times(y, y)
    ensures Times(Abs(x), Abs(x)) == Times(x, x)
  {
    assert (x - y) * (x - y) == x * x - 2.0 * (x * y) + y * y;
    assert (x + y) * (x + y) == x * x + 2.0 * (x * y) + y * y;
    assert -x * -x == x * x;
  }

  lemma DivideBy(x: real, y: real, k: real)
    requires k > 0.0 && Times(k, x) <= Times(k, y)
    ensures x <= y
  {
  }

  lemma FootEquation(upper: real, lower: real, d: real)
    requires d != 0.0
    ensures 2.0 * Times(d, Foot(upper, lower, d)) == Times(upper, upper) - Times(lower, lower) + Times(d, d)
  {
    var s := upper * upper - lower * lower + d * d;
    assert d * (s / (2.0 * d)) == s / 2.0;
  }

  lemma FarSide(upper: real, lower: real, d: real)
    requires upper > 0.0 && lower > 0.0 && Abs(upper - lower) <= d <= upper + lower
    ensures Times(upper, upper) - Times(lower, lower) + Times(d, d) <= 2.0 * Times(d, upper)
    ensures -2.0 * Times(d, upper) <= Times(upper, upper) - Times(lower, lower) + Times(d, d)
  {
    SquareMono(Abs(d - upper), lower);
    SquareMono(lower, d + upper);
    SquareOfDifference(d, upper);
    SquareOfDifference(d - upper, 0.0);
  }

  lemma Within(a: real, upper: real)
    requires -upper <= a <= upper
    ensures Times(a, a) <= Times(upper, upper)
  {
    SquareMono(Abs(a), upper);
    SquareOfDifference(a, 0.0);
  }

  lemma TimesMinus(x: real, y: real)
    ensures Times(x, -y) == -Times(x, y) && Times(-x, -y) == Times(x, y)
  {
  }

  /** Inside the triangle range the foot lies within the upper bone's reach: the clamp under
      the root never bites. */
  lemma FootWithinBone(upper: real, lower: real, d: real)
    requires upper > 0.0 && lower > 0.0 && Abs(upper - lower) <= d <= upper + lower && d > 0.0
    ensures var a := Foot(upper, lower, d); Times(a, a) <= Times(upper, upper)
  {
    FootEquation(upper, lower, d);
    FarSide(upper, lower, d);
    FootFromEquation(upper, d, Foot(upper, lower, d));
  }

  lemma FootFromEquation(upper: real, d: real, a: real)
    requires d > 0.0 && Times(d, a) <= Times(d, upper) && -Times(d, upper) <= Times(d, a)
    ensures Times(a, a) <= Times(upper, upper)
  {
    TimesMinus(d, upper);
    DivideBy(a, upper, d);
    DivideBy(-upper, a, d);
    Within(a, upper);
  }

  /** Both bones close the triangle: law of cosines, exactly. */
  lemma HeightCloses(sqrt: real -> real, upper: real, lower: real, d: real)
    requires IsSqrt(sqrt) && upper > 0.0 && lower > 0.0 && Abs(upper - lower) <= d <= upper + lower && d > 0.0
    ensures var a := Foot(upper, lower, d);
            var h := Height(sqrt, upper, a);
            && h >= 0.0
            && Times(a, a) + Times(h, h) == Times(upper, upper)
            && Times(d - a, d - a) + Times(h, h) == Times(lower, lower)
  {
    var a := Foot(upper, lower, d);
    FootWithinBone(upper, lower, d);
    FootEquation(upper, lower, d);
    SquareOfDifference(d, a);
  }

  // ---- vectors ----

  lemma LengthOfScaled(v: Vec3, k: real)
    ensures v.Scale(k).LengthSquared() == Times(Times(k, k), v.LengthSquared())
  {
    ScaledSquare(v.x, k);
    ScaledSquare(v.y, k);
    ScaledSquare(v.z, k);
    Distribute(Times(k, k), Times(v.x, v.x), Times(v.y, v.y), Times(v.z, v.z));
  }

  lemma ScaledSquare(x: real, k: real)
    ensures Times(x * k, x * k) == Times(Times(k, k), Times(x, x))
  {
    assert (x * k) * (x * k) == (k * k) * (x * x);
  }

  lemma Distribute(k: real, x: real, y: real, z: real)
    ensures Times(k, x + y + z) == Times(k, x) + Times(k, y) + Times(k, z)
  {
    assert k * (x + y + z) == k * x + k * y + k * z;
  }

  lemma DotOfScaled(v: Vec3, w: Vec3, k: real)
    ensures v.Scale(k).Dot(w) == Times(k, v.Dot(w))
  {
    Reassociate(v.x, k, w.x);
    Reassociate(v.y, k, w.y);
    Reassociate(v.z, k, w.z);
    Distribute(k, Times(v.x, w.x), Times(v.y, w.y), Times(v.z, w.z));
  }

  lemma Reassociate(x: real, k: real, y: real)
    ensures Times(x * k, y) == Times(k, Times(x, y))
  {
    assert (x * k) * y == k * (x * y);
  }

  lemma Positive(x: real, y: real)
    requires x > 0.0 && y > 0.0
    ensures Times(x, y) > 0.0
  {
  }

  lemma SquareSign(x: real)
    ensures x == 0.0 ==> Times(x, x) == 0.0
    ensures x != 0.0 ==> Times(x, x) > 0.0
  {
    if x > 0.0 {
      Positive(x, x);
    } else if x < 0.0 {
      Positive(-x, -x);
      TimesMinus(x, x);
    }
  }

  lemma NoSum(x: real, y: real, z: real)
    requires x >= 0.0 && y >= 0.0 && z >= 0.0
    ensures x + y + z == 0.0 <==> x == 0.0 && y == 0.0 && z == 0.0
  {
  }

  lemma OnlyZeroHasNoLength(v: Vec3)
    ensures v.LengthSquared() >= 0.0
    ensures v.LengthSquared() == 0.0 <==> v == ZERO
  {
    SquareSign(v.x);
    SquareSign(v.y);
    SquareSign(v.z);
    NoSum(Times(v.x, v.x), Times(v.y, v.y), Times(v.z, v.z));
  }

  lemma RootSign(sqrt: real -> real, q: real, r: real)
    requires IsSqrt(sqrt) && q >= 0.0 && r == sqrt(q)
    ensures r >= 0.0 && Times(r, r) == q && (r > 0.0 <==> q > 0.0)
  {
    SquareSign(r);
  }

  lemma LengthSign(sqrt: real -> real, v: Vec3)
    requires IsSqrt(sqrt)
    ensures Length(sqrt, v) >= 0.0 && Times(Length(sqrt, v), Length(sqrt, v)) == v.LengthSquared()
    ensures Length(sqrt, v) > 0.0 <==> v != ZERO
  {
    var q, r := v.LengthSquared(), Length(sqrt, v);
    OnlyZeroHasNoLength(v);
    RootSign(sqrt, q, r);
  }

  lemma NoDifference(u: Vec3, v: Vec3)
    ensures u.Sub(v) == ZERO <==> u == v
  {
  }

  lemma NormalizedIsUnit(sqrt: real -> real, v: Vec3)
    requires IsSqrt(sqrt)
    ensures v != ZERO ==> Normalize(sqrt, v).LengthSquared() == 1.0
    ensures v == ZERO ==> Normalize(sqrt, v) == ZERO
    ensures Normalize(sqrt, v).Scale(Length(sqrt, v)) == v
  {
    LengthSign(sqrt, v);
    var len := Length(sqrt, v);
    if v != ZERO {
      LengthOfScaled(v, 1.0 / len);
      UnitSquare(len, v.LengthSquared());
      ScaleBack(v, len);
    }
  }

  lemma UnitSquare(len: real, square: real)
    requires len > 0.0 && Times(len, len) == square
    ensures Times(Times(1.0 / len, 1.0 / len), square) == 1.0
  {
    var r := 1.0 / len;
    assert r * len == 1.0;
    assert r * r * (len * len) == (r * len) * (r * len);
  }

  lemma ScaleBack(v: Vec3, len: real)
    requires len > 0.0
    ensures v.Scale(1.0 / len).Scale(len) == v
  {
    var r := 1.0 / len;
    assert r * len == 1.0;
    assert v.x * r * len == v.x * (r * len) && v.y * r * len == v.y * (r * len) && v.z * r * len == v.z * (r * len);
  }

  lemma DotSymmetric(v: Vec3, w: Vec3)
    ensures v.Dot(w) == w.Dot(v)
  {
  }

  lemma SidewaysIsPerpendicular(toPole: Vec3, dir: Vec3)
    requires dir.LengthSquared() == 1.0
    ensures Sideways(toPole, dir).Dot(dir) == 0.0
  {
    var k := toPole.Dot(dir);
    DotOfDifference(toPole, dir.Scale(k), dir);
    DotOfScaled(dir, dir, k);
  }

  lemma DotOfDifference(u: Vec3, v: Vec3, w: Vec3)
    ensures u.Sub(v).Dot(w) == u.Dot(w) - v.Dot(w)
  {
    DifferenceTimes(u.x, v.x, w.x);
    DifferenceTimes(u.y, v.y, w.y);
    DifferenceTimes(u.z, v.z, w.z);
  }

  lemma DifferenceTimes(x: real, y: real, z: real)
    ensures Times(x - y, z) == Times(x, z) - Times(y, z)
  {
  }

  lemma CrossIsPerpendicular(dir: Vec3)
    ensures dir.Cross(UNIT_Y).Dot(dir) == 0.0 && dir.Cross(UNIT_X).Dot(dir) == 0.0
    ensures dir.LengthSquared() == 1.0 && dir.Cross(UNIT_Y) == ZERO ==> dir.Cross(UNIT_X) != ZERO
  {
    assert dir.Cross(UNIT_Y) == Vec3(-dir.z, 0.0, dir.x);
    assert dir.Cross(UNIT_X) == Vec3(0.0, dir.z, -dir.y);
    if dir.LengthSquared() == 1.0 && dir.Cross(UNIT_Y) == ZERO {
      SquareSign(dir.x);
      SquareSign(dir.y);
      SquareSign(dir.z);
    }
  }

  lemma NormalizedDot(sqrt: real -> real, v: Vec3, w: Vec3)
    requires v.Dot(w) == 0.0
    ensures Normalize(sqrt, v).Dot(w) == 0.0
  {
    var len := Length(sqrt, v);
    if len > 0.0 { DotOfScaled(v, w, 1.0 / len); }
  }

  /** Whatever the pole - off the line, on it, or at the root - the bend is a unit vector
      perpendicular to the reach direction. */
  lemma BendIsUnitNormal(sqrt: real -> real, dir: Vec3, toPole: Vec3)
    requires IsSqrt(sqrt) && dir.LengthSquared() == 1.0
    ensures Bend(sqrt, dir, toPole).LengthSquared() == 1.0
    ensures Bend(sqrt, dir, toPole).Dot(dir) == 0.0
  {
    var u, v, w := Sideways(toPole, dir), dir.Cross(UNIT_Y), dir.Cross(UNIT_X);
    SidewaysIsPerpendicular(toPole, dir);
    CrossIsPerpendicular(dir);
    NormalizedIsUnit(sqrt, u);
    NormalizedIsUnit(sqrt, v);
    NormalizedIsUnit(sqrt, w);
    NormalizedDot(sqrt, u, dir);
    NormalizedDot(sqrt, v, dir);
    NormalizedDot(sqrt, w, dir);
  }

  lemma Pythagoras(d: Vec3, b: Vec3, x: real, y: real)
    requires d.LengthSquared() == 1.0 && b.LengthSquared() == 1.0 && b.Dot(d) == 0.0
    ensures d.Scale(x).Add(b.Scale(y)).LengthSquared() == Times(x, x) + Times(y, y)
  {
    var p, q := d.Scale(x), b.Scale(y);
    LengthOfSum(p, q);
    LengthOfScaled(d, x);
    LengthOfScaled(b, y);
    DotOfScaled(d, q, x);
    DotSymmetric(d, q);
    DotOfScaled(b, d, y);
  }

  lemma LengthOfSum(p: Vec3, q: Vec3)
    ensures p.Add(q).LengthSquared() == p.LengthSquared() + 2.0 * p.Dot(q) + q.LengthSquared()
  {
    SquareOfDifference(p.x, q.x);
    SquareOfDifference(p.y, q.y);
    SquareOfDifference(p.z, q.z);
  }

  // ---- the solver ----

  /** Both bones keep their lengths in the solution. */
  ghost predicate BonesKept(s: Solution, root: Vec3, upper: real, lower: real) {
    s.mid.Sub(root).LengthSquared() == Times(upper, upper) && s.end.Sub(s.mid).LengthSquared() == Times(lower, lower)
  }

  lemma AssembledOffsets(root: Vec3, dir: Vec3, bend: Vec3, a: real, h: real, d: real)
    ensures var s := Assemble(root, dir, bend, a, h, d);
            && s.mid.Sub(root) == dir.Scale(a).Add(bend.Scale(h))
            && s.end.Sub(s.mid) == dir.Scale(d - a).Add(bend.Scale(-h))
  {
    ScaleDifference(dir, d, a);
    ScaleDifference(bend, 0.0, h);
    assert bend.Scale(0.0) == ZERO;
  }

  lemma ScaleDifference(v: Vec3, x: real, y: real)
    ensures v.Scale(x).Sub(v.Scale(y)) == v.Scale(x - y)
  {
  }

  /** Along a unit direction and a unit normal the bone lengths are those of the flat triangle. */
  lemma TriangleInSpace(root: Vec3, dir: Vec3, bend: Vec3, a: real, h: real, d: real, upper: real, lower: real)
    requires dir.LengthSquared() == 1.0 && bend.LengthSquared() == 1.0 && bend.Dot(dir) == 0.0
    requires Times(a, a) + Times(h, h) == Times(upper, upper) &&
             Times(d - a, d - a) + Times(h, h) == Times(lower, lower)
    ensures BonesKept(Assemble(root, dir, bend, a, h, d), root, upper, lower)
  {
    AssembledOffsets(root, dir, bend, a, h, d);
    Pythagoras(dir, bend, a, h);
    Pythagoras(dir, bend, d - a, -h);
    TimesMinus(h, h);
  }

  lemma AwayFromRoot(sqrt: real -> real, root: Vec3, target: Vec3, upper: real, lower: real, pole: Vec3)
    requires IsSqrt(sqrt) && Bones(upper, lower) && target != root
    ensures BonesKept(Solve(sqrt, root, target, upper, lower, pole), root, upper, lower) <==> Workable(upper, lower)
  {
    var to := target.Sub(root);
    NoDifference(target, root);
    NormalizedIsUnit(sqrt, to);
    BendIsUnitNormal(sqrt, Normalize(sqrt, to), pole.Sub(root));
    if Workable(upper, lower) {
      FoldedInSpace(sqrt, root, Normalize(sqrt, to), Bend(sqrt, Normalize(sqrt, to), pole.Sub(root)), Length(sqrt, to),
                    upper, lower);
    } else {
      TornInSpace(sqrt, root, Normalize(sqrt, to), Bend(sqrt, Normalize(sqrt, to), pole.Sub(root)), Length(sqrt, to),
                  upper, lower);
    }
  }

  lemma FoldedInSpace(sqrt: real -> real, root: Vec3, dir: Vec3, bend: Vec3, dist: real, upper: real, lower: real)
    requires IsSqrt(sqrt) && Bones(upper, lower) && Workable(upper, lower)
    requires dir.LengthSquared() == 1.0 && bend.LengthSquared() == 1.0 && bend.Dot(dir) == 0.0
    ensures var d := Reach(dist, upper, lower);
            d > 0.0 && var a := Foot(upper, lower, d);
            BonesKept(Assemble(root, dir, bend, a, Height(sqrt, upper, a), Min(d, upper + lower)), root, upper, lower)
  {
    var d := Reach(dist, upper, lower);
    ReachBounds(dist, upper, lower);
    assert d > 0.0;
    HeightCloses(sqrt, upper, lower, d);
    var a := Foot(upper, lower, d);
    TriangleInSpace(root, dir, bend, a, Height(sqrt, upper, a), d, upper, lower);
  }

  /** Past the triangle's range the foot lies beyond the upper bone: the clamp under the root
      bites, and the joint is torn off. */
  lemma FootBeyondBone(upper: real, lower: real, d: real)
    requires upper > 0.0 && lower > 0.0 && d > upper + lower
    ensures var a := Foot(upper, lower, d); Times(a, a) > Times(upper, upper)
  {
    var a := Foot(upper, lower, d);
    FootEquation(upper, lower, d);
    SquareOfDifference(d, upper);
    SquareAbove(lower, d - upper);
    assert Times(d, a) > Times(d, upper);
    DivideStrictly(upper, a, d);
    SquareAbove(upper, a);
  }

  lemma SquareAbove(x: real, y: real)
    requires 0.0 < x < y
    ensures Times(x, x) < Times(y, y)
  {
    assert x * x < x * y && x * y < y * y;
  }

  lemma DivideStrictly(x: real, y: real, k: real)
    requires k > 0.0 && Times(k, x) < Times(k, y)
    ensures x < y
  {
  }

  lemma TornInSpace(sqrt: real -> real, root: Vec3, dir: Vec3, bend: Vec3, dist: real, upper: real, lower: real)
    requires IsSqrt(sqrt) && Bones(upper, lower) && !Workable(upper, lower)
    requires dir.LengthSquared() == 1.0 && bend.LengthSquared() == 1.0 && bend.Dot(dir) == 0.0
    ensures var d := Reach(dist, upper, lower);
            d > 0.0 && var a := Foot(upper, lower, d);
            !BonesKept(Assemble(root, dir, bend, a, Height(sqrt, upper, a), Min(d, upper + lower)), root, upper, lower)
  {
    var d := Reach(dist, upper, lower);
    ReachBounds(dist, upper, lower);
    assert d > 0.0;
    FootBeyondBone(upper, lower, d);
    var a := Foot(upper, lower, d);
    var h := Height(sqrt, upper, a);
    AssembledOffsets(root, dir, bend, a, h, Min(d, upper + lower));
    Pythagoras(dir, bend, a, h);
    SquareNonNegative(h);
  }

  lemma FlatInSpace(root: Vec3, bend: Vec3, a: real, h: real, d: real)
    ensures var s := Assemble(root, ZERO, bend, a, h, d);
            && s.mid.Sub(root).LengthSquared() == Times(Times(h, h), bend.LengthSquared())
            && s.end.Sub(s.mid).LengthSquared() == Times(Times(h, h), bend.LengthSquared())
  {
    AssembledOffsets(root, ZERO, bend, a, h, d);
    assert ZERO.Scale(a) == ZERO && ZERO.Scale(d - a) == ZERO;
    assert ZERO.Add(bend.Scale(h)) == bend.Scale(h) && ZERO.Add(bend.Scale(-h)) == bend.Scale(-h);
    LengthOfScaled(bend, h);
    LengthOfScaled(bend, -h);
    TimesMinus(h, h);
  }

  /** At the root there is no direction to reach in: whatever the pole, one bone is lost. */
  lemma AtTheRoot(sqrt: real -> real, root: Vec3, upper: real, lower: real, pole: Vec3)
    requires IsSqrt(sqrt) && Bones(upper, lower)
    ensures !BonesKept(Solve(sqrt, root, root, upper, lower, pole), root, upper, lower)
  {
    var to := root.Sub(root);
    NoDifference(root, root);
    NormalizedIsUnit(sqrt, to);
    BendAtMostUnit(sqrt, ZERO, pole.Sub(root));
    CollapsedInSpace(sqrt, root, Bend(sqrt, ZERO, pole.Sub(root)), Length(sqrt, to), upper, lower);
  }

  lemma CollapsedInSpace(sqrt: real -> real, root: Vec3, bend: Vec3, dist: real, upper: real, lower: real)
    requires IsSqrt(sqrt) && Bones(upper, lower) && bend.LengthSquared() in {0.0, 1.0}
    ensures var d := Reach(dist, upper, lower);
            d > 0.0 && var a := Foot(upper, lower, d);
            !BonesKept(Assemble(root, ZERO, bend, a, Height(sqrt, upper, a), Min(d, upper + lower)), root, upper, lower)
  {
    var d := Reach(dist, upper, lower);
    ReachBounds(dist, upper, lower);
    assert d > 0.0;
    var a := Foot(upper, lower, d);
    var h := Height(sqrt, upper, a);
    FlatInSpace(root, bend, a, h, Min(d, upper + lower));
    var square := bend.LengthSquared();
    UnitOrNothing(h, square);
    SquaresDiffer(upper, lower);
    if upper == lower {
      HeightCloses(sqrt, upper, lower, d);
      FootEquation(upper, lower, d);
      Collapsed(upper, a, h, d, Times(Times(h, h), square));
    }
  }

  lemma SquaresDiffer(x: real, y: real)
    requires x > 0.0 && y > 0.0
    ensures Times(x, x) == Times(y, y) ==> x == y
  {
    if x < y {
      SquareAbove(x, y);
    } else if y < x {
      SquareAbove(y, x);
    }
  }

  lemma UnitOrNothing(h: real, square: real)
    requires square in {0.0, 1.0}
    ensures Times(Times(h, h), square) == 0.0 || Times(Times(h, h), square) == Times(h, h)
  {
  }

  lemma BendAtMostUnit(sqrt: real -> real, dir: Vec3, toPole: Vec3)
    requires IsSqrt(sqrt)
    ensures Bend(sqrt, dir, toPole).LengthSquared() in {0.0, 1.0}
  {
    NormalizedIsUnit(sqrt, Sideways(toPole, dir));
    NormalizedIsUnit(sqrt, dir.Cross(UNIT_Y));
    NormalizedIsUnit(sqrt, dir.Cross(UNIT_X));
  }

  lemma HalfOf(a: real, d: real)
    requires d > 0.0 && 2.0 * Times(d, a) == Times(d, d)
    ensures a == d / 2.0
  {
  }

  lemma Collapsed(upper: real, a: real, h: real, d: real, flex: real)
    requires d > 0.0 && 2.0 * Times(d, a) == Times(d, d)
    requires Times(a, a) + Times(h, h) == Times(upper, upper) && (flex == Times(h, h) || flex == 0.0) && upper > 0.0
    ensures flex < Times(upper, upper)
  {
    HalfOf(a, d);
    Positive(a, a);
    Positive(upper, upper);
  }

  /** The solver keeps both bone lengths - in every bend branch - exactly when the target is
      not the root itself and neither bone is shorter than half the margin. */
  lemma BonesKeptIff(sqrt: real -> real, root: Vec3, target: Vec3, upper: real, lower: real, pole: Vec3)
    requires IsSqrt(sqrt) && Bones(upper, lower)
    ensures BonesKept(Solve(sqrt, root, target, upper, lower, pole), root, upper, lower) <==>
              target != root && Workable(upper, lower)
  {
    if target != root {
      AwayFromRoot(sqrt, root, target, upper, lower, pole);
    } else {
      AtTheRoot(sqrt, root, upper, lower, pole);
    }
  }

  /** The end effector lands on the target exactly when the target is the root or at a distance
      the two bones can span. */
  lemma ReachesTargetIff(sqrt: real -> real, root: Vec3, target: Vec3, upper: real, lower: real, pole: Vec3)
    requires IsSqrt(sqrt) && Bones(upper, lower)
    ensures Solve(sqrt, root, target, upper, lower, pole).end == target <==>
              target == root || Spans(Length(sqrt, target.Sub(root)), upper, lower)
  {
    var to := target.Sub(root);
    var dist, dir := Length(sqrt, to), Normalize(sqrt, to);
    var d := Min(Reach(dist, upper, lower), upper + lower);
    ReachBounds(dist, upper, lower);
    NormalizedIsUnit(sqrt, to);
    assert Solve(sqrt, root, target, upper, lower, pole).end == root.Add(dir.Scale(d));
    assert to == ZERO <==> target == root;
    SameReach(root, target, dir, d, dist);
  }

  lemma SameReach(root: Vec3, target: Vec3, dir: Vec3, d: real, dist: real)
    requires dir.Scale(dist) == target.Sub(root)
    requires target == root ==> dir == ZERO
    requires target != root ==> dir.LengthSquared() == 1.0
    ensures root.Add(dir.Scale(d)) == target <==> target == root || d == dist
  {
    if target == root {
      NoReach(root, d);
    } else {
      OffBy(root, target, dir, d, dist);
      NoDifference(root.Add(dir.Scale(d)), target);
      UnitScale(dir, d - dist);
    }
  }

  lemma NoReach(root: Vec3, d: real)
    ensures root.Add(ZERO.Scale(d)) == root
  {
  }

  lemma OffBy(root: Vec3, target: Vec3, dir: Vec3, d: real, dist: real)
    requires dir.Scale(dist) == target.Sub(root)
    ensures root.Add(dir.Scale(d)).Sub(target) == dir.Scale(d - dist)
  {
    ScaleDifference(dir, d, dist);
    assert root.Add(dir.Scale(d)).Sub(target) == dir.Scale(d).Sub(target.Sub(root));
  }

  lemma UnitScale(dir: Vec3, k: real)
    requires dir.LengthSquared() == 1.0
    ensures dir.Scale(k) == ZERO <==> k == 0.0
  {
    OnlyZeroHasNoLength(dir.Scale(k));
    LengthOfScaled(dir, k);
    SquareSign(k);
  }

  lemma DotOfSum(u: Vec3, v: Vec3, w: Vec3)
    ensures u.Add(v).Dot(w) == u.Dot(w) + v.Dot(w)
  {
    SumTimes(u.x, v.x, w.x);
    SumTimes(u.y, v.y, w.y);
    SumTimes(u.z, v.z, w.z);
  }

  lemma SumTimes(x: real, y: real, z: real)
    ensures Times(x + y, z) == Times(x, z) + Times(y, z)
  {
  }

  lemma ProductSign(x: real, y: real)
    requires x >= 0.0 && y >= 0.0
    ensures Times(x, y) >= 0.0
  {
  }

  /** How far a folded joint leans along any direction that is square to the reach. */
  lemma Lean(dir: Vec3, bend: Vec3, a: real, h: real, len: real, side: Vec3)
    requires side.Dot(dir) == 0.0 && bend.LengthSquared() == 1.0 && side == bend.Scale(len)
    ensures dir.Scale(a).Add(bend.Scale(h)).Dot(side) == Times(h, len)
  {
    DotOfSum(dir.Scale(a), bend.Scale(h), side);
    DotOfScaled(dir, side, a);
    DotSymmetric(dir, side);
    DotOfScaled(bend, side, h);
    DotSymmetric(bend, side);
    DotOfScaled(bend, bend, len);
  }

  /** The joint leans toward the pole by its height above the line times the pole's distance
      from it: never away from the pole. */
  lemma BendsTowardPole(sqrt: real -> real, root: Vec3, target: Vec3, upper: real, lower: real, pole: Vec3)
    requires IsSqrt(sqrt) && Bones(upper, lower) && target != root
    ensures var s := Solve(sqrt, root, target, upper, lower, pole);
            var dir := Normalize(sqrt, target.Sub(root));
            var side := Sideways(pole.Sub(root), dir);
            var h := Height(sqrt, upper, Foot(upper, lower, Reach(Length(sqrt, target.Sub(root)), upper, lower)));
            side != ZERO ==> s.mid.Sub(root).Dot(side) == Times(h, Length(sqrt, side)) >= 0.0
  {
    var to := target.Sub(root);
    var dir := Normalize(sqrt, to);
    var side := Sideways(pole.Sub(root), dir);
    var d := Reach(Length(sqrt, to), upper, lower);
    NoDifference(target, root);
    NormalizedIsUnit(sqrt, to);
    NormalizedIsUnit(sqrt, side);
    SidewaysIsPerpendicular(pole.Sub(root), dir);
    ReachBounds(Length(sqrt, to), upper, lower);
    if side != ZERO {
      LeansBy(sqrt, root, dir, side, Foot(upper, lower, d), Height(sqrt, upper, Foot(upper, lower, d)),
              Min(d, upper + lower));
      LengthSign(sqrt, side);
    }
  }

  lemma LeansBy(sqrt: real -> real, root: Vec3, dir: Vec3, side: Vec3, a: real, h: real, d: real)
    requires IsSqrt(sqrt) && side.Dot(dir) == 0.0 && side != ZERO && h >= 0.0
    ensures var s := Assemble(root, dir, Normalize(sqrt, side), a, h, d);
            s.mid.Sub(root).Dot(side) == Times(h, Length(sqrt, side)) >= 0.0
  {
    var bend := Normalize(sqrt, side);
    NormalizedIsUnit(sqrt, side);
    LengthSign(sqrt, side);
    AssembledOffsets(root, dir, bend, a, h, d);
    Lean(dir, bend, a, h, Length(sqrt, side), side);
    ProductSign(h, Length(sqrt, side));
  }
}
