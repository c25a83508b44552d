/** Exactly when normalised quaternion products may be re-based, the fallback to the base included.

    A product that does not fall back is the product of the operands' directions, which are unit
    quaternions; every case below compares such products. */
module Quaternions {
  import opened Model
  import opened Transform
  import opened Algebra

  /** `root` is a square root. */
  ghost predicate GenuineRoot(root: real -> real) {
    forall n: real :: n >= 0.0 ==> root(n) >= 0.0 && root(n) * root(n) == n
  }

  function Magnitude(root: real -> real, q: Quat): real {
    root(NormSquared(q))
  }

  /** A product of magnitudes at which `quat_multiply_normalized` gives up and keeps its base. */
  predicate Small(x: real, y: real) {
    x * y <= EPSILON
  }

  const ONE := RealQuat(1.0)

  /** A positive real: as a rotation, none at all. */
  predicate NoRotation(q: Quat) {
    q.x == q.y == q.z == 0.0 && q.w > 0.0
  }

  function Direction(root: real -> real, q: Quat): Quat
    requires Magnitude(root, q) != 0.0
  {
    Scale(1.0 / Magnitude(root, q), q)
  }

  predicate IsUnit(q: Quat) {
    NormSquared(q) == 1.0
  }

  // ----- Magnitudes -----

  lemma MagnitudeSquares(root: real -> real, q: Quat)
    requires GenuineRoot(root)
    ensures Magnitude(root, q) >= 0.0 && Magnitude(root, q) * Magnitude(root, q) == NormSquared(q)
  {
    assert NormSquared(q) >= 0.0;
  }

  lemma SquaresEqual(x: real, y: real)
    requires x >= 0.0 && y >= 0.0 && x * x == y * y
    ensures x == y
  {
    if x < y { SquareGrows(x, y); } else if y < x { SquareGrows(y, x); }
  }

  lemma SquareGrows(x: real, y: real)
    requires 0.0 <= x < y
    ensures x * x < y * y
  {
    var d := y - x;
    assert x * d >= 0.0 && d * d > 0.0;
    assert y * y == x * x + 2.0 * (x * d) + d * d;
  }

  lemma SquareOfProduct(x: real, y: real, m: real, n: real)
    requires x >= 0.0 && y >= 0.0 && x * x == m && y * y == n
    ensures x * y >= 0.0 && (x * y) * (x * y) == m * n
  {
    assert (x * y) * (x * y) == (x * x) * (y * y);
  }

  lemma MagnitudeProduct(root: real -> real, a: Quat, b: Quat)
    requires GenuineRoot(root)
    ensures Magnitude(root, Hamilton(a, b)) == Magnitude(root, a) * Magnitude(root, b)
  {
    MagnitudeSquares(root, a);
    MagnitudeSquares(root, b);
    MagnitudeSquares(root, Hamilton(a, b));
    NormMultiplicative(a, b);
    SquareOfProduct(Magnitude(root, a), Magnitude(root, b), NormSquared(a), NormSquared(b));
    SquaresEqual(Magnitude(root, Hamilton(a, b)), Magnitude(root, a) * Magnitude(root, b));
  }

  lemma UnitMagnitude(root: real -> real, q: Quat)
    requires GenuineRoot(root)
    ensures Magnitude(root, q) == 1.0 <==> IsUnit(q)
  {
    MagnitudeSquares(root, q);
    if IsUnit(q) { SquaresEqual(Magnitude(root, q), 1.0); }
  }

  // ----- Directions -----

  lemma DirectionUnit(root: real -> real, q: Quat)
    requires GenuineRoot(root) && Magnitude(root, q) > 0.0
    ensures IsUnit(Direction(root, q))
  {
    var n := Magnitude(root, q);
    MagnitudeSquares(root, q);
    ReciprocalUnitizes(n, 1.0 / n, NormSquared(q));
    NormScale(1.0 / n, q);
  }

  lemma DirectionOfUnit(root: real -> real, q: Quat)
    requires GenuineRoot(root) && IsUnit(q)
    ensures Magnitude(root, q) == 1.0 && Direction(root, q) == q
  {
    UnitMagnitude(root, q);
  }

  lemma DirectionOne(root: real -> real, q: Quat)
    requires GenuineRoot(root) && Magnitude(root, q) > 0.0
    ensures Direction(root, q) == ONE <==> NoRotation(q)
  {
    var n := Magnitude(root, q);
    var k := 1.0 / n;
    assert k > 0.0 && k * n == 1.0;
    MagnitudeSquares(root, q);
    if NoRotation(q) {
      assert NormSquared(q) == q.w * q.w;
      SquaresEqual(n, q.w);
    } else if Direction(root, q) == ONE {
      ZeroFactor(k, q.x); ZeroFactor(k, q.y); ZeroFactor(k, q.z);
      PositiveFactor(k, q.w);
    }
  }

  lemma ZeroFactor(k: real, x: real)
    requires k > 0.0 && k * x == 0.0
    ensures x == 0.0
  {
  }

  lemma PositiveFactor(k: real, x: real)
    requires k > 0.0 && k * x == 1.0
    ensures x > 0.0
  {
  }

  lemma PositiveFactors(x: real, y: real)
    requires x >= 0.0 && y >= 0.0 && !Small(x, y)
    ensures x > 0.0 && y > 0.0
  {
  }

  lemma TwoReciprocals(x: real, y: real)
    requires x > 0.0 && y > 0.0
    ensures x * y > 0.0 && 1.0 / (x * y) == (1.0 / x) * (1.0 / y)
  {
    var k, j := 1.0 / x, 1.0 / y;
    assert k * x == 1.0 && j * y == 1.0;
    assert (k * j) * (x * y) == (k * x) * (j * y);
  }

  lemma QuotientIsScaled(root: real -> real, a: Quat, b: Quat, n: real, k: real)
    requires root(NormSquared(Hamilton(a, b))) == n && n > EPSILON && k == 1.0 / n
    ensures QuatMultiplyNormalized(root, a, b) == Scale(k, Hamilton(a, b))
  {
    QuotientQuat(n, k, Hamilton(a, b));
  }

  lemma QuotientIsProduct(root: real -> real, a: Quat, b: Quat, x: real, y: real, k: real, j: real)
    requires x > 0.0 && y > 0.0 && !Small(x, y) && k == 1.0 / x && j == 1.0 / y
    requires root(NormSquared(Hamilton(a, b))) == x * y
    ensures QuatMultiplyNormalized(root, a, b) == Hamilton(Scale(k, a), Scale(j, b))
  {
    TwoReciprocals(x, y);
    QuotientIsScaled(root, a, b, x * y, k * j);
    ProductOfScaled(k, j, a, b);
  }

  /** The normalised product: the product of the directions, or the base. */
  lemma ProductExactly(root: real -> real, a: Quat, b: Quat)
    requires GenuineRoot(root)
    ensures Small(Magnitude(root, a), Magnitude(root, b)) ==> QuatMultiplyNormalized(root, a, b) == a
    ensures !Small(Magnitude(root, a), Magnitude(root, b)) ==>
              && Magnitude(root, a) > 0.0 && Magnitude(root, b) > 0.0
              && QuatMultiplyNormalized(root, a, b) == Hamilton(Direction(root, a), Direction(root, b))
              && IsUnit(Direction(root, a)) && IsUnit(Direction(root, b)) && IsUnit(QuatMultiplyNormalized(root, a, b))
  {
    var x, y := Magnitude(root, a), Magnitude(root, b);
    MagnitudeProduct(root, a, b);
    if !Small(x, y) {
      MagnitudeSquares(root, a);
      MagnitudeSquares(root, b);
      PositiveFactors(x, y);
      QuotientIsProduct(root, a, b, x, y, 1.0 / x, 1.0 / y);
      DirectionUnit(root, a);
      DirectionUnit(root, b);
      NormMultiplicative(Direction(root, a), Direction(root, b));
    }
  }

  lemma ProductOfScaled(k: real, j: real, a: Quat, b: Quat)
    ensures Hamilton(Scale(k, a), Scale(j, b)) == Scale(k * j, Hamilton(a, b))
  {
    HamiltonScale(k, a, Scale(j, b));
    HamiltonScale(j, a, b);
    ScaleOfScale(k, j, Hamilton(a, b));
  }

  // ----- Cancelling a unit -----

  lemma ConjugateTimes(q: Quat)
    ensures Hamilton(Conjugate(q), q) == RealQuat(NormSquared(q))
  {
  }

  lemma CancelLeft(a: Quat, x: Quat, y: Quat)
    requires IsUnit(a)
    ensures Hamilton(a, x) == Hamilton(a, y) <==> x == y
  {
    ConjugateTimes(a);
    HamiltonAssociative(Conjugate(a), a, x);
    HamiltonAssociative(Conjugate(a), a, y);
    RealProduct(1.0, x);
    RealProduct(1.0, y);
  }

  lemma CancelRight(a: Quat, x: Quat, y: Quat)
    requires IsUnit(a)
    ensures Hamilton(x, a) == Hamilton(y, a) <==> x == y
  {
    TimesConjugate(a);
    HamiltonAssociative(x, a, Conjugate(a));
    HamiltonAssociative(y, a, Conjugate(a));
    RealProduct(1.0, x);
    RealProduct(1.0, y);
  }

  lemma TimesOne(a: Quat, x: Quat)
    requires IsUnit(a)
    ensures Hamilton(a, x) == a <==> x == ONE
    ensures Hamilton(x, a) == a <==> x == ONE
  {
    RealProduct(1.0, a);
    CancelLeft(a, x, ONE);
    CancelRight(a, x, ONE);
  }

  // ----- The law -----

  /** A product with a unit base falls back only for a delta of next to no magnitude. */
  lemma UnitBase(root: real -> real, c: Quat, d: Quat)
    requires GenuineRoot(root) && IsUnit(c)
    ensures Magnitude(root, d) <= EPSILON ==> QuatMultiplyNormalized(root, c, d) == c
    ensures Magnitude(root, d) > EPSILON ==>
              && QuatMultiplyNormalized(root, c, d) == Hamilton(c, Direction(root, d))
              && IsUnit(Direction(root, d)) && IsUnit(QuatMultiplyNormalized(root, c, d))
  {
    DirectionOfUnit(root, c);
    ProductExactly(root, c, d);
  }

  lemma UnitDelta(root: real -> real, b: Quat, e: Quat)
    requires GenuineRoot(root) && IsUnit(e)
    ensures Magnitude(root, b) <= EPSILON ==> QuatMultiplyNormalized(root, b, e) == b && !IsUnit(b)
    ensures Magnitude(root, b) > EPSILON ==>
              && QuatMultiplyNormalized(root, b, e) == Hamilton(Direction(root, b), e)
              && IsUnit(Direction(root, b)) && IsUnit(QuatMultiplyNormalized(root, b, e))
  {
    DirectionOfUnit(root, e);
    ProductExactly(root, b, e);
    UnitMagnitude(root, b);
  }

  function Split(root: real -> real, b: Quat, d1: Quat, d2: Quat): Quat {
    QuatMultiplyNormalized(root, QuatMultiplyNormalized(root, b, d1), d2)
  }

  function Joint(root: real -> real, b: Quat, d1: Quat, d2: Quat): Quat {
    QuatMultiplyNormalized(root, b, QuatMultiplyNormalized(root, d1, d2))
  }

  /** Exactly when composing d1 and then d2 is composing their composition.  With no product near zero
      it always is; each fallback leaves a delta out, which goes unnoticed only when that delta
      is no rotation or the other side leaves it out as well. */
  predicate QuatRebases(root: real -> real, b: Quat, d1: Quat, d2: Quat) {
    var x, y, z := Magnitude(root, b), Magnitude(root, d1), Magnitude(root, d2);
    if !Small(x, y) && !Small(y, z) then x > EPSILON && (z > EPSILON || NoRotation(d2))
    else if !Small(x, y) then z <= EPSILON || NoRotation(d2)
    else if !Small(y, z) then (if Small(x, z) then x <= EPSILON else x > EPSILON && NoRotation(d1))
    else Small(x, z) || (x == 1.0 && NoRotation(d2))
  }

  lemma NoFallback(root: real -> real, b: Quat, d1: Quat, d2: Quat)
    requires GenuineRoot(root) && !Small(Magnitude(root, b), Magnitude(root, d1))
             && !Small(Magnitude(root, d1), Magnitude(root, d2))
    ensures QuatRebases(root, b, d1, d2) <==> Split(root, b, d1, d2) == Joint(root, b, d1, d2)
  {
    ProductExactly(root, b, d1);
    ProductExactly(root, d1, d2);
    UnitBase(root, QuatMultiplyNormalized(root, b, d1), d2);
    UnitDelta(root, b, QuatMultiplyNormalized(root, d1, d2));
    var p, u, v := Direction(root, b), Direction(root, d1), Direction(root, d2);
    HamiltonAssociative(p, u, v);
    CancelLeft(p, u, Hamilton(u, v));
    TimesOne(u, v);
    DirectionOne(root, d2);
  }

  /** The deltas' composition falls back to d1. */
  lemma DeltasFallBack(root: real -> real, b: Quat, d1: Quat, d2: Quat)
    requires GenuineRoot(root) && !Small(Magnitude(root, b), Magnitude(root, d1))
             && Small(Magnitude(root, d1), Magnitude(root, d2))
    ensures QuatRebases(root, b, d1, d2) <==> Split(root, b, d1, d2) == Joint(root, b, d1, d2)
  {
    var c := QuatMultiplyNormalized(root, b, d1);
    ProductExactly(root, b, d1);
    ProductExactly(root, d1, d2);
    UnitBase(root, c, d2);
    if Magnitude(root, d2) > EPSILON {
      TimesOne(c, Direction(root, d2));
      DirectionOne(root, d2);
    }
  }

  lemma ProductBelow(x: real, y: real, e: real)
    requires 0.0 <= x <= e && 0.0 <= y <= 1.0
    ensures x * y <= e
  {
    var k := 1.0 - y;
    assert x * k >= 0.0;
    assert x * y == x - x * k;
  }

  /** The base's composition with d1 falls back to the base. */
  lemma BaseFallsBack(root: real -> real, b: Quat, d1: Quat, d2: Quat)
    requires GenuineRoot(root) && Small(Magnitude(root, b), Magnitude(root, d1))
             && !Small(Magnitude(root, d1), Magnitude(root, d2))
    ensures QuatRebases(root, b, d1, d2) <==> Split(root, b, d1, d2) == Joint(root, b, d1, d2)
  {
    ProductExactly(root, b, d1);
    ProductExactly(root, d1, d2);
    ProductExactly(root, b, d2);
    UnitDelta(root, b, QuatMultiplyNormalized(root, d1, d2));
    if Magnitude(root, b) > EPSILON {
      if Small(Magnitude(root, b), Magnitude(root, d2)) {
        MagnitudeSquares(root, d1);
        MagnitudeSquares(root, d2);
        UnitMagnitude(root, b);
        if IsUnit(b) { ProductBelow(Magnitude(root, d1), Magnitude(root, d2), EPSILON); }
      } else {
        var p, u, v := Direction(root, b), Direction(root, d1), Direction(root, d2);
        CancelLeft(p, v, Hamilton(u, v));
        TimesOne(v, u);
        DirectionOne(root, d1);
      }
    }
  }

  lemma BothFallBack(root: real -> real, b: Quat, d1: Quat, d2: Quat)
    requires GenuineRoot(root) && Small(Magnitude(root, b), Magnitude(root, d1))
             && Small(Magnitude(root, d1), Magnitude(root, d2))
    ensures QuatRebases(root, b, d1, d2) <==> Split(root, b, d1, d2) == Joint(root, b, d1, d2)
  {
    ProductExactly(root, b, d1);
    ProductExactly(root, d1, d2);
    ProductExactly(root, b, d2);
    UnitMagnitude(root, b);
    if !Small(Magnitude(root, b), Magnitude(root, d2)) && IsUnit(b) {
      DirectionOfUnit(root, b);
      TimesOne(b, Direction(root, d2));
      DirectionOne(root, d2);
    }
  }

  /** The re-basing law of quaternions, for all of them. */
  lemma QuatRebaseExactly(root: real -> real, b: Quat, d1: Quat, d2: Quat)
    requires GenuineRoot(root)
    ensures Split(root, b, d1, d2) == Joint(root, b, d1, d2) <==> QuatRebases(root, b, d1, d2)
  {
    var x, y, z := Magnitude(root, b), Magnitude(root, d1), Magnitude(root, d2);
    if !Small(x, y) && !Small(y, z) { NoFallback(root, b, d1, d2); }
    else if !Small(x, y) { DeltasFallBack(root, b, d1, d2); }
    else if !Small(y, z) { BaseFallsBack(root, b, d1, d2); }
    else { BothFallBack(root, b, d1, d2); }
  }

  /** A failing input: a zero first delta, as a mask naming w with a source of zero produces, makes the
      deltas' composition forget d2. */
  lemma ZeroDeltaForgets(root: real -> real, d2: Quat)
    requires GenuineRoot(root) && Magnitude(root, d2) > EPSILON && !NoRotation(d2)
    ensures Split(root, ONE, Quat(0.0, 0.0, 0.0, 0.0), d2) != Joint(root, ONE, Quat(0.0, 0.0, 0.0, 0.0), d2)
  {
    var zero := Quat(0.0, 0.0, 0.0, 0.0);
    UnitMagnitude(root, ONE);
    MagnitudeSquares(root, zero);
    SquaresEqual(Magnitude(root, zero), 0.0);
    QuatRebaseExactly(root, ONE, zero, d2);
  }
}
