/** Associativity of relative composition: the law behind committing a baseline mid-take.

    Two laws carry the file: a row times two matrices, and associativity of the Hamilton product.
    Scaling, the norm and normalised products are derived from the latter. */
module Algebra {
  import opened Model
  import opened Transform

  /** A product of three factors.  Sums of products are distributed by the `Distribute` lemmas, so
      that the laws below only add up such triples. */
  function Triple(x: real, y: real, z: real): real {
    x * y * z
  }

  lemma DistributeSum(s: real, k: real, x0: real, y0: real, x1: real, y1: real, x2: real, y2: real, x3: real, y3: real)
    requires s == x0 * y0 + x1 * y1 + x2 * y2 + x3 * y3
    ensures s * k == Triple(x0, y0, k) + Triple(x1, y1, k) + Triple(x2, y2, k) + Triple(x3, y3, k)
    ensures k * s == Triple(k, x0, y0) + Triple(k, x1, y1) + Triple(k, x2, y2) + Triple(k, x3, y3)
  {
  }

  lemma DistributeAxis(s: real, k: real, x0: real, y0: real, x1: real, y1: real, x2: real, y2: real, x3: real, y3: real)
    requires s == x0 * y0 + x1 * y1 + x2 * y2 - x3 * y3
    ensures s * k == Triple(x0, y0, k) + Triple(x1, y1, k) + Triple(x2, y2, k) - Triple(x3, y3, k)
    ensures k * s == Triple(k, x0, y0) + Triple(k, x1, y1) + Triple(k, x2, y2) - Triple(k, x3, y3)
  {
  }

  lemma DistributeReal(s: real, k: real, x0: real, y0: real, x1: real, y1: real, x2: real, y2: real, x3: real, y3: real)
    requires s == x0 * y0 - x1 * y1 - x2 * y2 - x3 * y3
    ensures s * k == Triple(x0, y0, k) - Triple(x1, y1, k) - Triple(x2, y2, k) - Triple(x3, y3, k)
    ensures k * s == Triple(k, x0, y0) - Triple(k, x1, y1) - Triple(k, x2, y2) - Triple(k, x3, y3)
  {
  }

  // ----- Matrices -----

  /** A row times a matrix times a column, multiplied out. */
  function Expanded(a: seq<real>, b: Mat4, c: seq<real>): real
    requires |a| == |c| == 4
  {
    ExpandedColumn(a, b, c, 0) + ExpandedColumn(a, b, c, 1) + ExpandedColumn(a, b, c, 2) + ExpandedColumn(a, b, c, 3)
  }

  function ExpandedColumn(a: seq<real>, b: Mat4, c: seq<real>, j: nat): real
    requires |a| == |c| == 4 && j < 4
  {
    Triple(a[0], b[0][j], c[j]) + Triple(a[1], b[1][j], c[j]) + Triple(a[2], b[2][j], c[j])
      + Triple(a[3], b[3][j], c[j])
  }

  lemma RowFirst(a: seq<real>, b: Mat4, c: seq<real>, ab: seq<real>)
    requires |a| == |c| == |ab| == 4
    requires ab == [Dot(a, Column(b, 0)), Dot(a, Column(b, 1)), Dot(a, Column(b, 2)), Dot(a, Column(b, 3))]
    ensures Dot(ab, c) == Expanded(a, b, c)
  {
    DistributeSum(ab[0], c[0], a[0], b[0][0], a[1], b[1][0], a[2], b[2][0], a[3], b[3][0]);
    DistributeSum(ab[1], c[1], a[0], b[0][1], a[1], b[1][1], a[2], b[2][1], a[3], b[3][1]);
    DistributeSum(ab[2], c[2], a[0], b[0][2], a[1], b[1][2], a[2], b[2][2], a[3], b[3][2]);
    DistributeSum(ab[3], c[3], a[0], b[0][3], a[1], b[1][3], a[2], b[2][3], a[3], b[3][3]);
  }

  lemma ColumnFirst(a: seq<real>, b: Mat4, c: seq<real>, bc: seq<real>)
    requires |a| == |c| == |bc| == 4
    requires bc == [Dot(b[0], c), Dot(b[1], c), Dot(b[2], c), Dot(b[3], c)]
    ensures Dot(a, bc) == Expanded(a, b, c)
  {
    DistributeSum(bc[0], a[0], b[0][0], c[0], b[0][1], c[1], b[0][2], c[2], b[0][3], c[3]);
    DistributeSum(bc[1], a[1], b[1][0], c[0], b[1][1], c[1], b[1][2], c[2], b[1][3], c[3]);
    DistributeSum(bc[2], a[2], b[2][0], c[0], b[2][1], c[1], b[2][2], c[2], b[2][3], c[3]);
    DistributeSum(bc[3], a[3], b[3][0], c[0], b[3][1], c[1], b[3][2], c[2], b[3][3], c[3]);
  }

  lemma EntryAssociative(a: Mat4, b: Mat4, c: Mat4, i: nat, l: nat)
    requires i < 4 && l < 4
    ensures Entry(MatProduct(a, b), c, i, l) == Entry(a, MatProduct(b, c), i, l)
  {
    RowFirst(a[i], b, Column(c, l), MatProduct(a, b)[i]);
    ColumnFirst(a[i], b, Column(c, l), Column(MatProduct(b, c), l));
  }

  lemma MatAssociative(a: Mat4, b: Mat4, c: Mat4)
    ensures MatProduct(MatProduct(a, b), c) == MatProduct(a, MatProduct(b, c))
  {
    var l, r := MatProduct(MatProduct(a, b), c), MatProduct(a, MatProduct(b, c));
    forall i | 0 <= i < 4 ensures l[i] == r[i] {
      forall j | 0 <= j < 4 ensures l[i][j] == r[i][j] { EntryAssociative(a, b, c, i, j); }
    }
  }

  // ----- Quaternions -----

  function Scale(k: real, q: Quat): Quat {
    Quat(k * q.x, k * q.y, k * q.z, k * q.w)
  }

  function RealQuat(k: real): Quat {
    Quat(0.0, 0.0, 0.0, k)
  }

  function Conjugate(q: Quat): Quat {
    Quat(-q.x, -q.y, -q.z, q.w)
  }

  /** Rotating the axes; the product commutes with it, so one axis stands for all three. */
  function TurnAxes(q: Quat): Quat {
    Quat(q.y, q.z, q.x, q.w)
  }

  lemma TurnAxesProduct(a: Quat, b: Quat)
    ensures Hamilton(TurnAxes(a), TurnAxes(b)) == TurnAxes(Hamilton(a, b))
  {
  }

  function ExpandedX(a: Quat, b: Quat, c: Quat): real {
    (Triple(a.w, b.w, c.x) - Triple(a.x, b.x, c.x) - Triple(a.y, b.y, c.x) - Triple(a.z, b.z, c.x))
    + (Triple(a.w, b.x, c.w) + Triple(a.x, b.w, c.w) + Triple(a.y, b.z, c.w) - Triple(a.z, b.y, c.w))
    + (Triple(a.w, b.y, c.z) + Triple(a.y, b.w, c.z) + Triple(a.z, b.x, c.z) - Triple(a.x, b.z, c.z))
    - (Triple(a.w, b.z, c.y) + Triple(a.x, b.y, c.y) + Triple(a.z, b.w, c.y) - Triple(a.y, b.x, c.y))
  }

  function ExpandedW(a: Quat, b: Quat, c: Quat): real {
    (Triple(a.w, b.w, c.w) - Triple(a.x, b.x, c.w) - Triple(a.y, b.y, c.w) - Triple(a.z, b.z, c.w))
    - (Triple(a.w, b.x, c.x) + Triple(a.x, b.w, c.x) + Triple(a.y, b.z, c.x) - Triple(a.z, b.y, c.x))
    - (Triple(a.w, b.y, c.y) + Triple(a.y, b.w, c.y) + Triple(a.z, b.x, c.y) - Triple(a.x, b.z, c.y))
    - (Triple(a.w, b.z, c.z) + Triple(a.x, b.y, c.z) + Triple(a.z, b.w, c.z) - Triple(a.y, b.x, c.z))
  }

  lemma LeftFirst(a: Quat, b: Quat, c: Quat)
    ensures HamiltonX(Hamilton(a, b), c) == ExpandedX(a, b, c)
  {
    var p := Hamilton(a, b);
    DistributeReal(p.w, c.x, a.w, b.w, a.x, b.x, a.y, b.y, a.z, b.z);
    DistributeAxis(p.x, c.w, a.w, b.x, a.x, b.w, a.y, b.z, a.z, b.y);
    DistributeAxis(p.y, c.z, a.w, b.y, a.y, b.w, a.z, b.x, a.x, b.z);
    DistributeAxis(p.z, c.y, a.w, b.z, a.x, b.y, a.z, b.w, a.y, b.x);
    assert HamiltonX(p, c) == p.w * c.x + p.x * c.w + p.y * c.z - p.z * c.y;
  }

  lemma RightFirst(a: Quat, b: Quat, c: Quat)
    ensures HamiltonX(a, Hamilton(b, c)) == ExpandedX(a, b, c)
  {
    var q := Hamilton(b, c);
    DistributeReal(q.w, a.x, b.w, c.w, b.x, c.x, b.y, c.y, b.z, c.z);
    DistributeAxis(q.x, a.w, b.w, c.x, b.x, c.w, b.y, c.z, b.z, c.y);
    DistributeAxis(q.y, a.z, b.w, c.y, b.y, c.w, b.z, c.x, b.x, c.z);
    DistributeAxis(q.z, a.y, b.w, c.z, b.x, c.y, b.z, c.w, b.y, c.x);
    assert HamiltonX(a, q) == a.w * q.x + a.x * q.w + a.y * q.z - a.z * q.y;
  }

  lemma LeftFirstReal(a: Quat, b: Quat, c: Quat)
    ensures HamiltonW(Hamilton(a, b), c) == ExpandedW(a, b, c)
  {
    var p := Hamilton(a, b);
    DistributeReal(p.w, c.w, a.w, b.w, a.x, b.x, a.y, b.y, a.z, b.z);
    DistributeAxis(p.x, c.x, a.w, b.x, a.x, b.w, a.y, b.z, a.z, b.y);
    DistributeAxis(p.y, c.y, a.w, b.y, a.y, b.w, a.z, b.x, a.x, b.z);
    DistributeAxis(p.z, c.z, a.w, b.z, a.x, b.y, a.z, b.w, a.y, b.x);
    assert HamiltonW(p, c) == p.w * c.w - p.x * c.x - p.y * c.y - p.z * c.z;
  }

  lemma RightFirstReal(a: Quat, b: Quat, c: Quat)
    ensures HamiltonW(a, Hamilton(b, c)) == ExpandedW(a, b, c)
  {
    var q := Hamilton(b, c);
    DistributeReal(q.w, a.w, b.w, c.w, b.x, c.x, b.y, c.y, b.z, c.z);
    DistributeAxis(q.x, a.x, b.w, c.x, b.x, c.w, b.y, c.z, b.z, c.y);
    DistributeAxis(q.y, a.y, b.w, c.y, b.y, c.w, b.z, c.x, b.x, c.z);
    DistributeAxis(q.z, a.z, b.w, c.z, b.x, c.y, b.z, c.w, b.y, c.x);
    assert HamiltonW(a, q) == a.w * q.w - a.x * q.x - a.y * q.y - a.z * q.z;
  }

  lemma AxisAssociative(a: Quat, b: Quat, c: Quat)
    ensures HamiltonX(Hamilton(a, b), c) == HamiltonX(a, Hamilton(b, c))
  {
    LeftFirst(a, b, c);
    RightFirst(a, b, c);
  }

  lemma HamiltonAssociative(a: Quat, b: Quat, c: Quat)
    ensures Hamilton(Hamilton(a, b), c) == Hamilton(a, Hamilton(b, c))
  {
    var p, q := Hamilton(a, b), Hamilton(b, c);
    var a', b', c', p', q' := TurnAxes(a), TurnAxes(b), TurnAxes(c), TurnAxes(p), TurnAxes(q);
    TurnAxesProduct(a, b); TurnAxesProduct(b, c); TurnAxesProduct(p, c); TurnAxesProduct(a, q);
    TurnAxesProduct(a', b'); TurnAxesProduct(b', c'); TurnAxesProduct(p', c'); TurnAxesProduct(a', q');
    AxisAssociative(a, b, c);
    AxisAssociative(a', b', c');
    AxisAssociative(TurnAxes(a'), TurnAxes(b'), TurnAxes(c'));
    LeftFirstReal(a, b, c);
    RightFirstReal(a, b, c);
  }

  lemma RealProduct(k: real, q: Quat)
    ensures Hamilton(RealQuat(k), q) == Scale(k, q) == Hamilton(q, RealQuat(k))
  {
  }

  lemma HamiltonScale(k: real, a: Quat, b: Quat)
    ensures Hamilton(Scale(k, a), b) == Scale(k, Hamilton(a, b))
    ensures Hamilton(a, Scale(k, b)) == Scale(k, Hamilton(a, b))
  {
    RealProduct(k, a); RealProduct(k, b); RealProduct(k, Hamilton(a, b));
    HamiltonAssociative(RealQuat(k), a, b);
    HamiltonAssociative(a, b, RealQuat(k));
  }

  lemma ConjugateProduct(a: Quat, b: Quat)
    ensures Conjugate(Hamilton(a, b)) == Hamilton(Conjugate(b), Conjugate(a))
  {
  }

  lemma TimesConjugate(q: Quat)
    ensures Hamilton(q, Conjugate(q)) == RealQuat(NormSquared(q))
  {
  }

  lemma ProductTimesConjugate(a: Quat, b: Quat)
    ensures Hamilton(Hamilton(a, b), Conjugate(Hamilton(a, b)))
            == Hamilton(a, Hamilton(Hamilton(b, Conjugate(b)), Conjugate(a)))
  {
    var a', b' := Conjugate(a), Conjugate(b);
    ConjugateProduct(a, b);
    HamiltonAssociative(a, b, Hamilton(b', a'));
    HamiltonAssociative(b, b', a');
  }

  lemma RealBetween(n: real, a: Quat)
    ensures Hamilton(a, Hamilton(RealQuat(n), Conjugate(a))) == RealQuat(n * NormSquared(a))
  {
    RealProduct(n, Conjugate(a));
    HamiltonScale(n, a, Conjugate(a));
    TimesConjugate(a);
  }

  /** Euler's four-square identity, from associativity: (ab)(ab)* = a (bb*) a*. */
  lemma NormMultiplicative(a: Quat, b: Quat)
    ensures NormSquared(Hamilton(a, b)) == NormSquared(a) * NormSquared(b)
  {
    TimesConjugate(Hamilton(a, b));
    ProductTimesConjugate(a, b);
    TimesConjugate(b);
    RealBetween(NormSquared(b), a);
  }

  lemma NormScale(k: real, q: Quat)
    ensures NormSquared(Scale(k, q)) == (k * k) * NormSquared(q)
  {
    RealProduct(k, q);
    NormMultiplicative(RealQuat(k), q);
  }

  // ----- Normalised products -----

  /** The product of a and b is normalised by a genuine square root, and not by falling back to a. */
  ghost predicate Regular(root: real -> real, a: Quat, b: Quat) {
    var n := NormSquared(Hamilton(a, b));
    root(n) > EPSILON && root(n) * root(n) == n
  }

  /** k > 0 scales q to norm one. */
  ghost predicate Unitizes(k: real, q: Quat) {
    k > 0.0 && (k * k) * NormSquared(q) == 1.0
  }

  lemma DivideIsTimes(n: real, k: real, x: real)
    requires n > 0.0 && k == 1.0 / n
    ensures x / n == k * x
  {
  }

  lemma QuotientQuat(n: real, k: real, q: Quat)
    requires n > 0.0 && k == 1.0 / n
    ensures Quat(q.x / n, q.y / n, q.z / n, q.w / n) == Scale(k, q)
  {
    DivideIsTimes(n, k, q.x); DivideIsTimes(n, k, q.y); DivideIsTimes(n, k, q.z); DivideIsTimes(n, k, q.w);
  }

  lemma ReciprocalUnitizes(n: real, k: real, m: real)
    requires n > 0.0 && k == 1.0 / n && n * n == m
    ensures k > 0.0 && k * k * m == 1.0
  {
    assert k * n == 1.0;
    assert k * k * (n * n) == (k * n) * (k * n);
  }

  lemma NormalizedIsScaled(root: real -> real, a: Quat, b: Quat) returns (k: real)
    requires Regular(root, a, b)
    ensures Unitizes(k, Hamilton(a, b))
    ensures QuatMultiplyNormalized(root, a, b) == Scale(k, Hamilton(a, b))
  {
    var h := Hamilton(a, b);
    var n := root(NormSquared(h));
    k := 1.0 / n;
    QuotientQuat(n, k, h);
    ReciprocalUnitizes(n, k, NormSquared(h));
  }

  lemma UnitizesTwice(k: real, j: real, n: real, m: real)
    requires k > 0.0 && j > 0.0 && m == j * j * n && k * k * m == 1.0
    ensures k * j > 0.0 && (k * j) * (k * j) * n == 1.0
  {
  }

  lemma TimesTwice(k: real, j: real, x: real)
    ensures k * (j * x) == (k * j) * x
  {
  }

  lemma ScaleOfScale(k: real, j: real, q: Quat)
    ensures Scale(k, Scale(j, q)) == Scale(k * j, q)
  {
    TimesTwice(k, j, q.x); TimesTwice(k, j, q.y); TimesTwice(k, j, q.z); TimesTwice(k, j, q.w);
  }

  lemma ScaleTwice(k: real, j: real, q: Quat)
    requires Unitizes(k, Scale(j, q)) && j > 0.0
    ensures Scale(k, Scale(j, q)) == Scale(k * j, q)
    ensures Unitizes(k * j, q)
  {
    ScaleOfScale(k, j, q);
    NormScale(j, q);
    UnitizesTwice(k, j, NormSquared(q), NormSquared(Scale(j, q)));
  }

  lemma UnitizerUnique(s: real, t: real, q: Quat)
    requires Unitizes(s, q) && Unitizes(t, q)
    ensures s == t
  {
    PositiveRootUnique(s, t, NormSquared(q));
  }

  lemma PositiveRootUnique(s: real, t: real, n: real)
    requires s > 0.0 && t > 0.0 && s * s * n == 1.0 && t * t * n == 1.0
    ensures s == t
  {
    assert (s - t) * ((s + t) * n) == s * s * n - t * t * n;
    assert n != 0.0;
    assert (s + t) * n != 0.0;
  }

  /** Both sides are the triple product scaled to norm one. */
  lemma QuatRebase(root: real -> real, b: Quat, d1: Quat, d2: Quat)
    requires Regular(root, b, d1) && Regular(root, QuatMultiplyNormalized(root, b, d1), d2)
    requires Regular(root, d1, d2) && Regular(root, b, QuatMultiplyNormalized(root, d1, d2))
    ensures QuatMultiplyNormalized(root, QuatMultiplyNormalized(root, b, d1), d2)
         == QuatMultiplyNormalized(root, b, QuatMultiplyNormalized(root, d1, d2))
  {
    var triple := Hamilton(Hamilton(b, d1), d2);
    HamiltonAssociative(b, d1, d2);
    var k1 := NormalizedIsScaled(root, b, d1);
    var k2 := NormalizedIsScaled(root, QuatMultiplyNormalized(root, b, d1), d2);
    var j1 := NormalizedIsScaled(root, d1, d2);
    var j2 := NormalizedIsScaled(root, b, QuatMultiplyNormalized(root, d1, d2));
    HamiltonScale(k1, Hamilton(b, d1), d2);
    HamiltonScale(j1, b, Hamilton(d1, d2));
    ScaleTwice(k2, k1, triple);
    ScaleTwice(j2, j1, triple);
    UnitizerUnique(k2 * k1, j2 * j1, triple);
  }

  /** Unit quaternions are always regular, so the fallback to the baseline is unreachable for them. */
  lemma UnitRegular(root: real -> real, a: Quat, b: Quat)
    requires NormSquared(a) == 1.0 && NormSquared(b) == 1.0 && root(1.0) == 1.0
    ensures Regular(root, a, b)
    ensures NormSquared(QuatMultiplyNormalized(root, a, b)) == 1.0
    ensures QuatMultiplyNormalized(root, a, b) == Hamilton(a, b)
  {
    NormMultiplicative(a, b);
  }
}
