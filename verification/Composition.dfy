/** What value an update leaves, type by type and in numbers. */
module Composition {
  import opened Model
  import opened Transform
  import opened Algebra
  import opened Quaternions
  import opened Filters
  import opened RuntimeSpec
  import opened Pipeline

  // ----- Composing a baseline and a delta -----

  predicate SameKind(v: AttributeValue, w: AttributeValue) {
    || (v.Bool? && w.Bool?) || (v.Int32? && w.Int32?) || (v.Float32? && w.Float32?) || (v.Float64? && w.Float64?)
    || (v.Vec2f? && w.Vec2f?) || (v.Vec3f? && w.Vec3f?) || (v.Vec4f? && w.Vec4f?) || (v.Quatf? && w.Quatf?)
    || (v.Mat4f? && w.Mat4f?) || (v.Trigger? && w.Trigger?)
  }

  /** r is n, or the bound that n lies beyond. */
  predicate Clipped(n: int, r: int) {
    if n > 0x7fff_ffff then r == 0x7fff_ffff else if n < -0x8000_0000 then r == -0x8000_0000 else r == n
  }

  /** Row i of a matrix against a column vector. */
  function RowTimes(m: Mat4, v: Quat, i: nat): real
    requires i < 4
  {
    m[i][0] * v.x + m[i][1] * v.y + m[i][2] * v.z + m[i][3] * v.w
  }

  function Act(m: Mat4, v: Quat): Quat {
    Quat(RowTimes(m, v, 0), RowTimes(m, v, 1), RowTimes(m, v, 2), RowTimes(m, v, 3))
  }

  /** The matrix r acts on column vectors as d and then b. */
  ghost predicate ActsAsBoth(b: Mat4, d: Mat4, r: Mat4) {
    forall v :: Act(r, v) == Act(b, Act(d, v))
  }

  /** r is b with d added to it: sums for numbers and vectors, clipped for integers, and for matrices and
      quaternions d first and then b. */
  ghost predicate Adds(root: real -> real, b: AttributeValue, d: AttributeValue, r: AttributeValue) {
    match b
    case Int32(x) => d.Int32? && r.Int32? && Clipped(x + d.int32, r.int32)
    case Float32(x) => d.Float32? && r.Float32? && r.f32 == x + d.f32
    case Float64(x) => d.Float64? && r.Float64? && r.f64 == x + d.f64
    case Vec2f(x, y) => d.Vec2f? && r.Vec2f? && r.x == x + d.x && r.y == y + d.y
    case Vec3f(x, y, z) => d.Vec3f? && r.Vec3f? && r.x == x + d.x && r.y == y + d.y && r.z == z + d.z
    case Vec4f(x, y, z, w) =>
      d.Vec4f? && r.Vec4f? && r.x == x + d.x && r.y == y + d.y && r.z == z + d.z && r.w == w + d.w
    case Quatf(q) => d.Quatf? && r.Quatf? && TurnedBy(root, q, d.quat, r.quat)
    case Mat4f(m) => d.Mat4f? && r.Mat4f? && ActsAsBoth(m, d.mat, r.mat)
    case _ => false
  }

  /** r is the base, when the magnitudes multiply to at most the epsilon; otherwise the direction of
      base times delta. */
  ghost predicate TurnedBy(root: real -> real, b: Quat, d: Quat, r: Quat) {
    var n := root(NormSquared(Times(b, d)));
    if n <= 1.0 / 8388608.0 then r == b
    else r.x * n == Times(b, d).x && r.y * n == Times(b, d).y && r.z * n == Times(b, d).z && r.w * n == Times(b, d).w
  }

  // ----- The quaternion product, from i, j and k -----

  const I := Quat(1.0, 0.0, 0.0, 0.0)
  const J := Quat(0.0, 1.0, 0.0, 0.0)
  const K := Quat(0.0, 0.0, 1.0, 0.0)

  function Plus(a: Quat, b: Quat): Quat {
    Quat(a.x + b.x, a.y + b.y, a.z + b.z, a.w + b.w)
  }

  function Times(a: Quat, b: Quat): Quat {
    Hamilton(a, b)
  }

  /** The rules of the units: ij = k and so on round, backwards with the sign changed, the squares are
      minus one, and one is one. */
  lemma ForwardRule(a: Quat, b: Quat)
    requires (a, b) == (I, J) || (a, b) == (J, K) || (a, b) == (K, I)
    ensures Times(a, b) == if a == I then K else if a == J then I else J
  {
    assert a.w == b.w == 0.0;
    assert (a.x == 0.0 || a.x == 1.0) && (a.y == 0.0 || a.y == 1.0) && (a.z == 0.0 || a.z == 1.0);
    assert (b.x == 0.0 || b.x == 1.0) && (b.y == 0.0 || b.y == 1.0) && (b.z == 0.0 || b.z == 1.0);
  }

  lemma BackwardRule(a: Quat, b: Quat)
    requires (a, b) == (J, I) || (a, b) == (K, J) || (a, b) == (I, K)
    ensures Times(a, b) == if b == I then Quat(0.0, 0.0, -1.0, 0.0)
                           else if b == J then Quat(-1.0, 0.0, 0.0, 0.0)
                           else Quat(0.0, -1.0, 0.0, 0.0)
  {
    assert a.w == b.w == 0.0;
    assert (a.x == 0.0 || a.x == 1.0) && (a.y == 0.0 || a.y == 1.0) && (a.z == 0.0 || a.z == 1.0);
    assert (b.x == 0.0 || b.x == 1.0) && (b.y == 0.0 || b.y == 1.0) && (b.z == 0.0 || b.z == 1.0);
  }

  lemma SquareRule(a: Quat)
    requires a == I || a == J || a == K
    ensures Times(a, a) == Quat(0.0, 0.0, 0.0, -1.0)
  {
  }

  lemma OneRule(a: Quat)
    ensures Times(ONE, a) == a == Times(a, ONE)
  {
    RealProduct(1.0, a);
  }

  lemma Spread(p: real, q: real, r: real)
    ensures (p + q) * r == p * r + q * r
    ensures r * (p + q) == r * p + r * q
  {
  }

  lemma SumTimesX(a: Quat, b: Quat, c: Quat)
    ensures HamiltonX(Plus(a, b), c) == HamiltonX(a, c) + HamiltonX(b, c)
    ensures HamiltonX(c, Plus(a, b)) == HamiltonX(c, a) + HamiltonX(c, b)
  {
    Spread(a.w, b.w, c.x); Spread(a.x, b.x, c.w); Spread(a.y, b.y, c.z); Spread(a.z, b.z, c.y);
  }

  lemma SumTimesY(a: Quat, b: Quat, c: Quat)
    ensures HamiltonY(Plus(a, b), c) == HamiltonY(a, c) + HamiltonY(b, c)
    ensures HamiltonY(c, Plus(a, b)) == HamiltonY(c, a) + HamiltonY(c, b)
  {
    Spread(a.w, b.w, c.y); Spread(a.x, b.x, c.z); Spread(a.y, b.y, c.w); Spread(a.z, b.z, c.x);
  }

  lemma SumTimesZ(a: Quat, b: Quat, c: Quat)
    ensures HamiltonZ(Plus(a, b), c) == HamiltonZ(a, c) + HamiltonZ(b, c)
    ensures HamiltonZ(c, Plus(a, b)) == HamiltonZ(c, a) + HamiltonZ(c, b)
  {
    Spread(a.w, b.w, c.z); Spread(a.x, b.x, c.y); Spread(a.y, b.y, c.x); Spread(a.z, b.z, c.w);
  }

  lemma SumTimesW(a: Quat, b: Quat, c: Quat)
    ensures HamiltonW(Plus(a, b), c) == HamiltonW(a, c) + HamiltonW(b, c)
    ensures HamiltonW(c, Plus(a, b)) == HamiltonW(c, a) + HamiltonW(c, b)
  {
    Spread(a.w, b.w, c.w); Spread(a.x, b.x, c.x); Spread(a.y, b.y, c.y); Spread(a.z, b.z, c.z);
  }

  lemma SumTimes(a: Quat, b: Quat, c: Quat)
    ensures Times(Plus(a, b), c) == Plus(Times(a, c), Times(b, c))
    ensures Times(c, Plus(a, b)) == Plus(Times(c, a), Times(c, b))
  {
    SumTimesX(a, b, c); SumTimesY(a, b, c); SumTimesZ(a, b, c); SumTimesW(a, b, c);
  }

  /** The product distributes over sums on both sides and lets factors through: with the unit rules that
      determines it. */
  lemma Bilinear(a: Quat, b: Quat, c: Quat, k: real)
    ensures Times(Plus(a, b), c) == Plus(Times(a, c), Times(b, c))
    ensures Times(c, Plus(a, b)) == Plus(Times(c, a), Times(c, b))
    ensures Times(Scale(k, a), b) == Scale(k, Times(a, b)) == Times(a, Scale(k, b))
  {
    SumTimes(a, b, c);
    HamiltonScale(k, a, b);
  }

  /** Every quaternion is a sum of multiples of the units. */
  lemma FromUnits(q: Quat)
    ensures q == Plus(Plus(Scale(q.x, I), Scale(q.y, J)), Plus(Scale(q.z, K), Scale(q.w, ONE)))
  {
  }

  // ----- Composition is addition -----

  function Column4(v: Quat): seq<real> {
    [v.x, v.y, v.z, v.w]
  }

  lemma RowIsDot(m: Mat4, v: Quat, i: nat)
    requires i < 4
    ensures RowTimes(m, v, i) == Dot(m[i], Column4(v))
  {
  }

  lemma RowActs(b: Mat4, d: Mat4, v: Quat, i: nat)
    requires i < 4
    ensures RowTimes(MatProduct(b, d), v, i) == RowTimes(b, Act(d, v), i)
  {
    RowIsDot(MatProduct(b, d), v, i);
    RowIsDot(b, Act(d, v), i);
    RowIsDot(d, v, 0); RowIsDot(d, v, 1); RowIsDot(d, v, 2); RowIsDot(d, v, 3);
    ProductRowActs(b[i], d, Column4(v), MatProduct(b, d)[i], Column4(Act(d, v)));
  }

  lemma ProductRowActs(a: seq<real>, d: Mat4, c: seq<real>, ad: seq<real>, dc: seq<real>)
    requires |a| == |c| == |ad| == |dc| == 4
    requires ad == [Dot(a, Column(d, 0)), Dot(a, Column(d, 1)), Dot(a, Column(d, 2)), Dot(a, Column(d, 3))]
    requires dc == [Dot(d[0], c), Dot(d[1], c), Dot(d[2], c), Dot(d[3], c)]
    ensures Dot(ad, c) == Dot(a, dc)
  {
    RowFirst(a, d, c, ad);
    ColumnFirst(a, d, c, dc);
  }

  lemma MatrixActs(b: Mat4, d: Mat4)
    ensures ActsAsBoth(b, d, MatProduct(b, d))
  {
    forall v ensures Act(MatProduct(b, d), v) == Act(b, Act(d, v)) {
      RowActs(b, d, v, 0); RowActs(b, d, v, 1); RowActs(b, d, v, 2); RowActs(b, d, v, 3);
    }
  }

  lemma QuotientTimes(x: real, n: real)
    requires n > 0.0
    ensures (x / n) * n == x
  {
  }

  lemma ProductTurns(root: real -> real, b: Quat, d: Quat)
    ensures TurnedBy(root, b, d, QuatMultiplyNormalized(root, b, d))
  {
    var q := Times(b, d);
    var n := root(NormSquared(q));
    if n > 1.0 / 8388608.0 {
      QuotientTimes(q.x, n); QuotientTimes(q.y, n); QuotientTimes(q.z, n); QuotientTimes(q.w, n);
    }
  }

  predicate Relative(v: AttributeValue) {
    !v.Bool? && !v.Trigger?
  }

  lemma ComposeAdds(root: real -> real, b: AttributeValue, d: AttributeValue)
    requires Relative(b) && SameKind(b, d)
    ensures Compose(root, b, d).Ok? && Adds(root, b, d, Compose(root, b, d).value)
  {
    if b.Quatf? { ProductTurns(root, b.quat, d.quat); }
    if b.Mat4f? { MatrixActs(b.mat, d.mat); }
  }

  lemma KindIsType(v: AttributeValue, w: AttributeValue)
    ensures SameKind(v, w) <==> TypeOf(v) == TypeOf(w)
  {
  }

  /** An unmasked update through a Passthrough chain: baseline plus source, or under a flag or trigger
      baseline the source; refused exactly when the source is of another kind. */
  lemma PlainUpdateExactly(root: real -> real, attr: SceneAttribute, v: AttributeValue)
    requires AllPassthrough(attr.chain)
    ensures var r := UpdateValue(root, attr, v, None);
            var like := if Relative(attr.default) then attr.default else attr.current;
            if !SameKind(like, v) then r == Err(TypeMismatch(TypeOf(like), TypeOf(v)))
            else r.Ok? && if Relative(attr.default) then Adds(root, attr.default, v, r.value) else r.value == v
  {
    KindIsType(attr.default, v);
    KindIsType(attr.current, v);
    if !Relative(attr.default) {
      PassthroughIsIdentity(attr.current, v, attr.chain);
    } else if SameKind(attr.default, v) {
      ComposeAdds(root, attr.default, v);
      PassthroughIsIdentity(attr.current, Compose(root, attr.default, v).value, attr.chain);
    }
  }

  /** With a chain, the value the empty chain would leave goes through the filters, against the value before
      the update; whether an update is refused does not depend on the chain. */
  lemma ChainOverPlain(root: real -> real, attr: SceneAttribute, v: AttributeValue, mask: Mask)
    ensures UpdateValue(root, attr, v, mask) ==
            match UpdateValue(root, attr.(chain := []), v, mask)
            case Ok(x) => Ok(ApplyFilters(attr.current, x, attr.chain))
            case Err(e) => Err(e)
  {
  }

  lemma PassthroughIsMemoryless(chain: seq<AttributeFilter>)
    requires AllPassthrough(chain)
    ensures Memoryless(chain)
  {
  }

  /** Over every run of updates: when the last accepted one was unmasked the value is the baseline plus
      its source, whatever came before. */
  lemma RunAdds(s: Runtime, ops: seq<Op>, a: Address, f: Feeding)
    requires GetAttr(s.scenes, a).Ok? && forall i :: 0 <= i < |ops| ==> Quiet(ops[i], a)
    requires var attr := GetAttr(s.scenes, a).value;
             && attr.live && AllPassthrough(attr.chain) && Relative(attr.default)
             && LastAccepted(s.root, attr, RunFeeds(s, ops, a)) == Some(f) && f.mask == None
    ensures GetAttr(Run(s, ops).scenes, a).Ok?
    ensures Adds(s.root, GetAttr(s.scenes, a).value.default, f.value, GetAttr(Run(s, ops).scenes, a).value.current)
  {
    var attr := GetAttr(s.scenes, a).value;
    PassthroughIsMemoryless(attr.chain);
    NoDrift(s, ops, a);
    var x := GetAttr(Run(s, ops).scenes, a).value.current;
    AcceptedUpdate(s.root, attr, RunFeeds(s, ops, a), f);
    UpdateAdds(s.root, attr, f.value);
  }

  lemma {:induction false} AcceptedUpdate(root: real -> real, attr: SceneAttribute, fs: seq<Feeding>, f: Feeding)
    requires LastAccepted(root, attr, fs) == Some(f)
    ensures UpdateValue(root, attr, f.value, f.mask).Ok?
    decreases fs
  {
    if LastAccepted(root, attr, fs[1..]).Some? { AcceptedUpdate(root, attr, fs[1..], f); }
  }

  lemma UpdateAdds(root: real -> real, attr: SceneAttribute, v: AttributeValue)
    requires AllPassthrough(attr.chain) && Relative(attr.default) && UpdateValue(root, attr, v, None).Ok?
    ensures Adds(root, attr.default, v, UpdateValue(root, attr, v, None).value)
  {
    KindIsType(attr.default, v);
    ComposeAdds(root, attr.default, v);
    PassthroughIsIdentity(attr.current, Compose(root, attr.default, v).value, attr.chain);
  }

  // ----- Masks -----

  /** Component k of a vector or quaternion, in the order x, y, z, w. */
  function ComponentAt(v: AttributeValue, k: nat): Option<real> {
    match v
    case Vec2f(x, y) => if k == 0 then Some(x) else if k == 1 then Some(y) else None
    case Vec3f(x, y, z) => if k == 0 then Some(x) else if k == 1 then Some(y) else if k == 2 then Some(z) else None
    case Vec4f(x, y, z, w) => FourAt(x, y, z, w, k)
    case Quatf(q) => FourAt(q.x, q.y, q.z, q.w, k)
    case _ => None
  }

  function FourAt(x: real, y: real, z: real, w: real, k: nat): Option<real> {
    if k == 0 then Some(x) else if k == 1 then Some(y) else if k == 2 then Some(z) else if k == 3 then Some(w) else None
  }

  /** What a source gives for component k: a number is the same for all. */
  function SourceAt(v: AttributeValue, k: nat): Option<real> {
    match v
    case Float32(x) => Some(x)
    case Float64(x) => Some(x)
    case Int32(i) => Some(i as real)
    case _ => ComponentAt(v, k)
  }

  lemma ComponentAtIsComponents(v: AttributeValue, k: nat)
    ensures ComponentAt(v, k) == if k < |Components(v)| then Some(Components(v)[k]) else None
    ensures SourceAt(v, k) == if SourceComponent(v, k).Ok? then Some(SourceComponent(v, k).value) else None
    ensures ComponentAt(v, k).Some? <==> VectorLen(v).Some? && k < VectorLen(v).value
  {
  }

  /** Every component the mask names exists in the target and in the source. */
  ghost predicate MaskReads(target: AttributeValue, v: AttributeValue, mask: seq<nat>) {
    forall i :: 0 <= i < |mask| ==> ComponentAt(target, mask[i]).Some? && SourceAt(v, mask[i]).Some?
  }

  lemma {:induction false} WriteMaskedExactly(target: AttributeValue, v: AttributeValue, mask: seq<nat>)
    requires VectorLen(target).Some?
    ensures WriteMasked(target, v, mask).Ok? <==> MaskReads(target, v, mask)
    decreases mask
  {
    if mask != [] {
      ComponentAtIsComponents(target, mask[0]);
      ComponentAtIsComponents(v, mask[0]);
      if ComponentAt(target, mask[0]).Some? && SourceAt(v, mask[0]).Some? {
        var next := SetVectorComponent(target, mask[0], SourceAt(v, mask[0]).value).value;
        WriteMaskedExactly(next, v, mask[1..]);
        MaskReadsFirst(target, next, v, mask);
      } else {
        assert !MaskReads(target, v, mask);
      }
    }
  }

  lemma FirstWritten(target: AttributeValue, v: AttributeValue, mask: seq<nat>)
    requires mask != [] && VectorLen(target).Some?
    requires ComponentAt(target, mask[0]).Some? && SourceAt(v, mask[0]).Some?
    ensures var next := SetVectorComponent(target, mask[0], SourceAt(v, mask[0]).value);
            && next.Ok? && SameKind(target, next.value)
            && WriteMasked(target, v, mask) == WriteMasked(next.value, v, mask[1..])
  {
    ComponentAtIsComponents(target, mask[0]);
    ComponentAtIsComponents(v, mask[0]);
  }

  lemma FirstUnwritten(target: AttributeValue, v: AttributeValue, mask: seq<nat>)
    requires mask != [] && VectorLen(target).Some?
    requires ComponentAt(target, mask[0]).None? || SourceAt(v, mask[0]).None?
    ensures WriteMasked(target, v, mask) ==
            Err(if SourceAt(v, mask[0]).None? then UnsupportedTransform else InvalidComponentMask)
  {
    ComponentAtIsComponents(target, mask[0]);
    ComponentAtIsComponents(v, mask[0]);
  }

  lemma AlikeComponents(target: AttributeValue, other: AttributeValue, k: nat)
    requires SameKind(target, other)
    ensures ComponentAt(target, k).Some? == ComponentAt(other, k).Some?
  {
  }

  /** The first component the mask cannot read gives the error: the source's lack of it before the target's. */
  lemma {:induction false} WriteMaskedFails(target: AttributeValue, v: AttributeValue, mask: seq<nat>, i: nat)
    requires VectorLen(target).Some? && i < |mask|
    requires forall k :: 0 <= k < i ==> ComponentAt(target, mask[k]).Some? && SourceAt(v, mask[k]).Some?
    requires ComponentAt(target, mask[i]).None? || SourceAt(v, mask[i]).None?
    ensures WriteMasked(target, v, mask) ==
            Err(if SourceAt(v, mask[i]).None? then UnsupportedTransform else InvalidComponentMask)
    decreases mask
  {
    if i == 0 {
      FirstUnwritten(target, v, mask);
    } else {
      FirstWritten(target, v, mask);
      var next, rest := SetVectorComponent(target, mask[0], SourceAt(v, mask[0]).value).value, mask[1..];
      forall k | 0 <= k < i - 1 ensures ComponentAt(next, rest[k]).Some? && SourceAt(v, rest[k]).Some? {
        assert rest[k] == mask[k + 1];
        AlikeComponents(target, next, rest[k]);
      }
      AlikeComponents(target, next, mask[i]);
      WriteMaskedFails(next, v, rest, i - 1);
    }
  }

  lemma MaskReadsFirst(target: AttributeValue, next: AttributeValue, v: AttributeValue, mask: seq<nat>)
    requires mask != [] && SameKind(target, next)
    requires ComponentAt(target, mask[0]).Some? && SourceAt(v, mask[0]).Some?
    ensures MaskReads(target, v, mask) <==> MaskReads(next, v, mask[1..])
  {
    assert forall k :: ComponentAt(next, k).Some? == ComponentAt(target, k).Some?;
    assert forall i :: 0 <= i < |mask[1..]| ==> mask[1..][i] == mask[i + 1];
    if MaskReads(next, v, mask[1..]) {
      forall i | 0 <= i < |mask| ensures ComponentAt(target, mask[i]).Some? && SourceAt(v, mask[i]).Some? {
        if i > 0 { assert mask[i] == mask[1..][i - 1]; }
      }
    }
  }

  /** What a mask makes the delta of: the source where it names a component, `rest` elsewhere. */
  predicate DeltaAt(v: AttributeValue, mask: seq<nat>, k: nat, rest: real, c: real) {
    if k in mask then SourceAt(v, k) == Some(c) else c == rest
  }

  predicate IsVector(v: AttributeValue) {
    v.Vec2f? || v.Vec3f? || v.Vec4f?
  }

  lemma SumComponent(root: real -> real, b: AttributeValue, d: AttributeValue, r: AttributeValue, k: nat)
    requires IsVector(b) && Adds(root, b, d, r) && ComponentAt(b, k).Some?
    ensures ComponentAt(d, k).Some? && ComponentAt(r, k).Some?
    ensures ComponentAt(r, k).value - ComponentAt(b, k).value == ComponentAt(d, k).value
  {
  }

  lemma NeutralIsZero(b: AttributeValue, k: nat)
    requires IsVector(b) && ComponentAt(b, k).Some?
    ensures ComponentAt(NeutralDelta(b), k) == Some(0.0)
  {
  }

  /** A masked update of a vector adds what the mask made of the source. */
  lemma MaskedUpdate(root: real -> real, attr: SceneAttribute, v: AttributeValue, mask: seq<nat>)
    requires VectorLen(attr.default).Some? && AllPassthrough(attr.chain)
    ensures var r, delta := UpdateValue(root, attr, v, Some(mask)), WriteMasked(NeutralDelta(attr.default), v, mask);
            && (r.Ok? <==> mask != [] && MaskReads(attr.default, v, mask))
            && (mask != [] ==> r.Ok? == delta.Ok?)
            && (r.Ok? ==> SameKind(attr.default, r.value) && SameKind(attr.default, delta.value))
            && (r.Ok? ==> Adds(root, attr.default, delta.value, r.value))
            && (r.Err? ==> r == Err(if mask == [] then InvalidComponentMask else delta.error))
  {
    var neutral := NeutralDelta(attr.default);
    WriteMaskedExactly(neutral, v, mask);
    MaskReadsAlike(attr.default, neutral, v, mask);
    if mask != [] && MaskReads(attr.default, v, mask) {
      var delta := WriteMasked(neutral, v, mask).value;
      KindIsType(attr.default, delta);
      ComposeAdds(root, attr.default, delta);
      PassthroughIsIdentity(attr.current, Compose(root, attr.default, delta).value, attr.chain);
    }
  }

  /** It is refused exactly when the mask is empty or names a component that target or source lacks; otherwise
      every component is the baseline's plus, where the mask names it, the source's. */
  lemma MaskedVectorExactly(root: real -> real, attr: SceneAttribute, v: AttributeValue, mask: seq<nat>, k: nat)
    requires IsVector(attr.default) && AllPassthrough(attr.chain)
    ensures var r := UpdateValue(root, attr, v, Some(mask));
            && (r.Ok? <==> mask != [] && MaskReads(attr.default, v, mask))
            && (r.Ok? ==> SameKind(attr.default, r.value))
            && (r.Ok? && ComponentAt(attr.default, k).Some? ==>
                  && ComponentAt(r.value, k).Some?
                  && DeltaAt(v, mask, k, 0.0, ComponentAt(r.value, k).value - ComponentAt(attr.default, k).value))
  {
    MaskedUpdate(root, attr, v, mask);
    var r := UpdateValue(root, attr, v, Some(mask));
    if r.Ok? && ComponentAt(attr.default, k).Some? {
      NeutralIsZero(attr.default, k);
      DeltaComponent(NeutralDelta(attr.default), v, mask, k);
      SumComponent(root, attr.default, WriteMasked(NeutralDelta(attr.default), v, mask).value, r.value, k);
    }
  }

  lemma MaskReadsAlike(target: AttributeValue, other: AttributeValue, v: AttributeValue, mask: seq<nat>)
    requires SameKind(target, other)
    ensures MaskReads(target, v, mask) <==> MaskReads(other, v, mask)
  {
    assert forall k :: ComponentAt(target, k).Some? == ComponentAt(other, k).Some?;
  }

  lemma DeltaComponent(neutral: AttributeValue, v: AttributeValue, mask: seq<nat>, k: nat)
    requires WriteMasked(neutral, v, mask).Ok? && ComponentAt(neutral, k).Some?
    ensures var c := ComponentAt(WriteMasked(neutral, v, mask).value, k);
            c.Some? && DeltaAt(v, mask, k, ComponentAt(neutral, k).value, c.value)
  {
    ComponentAtIsComponents(neutral, k);
    ComponentAtIsComponents(WriteMasked(neutral, v, mask).value, k);
    ComponentAtIsComponents(v, k);
    WriteMaskedMeaning(neutral, v, mask, k);
  }

  /** The same of a quaternion: the delta is the identity where the mask is silent, and the result is the
      baseline turned by it. */
  lemma MaskedTurnExactly(root: real -> real, attr: SceneAttribute, v: AttributeValue, mask: seq<nat>, k: nat)
    returns (delta: Quat)
    requires attr.default.Quatf? && AllPassthrough(attr.chain) && k < 4
    ensures var r := UpdateValue(root, attr, v, Some(mask));
            && (r.Ok? <==> mask != [] && MaskReads(attr.default, v, mask))
            && (r.Ok? ==> r.value.Quatf? && TurnedBy(root, attr.default.quat, delta, r.value.quat))
            && (r.Ok? ==>
                  DeltaAt(v, mask, k, if k == 3 then 1.0 else 0.0, FourAt(delta.x, delta.y, delta.z, delta.w, k).value))
  {
    delta := attr.default.quat;
    MaskedUpdate(root, attr, v, mask);
    if mask != [] && MaskReads(attr.default, v, mask) {
      delta := WriteMasked(NeutralDelta(attr.default), v, mask).value.quat;
      DeltaComponent(NeutralDelta(attr.default), v, mask, k);
    }
  }

  /** n is c rounded, halves away from zero. */
  predicate Nearest(c: real, n: int) {
    if c >= 0.0 then n as real - 0.5 <= c < n as real + 0.5 else n as real - 0.5 < c <= n as real + 0.5
  }

  /** A number of this kind holds c: as it is, or for integers rounded and clipped. */
  ghost predicate Holds(c: real, d: AttributeValue) {
    match d
    case Float32(x) => x == c
    case Float64(x) => x == c
    case Int32(i) => exists n :: Nearest(c, n) && Clipped(n, i)
    case _ => false
  }

  predicate IsNumber(v: AttributeValue) {
    v.Float32? || v.Float64? || v.Int32?
  }

  lemma RoundIsNearest(c: real)
    ensures Nearest(c, Round(c))
  {
  }

  lemma SetScalarHolds(target: AttributeValue, c: real)
    requires IsNumber(target)
    ensures SetScalarValue(target, c).Ok? && SameKind(target, SetScalarValue(target, c).value)
    ensures Holds(c, SetScalarValue(target, c).value)
  {
    RoundIsNearest(c);
    if target.Int32? { assert Clipped(Round(c), SetScalarValue(target, c).value.int32); }
  }

  /** A masked update of a number takes the one component named out of a vector source and adds it. */
  lemma MaskedNumberExactly(root: real -> real, attr: SceneAttribute, v: AttributeValue, mask: seq<nat>)
    requires IsNumber(attr.default)
    requires AllPassthrough(attr.chain)
    ensures var r := UpdateValue(root, attr, v, Some(mask));
            if |mask| != 1 then r == Err(InvalidComponentMask)
            else if ComponentAt(v, mask[0]).None? then r == Err(UnsupportedTransform)
            else r.Ok? && exists d :: Holds(ComponentAt(v, mask[0]).value, d) && Adds(root, attr.default, d, r.value)
  {
    if |mask| == 1 {
      ComponentAtIsComponents(v, mask[0]);
      if ComponentAt(v, mask[0]).Some? {
        var c := ComponentAt(v, mask[0]).value;
        SetScalarHolds(attr.default, c);
        var d := SetScalarValue(attr.default, c).value;
        ComposeAdds(root, attr.default, d);
        PassthroughIsIdentity(attr.current, Compose(root, attr.default, d).value, attr.chain);
      }
    }
  }

  /** A matrix takes no mask. */
  lemma MaskRefused(root: real -> real, attr: SceneAttribute, v: AttributeValue, mask: seq<nat>)
    requires attr.default.Mat4f?
    ensures UpdateValue(root, attr, v, Some(mask)) ==
            Err(if mask == [] then InvalidComponentMask else UnsupportedTransform)
  {
  }

  /** Under a flag or trigger baseline a masked update writes the source over the current value. */
  lemma MaskedOverCurrent(root: real -> real, attr: SceneAttribute, v: AttributeValue, mask: seq<nat>, k: nat)
    requires !Relative(attr.default) && VectorLen(attr.current).Some? && AllPassthrough(attr.chain)
    ensures var r := UpdateValue(root, attr, v, Some(mask));
            && (r.Ok? <==> mask != [] && MaskReads(attr.current, v, mask))
            && (r.Ok? && ComponentAt(attr.current, k).Some? ==>
                  && ComponentAt(r.value, k).Some?
                  && DeltaAt(v, mask, k, ComponentAt(attr.current, k).value, ComponentAt(r.value, k).value))
  {
    WriteMaskedExactly(attr.current, v, mask);
    if mask != [] && MaskReads(attr.current, v, mask) {
      PassthroughIsIdentity(attr.current, WriteMasked(attr.current, v, mask).value, attr.chain);
      if ComponentAt(attr.current, k).Some? { DeltaComponent(attr.current, v, mask, k); }
    }
  }

  lemma MaskedNumberOverCurrent(root: real -> real, attr: SceneAttribute, v: AttributeValue, mask: seq<nat>)
    requires !Relative(attr.default) && VectorLen(attr.current).None? && AllPassthrough(attr.chain)
    ensures var r := UpdateValue(root, attr, v, Some(mask));
            if |mask| != 1 then r == Err(InvalidComponentMask)
            else if ComponentAt(v, mask[0]).None? || !IsNumber(attr.current) then r == Err(UnsupportedTransform)
            else r.Ok? && Holds(ComponentAt(v, mask[0]).value, r.value) && SameKind(attr.current, r.value)
  {
    if |mask| == 1 {
      ComponentAtIsComponents(v, mask[0]);
      if ComponentAt(v, mask[0]).Some? && IsNumber(attr.current) {
        var c := ComponentAt(v, mask[0]).value;
        SetScalarHolds(attr.current, c);
        PassthroughIsIdentity(attr.current, SetScalarValue(attr.current, c).value, attr.chain);
      }
    }
  }
}
