/** Masked delta transforms and relative composition: the pure half of `apply_updates`. */
module Transform {
  import opened Model

  function VectorLen(v: AttributeValue): Option<nat> {
    match v
    case Vec2f(_, _) => Some(2)
    case Vec3f(_, _, _) => Some(3)
    case Vec4f(_, _, _, _) => Some(4)
    case Quatf(_) => Some(4)
    case _ => None
  }

  function ScalarAsReal(v: AttributeValue): Option<real> {
    match v
    case Float32(r) => Some(r)
    case Float64(r) => Some(r)
    case Int32(i) => Some(i as real)
    case _ => None
  }

  /** The components of a vector-typed value, in index order; empty for every other type. */
  function Components(v: AttributeValue): seq<real> {
    match v
    case Vec2f(x, y) => [x, y]
    case Vec3f(x, y, z) => [x, y, z]
    case Vec4f(x, y, z, w) => [x, y, z, w]
    case Quatf(q) => [q.x, q.y, q.z, q.w]
    case _ => []
  }

  function VectorComponent(v: AttributeValue, index: nat): Option<real> {
    if index < |Components(v)| then Some(Components(v)[index]) else None
  }

  function SetVectorComponent(target: AttributeValue, index: nat, c: real): Result<AttributeValue, CoreError> {
    if VectorLen(target).None? then Err(UnsupportedTransform)
    else if VectorLen(target).value <= index then Err(InvalidComponentMask)
    else Ok(match target
            case Vec2f(x, y) => if index == 0 then Vec2f(c, y) else Vec2f(x, c)
            case Vec3f(x, y, z) =>
              if index == 0 then Vec3f(c, y, z) else if index == 1 then Vec3f(x, c, z) else Vec3f(x, y, c)
            case Vec4f(x, y, z, w) =>
              if index == 0 then Vec4f(c, y, z, w) else if index == 1 then Vec4f(x, c, z, w)
              else if index == 2 then Vec4f(x, y, c, w) else Vec4f(x, y, z, c)
            case Quatf(q) =>
              if index == 0 then Quatf(q.(x := c)) else if index == 1 then Quatf(q.(y := c))
              else if index == 2 then Quatf(q.(z := c)) else Quatf(q.(w := c))
            case _ => target)
  }

  /** `f32::round`: half away from zero. */
  function Round(r: real): int {
    if r >= 0.0 then (r + 0.5).Floor else -((0.5 - r).Floor)
  }

  /** The saturating conversion `as i32`, which `saturating_add` also ends with. */
  function SaturateI32(i: int): I32 {
    if i < I32_MIN then I32_MIN else if i > I32_MAX then I32_MAX else i
  }

  function SetScalarValue(target: AttributeValue, c: real): Result<AttributeValue, CoreError> {
    match target
    case Float32(_) => Ok(Float32(c))
    case Float64(_) => Ok(Float64(c))
    case Int32(_) => Ok(Int32(SaturateI32(Round(c))))
    case _ => Err(UnsupportedTransform)
  }

  /** What the mask loop reads from the source for component `index`: a scalar is broadcast. */
  function SourceComponent(source: AttributeValue, index: nat): Result<real, CoreError> {
    if ScalarAsReal(source).Some? then Ok(ScalarAsReal(source).value)
    else match VectorComponent(source, index)
      case Some(c) => Ok(c)
      case None => Err(UnsupportedTransform)
  }

  /** Specification of the mask loop: write the masked components in mask order. */
  function WriteMasked(target: AttributeValue, source: AttributeValue, mask: seq<nat>)
    : (r: Result<AttributeValue, CoreError>)
    ensures r.Ok? ==> TypeOf(r.value) == TypeOf(target)
    decreases mask
  {
    if mask == [] then Ok(target)
    else
      var c :- SourceComponent(source, mask[0]);
      var next :- SetVectorComponent(target, mask[0], c);
      WriteMasked(next, source, mask[1..])
  }

  method WriteComponents(target: AttributeValue, source: AttributeValue, mask: seq<nat>)
    returns (r: Result<AttributeValue, CoreError>)
    ensures r == WriteMasked(target, source, mask)
  {
    var transformed := target;
    for i := 0 to |mask|
      invariant WriteMasked(target, source, mask) == WriteMasked(transformed, source, mask[i..])
    {
      assert mask[i..][1..] == mask[i + 1..];
      var c :- SourceComponent(source, mask[i]);
      transformed :- SetVectorComponent(transformed, mask[i], c);
    }
    return Ok(transformed);
  }

  /** `apply_mapping_transform`: masked components go over the current value. */
  function ApplyMappingTransform(target: AttributeValue, source: AttributeValue,
                                 mask: Mask): Result<AttributeValue, CoreError>
  {
    match mask
    case None =>
      if TypeOf(target) != TypeOf(source) then Err(TypeMismatch(TypeOf(target), TypeOf(source))) else Ok(source)
    case Some(indices) =>
      if indices == [] then Err(InvalidComponentMask)
      else if VectorLen(target).Some? then WriteMasked(target, source, indices)
      else if |indices| != 1 then Err(InvalidComponentMask)
      else match VectorComponent(source, indices[0])
        case None => Err(UnsupportedTransform)
        case Some(c) => SetScalarValue(target, c)
  }

  function NeutralDelta(target: AttributeValue): AttributeValue
    requires VectorLen(target).Some?
  {
    match target
    case Vec2f(_, _) => Vec2f(0.0, 0.0)
    case Vec3f(_, _, _) => Vec3f(0.0, 0.0, 0.0)
    case Vec4f(_, _, _, _) => Vec4f(0.0, 0.0, 0.0, 0.0)
    case Quatf(_) => Quatf(IDENTITY_QUAT)
  }

  const IDENTITY_QUAT := Quat(0.0, 0.0, 0.0, 1.0)

  predicate IsScalarTarget(v: AttributeValue) {
    v.Int32? || v.Float32? || v.Float64?
  }

  predicate SupportsRelativeComposition(v: AttributeValue) {
    !v.Bool? && !v.Trigger?
  }

  /** `apply_mapping_delta_transform`: masked components go over the neutral delta. */
  function ApplyMappingDeltaTransform(baseline: AttributeValue, source: AttributeValue,
                                      mask: Mask): Result<AttributeValue, CoreError>
  {
    match mask
    case None =>
      if TypeOf(baseline) != TypeOf(source) then Err(TypeMismatch(TypeOf(baseline), TypeOf(source))) else Ok(source)
    case Some(indices) =>
      if indices == [] then Err(InvalidComponentMask)
      else if VectorLen(baseline).Some? then WriteMasked(NeutralDelta(baseline), source, indices)
      else if IsScalarTarget(baseline) then
        if |indices| != 1 then Err(InvalidComponentMask)
        else match VectorComponent(source, indices[0])
          case None => Err(UnsupportedTransform)
          case Some(c) => SetScalarValue(baseline, c)
      else Err(UnsupportedTransform)
  }

  /** `f32::EPSILON`. */
  const EPSILON: real := 1.0 / 8388608.0

  function HamiltonX(a: Quat, b: Quat): real { a.w * b.x + a.x * b.w + a.y * b.z - a.z * b.y }
  function HamiltonY(a: Quat, b: Quat): real { a.w * b.y - a.x * b.z + a.y * b.w + a.z * b.x }
  function HamiltonZ(a: Quat, b: Quat): real { a.w * b.z + a.x * b.y - a.y * b.x + a.z * b.w }
  function HamiltonW(a: Quat, b: Quat): real { a.w * b.w - a.x * b.x - a.y * b.y - a.z * b.z }

  function Hamilton(a: Quat, b: Quat): Quat {
    Quat(HamiltonX(a, b), HamiltonY(a, b), HamiltonZ(a, b), HamiltonW(a, b))
  }

  function NormSquared(q: Quat): real {
    q.x * q.x + q.y * q.y + q.z * q.z + q.w * q.w
  }

  /** `quat_multiply_normalized`; `root` is the platform's square root. */
  function QuatMultiplyNormalized(root: real -> real, base: Quat, delta: Quat): Quat {
    var q := Hamilton(base, delta);
    var norm := root(NormSquared(q));
    if norm <= EPSILON then base else Quat(q.x / norm, q.y / norm, q.z / norm, q.w / norm)
  }

  function Dot(u: seq<real>, v: seq<real>): real
    requires |u| == 4 && |v| == 4
  {
    u[0] * v[0] + u[1] * v[1] + u[2] * v[2] + u[3] * v[3]
  }

  function Column(m: Mat4, col: nat): seq<real>
    requires col < 4
  {
    [m[0][col], m[1][col], m[2][col], m[3][col]]
  }

  function Entry(a: Mat4, b: Mat4, row: nat, col: nat): real
    requires row < 4 && col < 4
  {
    Dot(a[row], Column(b, col))
  }

  function MatProduct(a: Mat4, b: Mat4): Mat4 {
    seq(4, row requires 0 <= row < 4 => seq(4, col requires 0 <= col < 4 => Entry(a, b, row, col)))
  }

  /** The innermost loop of `mat4_multiply`. */
  method SumEntry(base: Mat4, delta: Mat4, row: nat, col: nat) returns (sum: real)
    requires row < 4 && col < 4
    ensures sum == Entry(base, delta, row, col)
  {
    var terms: seq<real> := [];
    for k := 0 to 4
      invariant |terms| == k && forall j :: 0 <= j < k ==> terms[j] == base[row][j] * delta[j][col]
    {
      terms := terms + [base[row][k] * delta[k][col]];
    }
    sum := terms[0] + terms[1] + terms[2] + terms[3];
  }

  /** `mat4_multiply`: fill the output buffer entry by entry. */
  method Mat4Multiply(base: Mat4, delta: Mat4) returns (m: Mat4)
    ensures m == MatProduct(base, delta)
  {
    var out: Mat4 := seq(4, _ => [0.0, 0.0, 0.0, 0.0]);
    for row := 0 to 4
      invariant out[..row] == MatProduct(base, delta)[..row]
    {
      for col := 0 to 4
        invariant out[..row] == MatProduct(base, delta)[..row]
        invariant out[row][..col] == MatProduct(base, delta)[row][..col]
      {
        var sum := SumEntry(base, delta, row, col);
        out := out[row := out[row][col := sum]];
      }
      assert out[row] == MatProduct(base, delta)[row];
    }
    m := out;
  }

  /** `compose_relative_value`. */
  function Compose(root: real -> real, baseline: AttributeValue,
                   delta: AttributeValue): Result<AttributeValue, CoreError>
  {
    match (baseline, delta)
    case (Int32(b), Int32(d)) => Ok(Int32(SaturateI32(b + d)))
    case (Float32(b), Float32(d)) => Ok(Float32(b + d))
    case (Float64(b), Float64(d)) => Ok(Float64(b + d))
    case (Vec2f(x, y), Vec2f(dx, dy)) => Ok(Vec2f(x + dx, y + dy))
    case (Vec3f(x, y, z), Vec3f(dx, dy, dz)) => Ok(Vec3f(x + dx, y + dy, z + dz))
    case (Vec4f(x, y, z, w), Vec4f(dx, dy, dz, dw)) => Ok(Vec4f(x + dx, y + dy, z + dz, w + dw))
    case (Quatf(b), Quatf(d)) => Ok(Quatf(QuatMultiplyNormalized(root, b, d)))
    case (Mat4f(b), Mat4f(d)) => Ok(Mat4f(MatProduct(b, d)))
    case _ => Err(TypeMismatch(TypeOf(baseline), TypeOf(delta)))
  }

  /** The value `apply_updates` hands to the filter chain. */
  function Transformed(root: real -> real, attr: SceneAttribute, source: AttributeValue,
                       mask: Mask): Result<AttributeValue, CoreError>
  {
    if SupportsRelativeComposition(attr.default) then
      var delta :- ApplyMappingDeltaTransform(attr.default, source, mask);
      Compose(root, attr.default, delta)
    else
      ApplyMappingTransform(attr.current, source, mask)
  }

  /** The same, with the mask and matrix loops run as loops. */
  method ComputeTransformed(root: real -> real, attr: SceneAttribute, source: AttributeValue, mask: Mask)
    returns (r: Result<AttributeValue, CoreError>)
    ensures r == Transformed(root, attr, source, mask)
  {
    var masked := mask.Some? && mask.value != [];
    if SupportsRelativeComposition(attr.default) {
      var delta;
      if masked && VectorLen(attr.default).Some? {
        delta :- WriteComponents(NeutralDelta(attr.default), source, mask.value);
      } else {
        delta :- ApplyMappingDeltaTransform(attr.default, source, mask);
      }
      if attr.default.Mat4f? && delta.Mat4f? {
        var product := Mat4Multiply(attr.default.mat, delta.mat);
        return Ok(Mat4f(product));
      }
      return Compose(root, attr.default, delta);
    } else if masked && VectorLen(attr.current).Some? {
      r := WriteComponents(attr.current, source, mask.value);
    } else {
      return ApplyMappingTransform(attr.current, source, mask);
    }
  }

  // ----- Component masks -----

  /** The masks `validate_component_mask` accepts for a target currently holding `target`. */
  ghost predicate MaskFits(target: AttributeValue, mask: Mask) {
    mask.Some? ==>
      && mask.value != []
      && !target.Mat4f?
      && (VectorLen(target).Some? ==>
            && (forall i :: 0 <= i < |mask.value| ==> mask.value[i] < VectorLen(target).value)
            && (forall i, j :: 0 <= i < j < |mask.value| ==> mask.value[i] != mask.value[j]))
      && (VectorLen(target).None? ==> |mask.value| == 1)
  }

  method ValidateComponentMask(target: AttributeValue, mask: Mask) returns (ok: bool)
    ensures ok <==> MaskFits(target, mask)
  {
    if mask.None? { return true; }
    var indices := mask.value;
    if indices == [] || target.Mat4f? { return false; }
    if VectorLen(target).None? { return |indices| == 1; }
    var seen: set<nat> := {};
    for i := 0 to |indices|
      invariant forall k :: k in seen <==> exists j :: 0 <= j < i && indices[j] == k
      invariant forall j :: 0 <= j < i ==> indices[j] < VectorLen(target).value
      invariant forall j, k :: 0 <= j < k < i ==> indices[j] != indices[k]
    {
      if indices[i] >= VectorLen(target).value || indices[i] in seen { return false; }
      seen := seen + {indices[i]};
    }
    return true;
  }

  lemma ComposeTotal(root: real -> real, b: AttributeValue, d: AttributeValue)
    requires SupportsRelativeComposition(b) && TypeOf(b) == TypeOf(d)
    ensures Compose(root, b, d).Ok? && TypeOf(Compose(root, b, d).value) == TypeOf(b)
  {
  }

  /** The only errors a transform reports when its mask fits a target of this type. */
  ghost predicate OnlySourceErrors(r: Result<AttributeValue, CoreError>, target: AttributeValue, source: AttributeValue,
                                   mask: Mask)
  {
    if r.Ok? then TypeOf(r.value) == TypeOf(target)
    else r.error == UnsupportedTransform || (mask.None? && r.error == TypeMismatch(TypeOf(target), TypeOf(source)))
  }

  lemma DeltaSound(baseline: AttributeValue, source: AttributeValue, mask: Mask)
    requires MaskFits(baseline, mask)
    ensures OnlySourceErrors(ApplyMappingDeltaTransform(baseline, source, mask), baseline, source, mask)
  {
    if mask.Some? && VectorLen(baseline).Some? { WriteMaskedSound(NeutralDelta(baseline), source, mask.value); }
  }

  lemma AbsoluteSound(current: AttributeValue, source: AttributeValue, mask: Mask)
    requires MaskFits(current, mask)
    ensures OnlySourceErrors(ApplyMappingTransform(current, source, mask), current, source, mask)
  {
    if mask.Some? && VectorLen(current).Some? { WriteMaskedSound(current, source, mask.value); }
  }

  /** Whatever the mask, a transform that succeeds keeps the attribute's type. */
  lemma TransformedType(root: real -> real, attr: SceneAttribute, source: AttributeValue, mask: Mask)
    requires TypeOf(attr.default) == TypeOf(attr.current) && Transformed(root, attr, source, mask).Ok?
    ensures TypeOf(Transformed(root, attr, source, mask).value) == TypeOf(attr.default)
  {
    if SupportsRelativeComposition(attr.default) {
      ComposeTotal(root, attr.default, ApplyMappingDeltaTransform(attr.default, source, mask).value);
    }
  }

  lemma MaskFitsByType(v: AttributeValue, w: AttributeValue, mask: Mask)
    requires TypeOf(v) == TypeOf(w)
    ensures MaskFits(v, mask) == MaskFits(w, mask)
  {
  }

  /** A mask that fits never reports `InvalidComponentMask`, the value handed to the filters keeps
      the attribute's type, and composition never sees two types. */
  lemma TransformedSound(root: real -> real, attr: SceneAttribute, source: AttributeValue, mask: Mask)
    requires TypeOf(attr.default) == TypeOf(attr.current)
    requires MaskFits(attr.current, mask)
    ensures OnlySourceErrors(Transformed(root, attr, source, mask), attr.default, source, mask)
    ensures SupportsRelativeComposition(attr.default) ==>
              var delta := ApplyMappingDeltaTransform(attr.default, source, mask);
              delta.Ok? ==> Compose(root, attr.default, delta.value).Ok?
  {
    if SupportsRelativeComposition(attr.default) {
      DeltaSound(attr.default, source, mask);
      var delta := ApplyMappingDeltaTransform(attr.default, source, mask);
      if delta.Ok? { ComposeTotal(root, attr.default, delta.value); }
    } else {
      AbsoluteSound(attr.current, source, mask);
    }
  }

  lemma {:induction false} WriteMaskedSound(target: AttributeValue, source: AttributeValue, mask: seq<nat>)
    requires VectorLen(target).Some?
    requires forall i :: 0 <= i < |mask| ==> mask[i] < VectorLen(target).value
    ensures WriteMasked(target, source, mask).Err? ==> WriteMasked(target, source, mask).error == UnsupportedTransform
    decreases mask
  {
    if mask != [] && SourceComponent(source, mask[0]).Ok? {
      WriteMaskedSound(SetVectorComponent(target, mask[0], SourceComponent(source, mask[0]).value).value, source,
                       mask[1..]);
    }
  }

  /** What a mask means: masked components come from the source, the others stay. */
  lemma {:induction false} WriteMaskedMeaning(target: AttributeValue, source: AttributeValue, mask: seq<nat>, k: nat)
    requires WriteMasked(target, source, mask).Ok?
    requires VectorLen(target).Some? && k < VectorLen(target).value
    ensures var r := Components(WriteMasked(target, source, mask).value);
            && |r| == VectorLen(target).value
            && (k in mask ==> SourceComponent(source, k) == Ok(r[k]))
            && (k !in mask ==> r[k] == Components(target)[k])
    decreases mask
  {
    if mask != [] {
      var c := SourceComponent(source, mask[0]).value;
      var next := SetVectorComponent(target, mask[0], c).value;
      WriteMaskedMeaning(next, source, mask[1..], k);
      assert k in mask <==> k == mask[0] || k in mask[1..];
    }
  }
}
