/** The re-basing law of relative composition, type by type. */
module Rebasing {
  import opened Model
  import opened Transform
  import opened Algebra
  import opened Quaternions

  predicate InI32(i: int) {
    I32_MIN <= i <= I32_MAX
  }

  /** Exactly when saturating integer composition may be re-based: no intermediate sum saturates
      and is then pulled back by an operand of the opposite sign. */
  predicate IntRebases(b: I32, d1: I32, d2: I32) {
    && (b + d1 > I32_MAX ==> d2 >= 0) && (b + d1 < I32_MIN ==> d2 <= 0)
    && (d1 + d2 > I32_MAX ==> b >= 0) && (d1 + d2 < I32_MIN ==> b <= 0)
  }

  lemma IntRebaseExactly(b: I32, d1: I32, d2: I32)
    ensures IntRebases(b, d1, d2)
       <==> SaturateI32(SaturateI32(b + d1) + d2) == SaturateI32(b + SaturateI32(d1 + d2))
    ensures InI32(b + d1) && InI32(d1 + d2) ==> IntRebases(b, d1, d2)
  {
  }

  /** Integers and quaternions have their conditions; every other type may always be re-based. */
  predicate Rebasable(root: real -> real, b: AttributeValue, d1: AttributeValue, d2: AttributeValue)
    requires TypeOf(b) == TypeOf(d1) == TypeOf(d2)
  {
    && (b.Int32? ==> IntRebases(b.int32, d1.int32, d2.int32))
    && (b.Quatf? ==> QuatRebases(root, b.quat, d1.quat, d2.quat))
  }

  predicate IsSummed(v: AttributeValue) {
    v.Float32? || v.Float64? || v.Vec2f? || v.Vec3f? || v.Vec4f?
  }

  lemma SumsAssociate(root: real -> real, b: AttributeValue, d1: AttributeValue, d2: AttributeValue)
    requires TypeOf(b) == TypeOf(d1) == TypeOf(d2) && IsSummed(b)
    ensures Compose(root, b, d1).Ok? && Compose(root, d1, d2).Ok?
    ensures Compose(root, Compose(root, b, d1).value, d2) == Compose(root, b, Compose(root, d1, d2).value)
  {
  }

  /** Composing onto the composed value equals composing the composed deltas exactly when `Rebasable`. */
  lemma ComposeAssociative(root: real -> real, b: AttributeValue, d1: AttributeValue, d2: AttributeValue)
    requires TypeOf(b) == TypeOf(d1) == TypeOf(d2) && SupportsRelativeComposition(b)
    requires d1.Quatf? ==> GenuineRoot(root)
    ensures Compose(root, b, d1).Ok? && Compose(root, d1, d2).Ok?
    ensures Compose(root, Compose(root, b, d1).value, d2) == Compose(root, b, Compose(root, d1, d2).value)
       <==> Rebasable(root, b, d1, d2)
  {
    if b.Quatf? {
      QuatRebaseExactly(root, b.quat, d1.quat, d2.quat);
    } else if b.Mat4f? {
      MatAssociative(b.mat, d1.mat, d2.mat);
    } else if b.Int32? {
      IntRebaseExactly(b.int32, d1.int32, d2.int32);
    } else {
      SumsAssociate(root, b, d1, d2);
    }
  }

  /** Unit quaternions never fall back, so all that is asked of the root is that of one. */
  lemma UnitAssociative(root: real -> real, b: Quat, d1: Quat, d2: Quat)
    requires IsUnit(b) && IsUnit(d1) && IsUnit(d2) && root(1.0) == 1.0
    ensures Split(root, b, d1, d2) == Joint(root, b, d1, d2)
  {
    UnitRegular(root, b, d1);
    UnitRegular(root, d1, d2);
    UnitRegular(root, QuatMultiplyNormalized(root, b, d1), d2);
    UnitRegular(root, b, QuatMultiplyNormalized(root, d1, d2));
    QuatRebase(root, b, d1, d2);
  }
}
