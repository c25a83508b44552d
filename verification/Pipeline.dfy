/** Laws of the update pipeline seen from one attribute: re-basing, absence of drift, smoothing. */
module Pipeline {
  import opened Model
  import opened Transform
  import opened Quaternions
  import opened Rebasing
  import opened Filters
  import opened RuntimeSpec
  import opened Attributes
  import opened Batches

  // ----- The history of one attribute -----

  datatype Feeding = Feeding(value: AttributeValue, mask: Mask)

  function FedBy(root: real -> real, attr: SceneAttribute, f: Feeding): SceneAttribute {
    var v := UpdateValue(root, attr, f.value, f.mask);
    if attr.live && v.Ok? then attr.(current := v.value) else attr
  }

  function FedAll(root: real -> real, attr: SceneAttribute, fs: seq<Feeding>): SceneAttribute
    decreases fs
  {
    if fs == [] then attr else FedAll(root, FedBy(root, attr, fs[0]), fs[1..])
  }

  /** What a batch sends to `a`, up to the update it fails on. */
  function FeedsTo(c: Context, scenes: map<Uuid, Scene>, us: seq<AttributeUpdate>, a: Address): seq<Feeding>
    decreases us
  {
    if us == [] then []
    else
      var i := RouteOf(c.mappings, c.scene, c.device, us[0].output);
      if i == |c.mappings| then []
      else
        var first := ApplyOne(c, scenes, us[0]);
        var here := if c.mappings[i].target == a then [Feeding(us[0].value, c.mappings[i].mask)] else [];
        here + if first.result.Ok? then FeedsTo(c, first.scenes, us[1..], a) else []
  }

  lemma {:induction false} FedConcat(root: real -> real, attr: SceneAttribute, fs: seq<Feeding>, gs: seq<Feeding>)
    ensures FedAll(root, attr, fs + gs) == FedAll(root, FedAll(root, attr, fs), gs)
    decreases fs
  {
    if fs == [] {
      assert fs + gs == gs;
    } else {
      assert (fs + gs)[1..] == fs[1..] + gs;
      FedConcat(root, FedBy(root, attr, fs[0]), fs[1..], gs);
    }
  }

  lemma {:induction false} BatchIsFeeds(c: Context, scenes: map<Uuid, Scene>, us: seq<AttributeUpdate>, a: Address)
    requires GetAttr(scenes, a).Ok?
    ensures GetAttr(ApplyAll(c, scenes, us).scenes, a)
            == Ok(FedAll(c.root, GetAttr(scenes, a).value, FeedsTo(c, scenes, us, a)))
    decreases us
  {
    if us != [] {
      var i := RouteOf(c.mappings, c.scene, c.device, us[0].output);
      if i < |c.mappings| {
        var m, attr := c.mappings[i], GetAttr(scenes, a).value;
        var here := if m.target == a then [Feeding(us[0].value, m.mask)] else [];
        var first := ApplyOne(c, scenes, us[0]);
        FeedFrame(c.root, scenes, m.target, m.mask, us[0].value, a);
        assert GetAttr(first.scenes, a) == Ok(FedAll(c.root, attr, here));
        if first.result.Ok? {
          BatchIsFeeds(c, first.scenes, us[1..], a);
          FedConcat(c.root, attr, here, FeedsTo(c, first.scenes, us[1..], a));
        } else {
          assert here + [] == here;
        }
      }
    }
  }

  /** The step may feed `a` but neither reloads, resets nor commits it. */
  predicate Quiet(op: Op, a: Address) {
    && !(op.OpLoadScene? && op.scene.id == a.scene)
    && !(op.OpRebase? && op.id == a.scene)
    && !(op.OpCommitObject? && op.id == a.scene && op.obj == a.obj)
  }

  function StepFeeds(s: Runtime, op: Op, a: Address): seq<Feeding> {
    if op.OpApply? && s.mode != Idle && s.activeScene.Some?
    then FeedsTo(Context(Beaten(s.mappings, op.device, op.now), s.activeScene.value, op.device, s.root), s.scenes,
                 op.updates, a)
    else []
  }

  ghost function RunFeeds(s: Runtime, ops: seq<Op>, a: Address): seq<Feeding>
    decreases ops
  {
    if ops == [] then [] else StepFeeds(s, ops[0], a) + RunFeeds(Step(s, ops[0]), ops[1..], a)
  }

  lemma StepIsFeeds(s: Runtime, op: Op, a: Address)
    requires Quiet(op, a) && GetAttr(s.scenes, a).Ok?
    ensures GetAttr(Step(s, op).scenes, a) == Ok(FedAll(s.root, GetAttr(s.scenes, a).value, StepFeeds(s, op, a)))
  {
    if op.OpApply? && s.mode != Idle && s.activeScene.Some? {
      BatchIsFeeds(Context(Beaten(s.mappings, op.device, op.now), s.activeScene.value, op.device, s.root), s.scenes,
                   op.updates, a);
    }
  }

  /** Between reloads, resets and commits an attribute is the fold of what was sent to it. */
  lemma {:induction false} RunIsFeeds(s: Runtime, ops: seq<Op>, a: Address)
    requires GetAttr(s.scenes, a).Ok? && forall i :: 0 <= i < |ops| ==> Quiet(ops[i], a)
    ensures GetAttr(Run(s, ops).scenes, a) == Ok(FedAll(s.root, GetAttr(s.scenes, a).value, RunFeeds(s, ops, a)))
    decreases ops
  {
    if ops != [] {
      StepIsFeeds(s, ops[0], a);
      StepKeepsConfig(s, ops[0]);
      var s' := Step(s, ops[0]);
      RunIsFeeds(s', ops[1..], a);
      FedConcat(s.root, GetAttr(s.scenes, a).value, StepFeeds(s, ops[0], a), RunFeeds(s', ops[1..], a));
    }
  }

  // ----- No drift -----

  /** A chain that never looks at the previous value. */
  predicate Memoryless(chain: seq<AttributeFilter>) {
    forall i :: 0 <= i < |chain| ==> chain[i].Passthrough? || chain[i].Clamp?
  }

  lemma {:induction false} MemorylessIgnoresPrevious(p: AttributeValue, q: AttributeValue, v: AttributeValue,
                                                     chain: seq<AttributeFilter>)
    requires Memoryless(chain)
    ensures ApplyFilters(p, v, chain) == ApplyFilters(q, v, chain)
    decreases chain
  {
    if chain != [] { MemorylessIgnoresPrevious(p, q, ApplyFilter(p, v, chain[0]), chain[1..]); }
  }

  ghost predicate DriftFree(attr: SceneAttribute) {
    attr.live && SupportsRelativeComposition(attr.default) && Memoryless(attr.chain)
  }

  lemma UpdateIgnoresCurrent(root: real -> real, attr: SceneAttribute, current: AttributeValue, f: Feeding)
    requires DriftFree(attr)
    ensures UpdateValue(root, attr.(current := current), f.value, f.mask) == UpdateValue(root, attr, f.value, f.mask)
  {
    var t := Transformed(root, attr, f.value, f.mask);
    if t.Ok? { MemorylessIgnoresPrevious(attr.current, current, t.value, attr.chain); }
  }

  /** The last thing sent that the pipeline accepts. */
  function LastAccepted(root: real -> real, attr: SceneAttribute, fs: seq<Feeding>): Option<Feeding>
    decreases fs
  {
    if fs == [] then None
    else if LastAccepted(root, attr, fs[1..]).Some? then LastAccepted(root, attr, fs[1..])
    else if UpdateValue(root, attr, fs[0].value, fs[0].mask).Ok? then Some(fs[0])
    else None
  }

  lemma {:induction false} LastAcceptedIgnoresCurrent(root: real -> real, attr: SceneAttribute, current: AttributeValue,
                                                      fs: seq<Feeding>)
    requires DriftFree(attr)
    ensures LastAccepted(root, attr.(current := current), fs) == LastAccepted(root, attr, fs)
    decreases fs
  {
    if fs != [] {
      LastAcceptedIgnoresCurrent(root, attr, current, fs[1..]);
      UpdateIgnoresCurrent(root, attr, current, fs[0]);
    }
  }

  ghost predicate Decided(root: real -> real, attr: SceneAttribute, fs: seq<Feeding>, v: AttributeValue) {
    match LastAccepted(root, attr, fs)
    case None => v == attr.current
    case Some(f) => Ok(v) == UpdateValue(root, attr, f.value, f.mask)
  }

  lemma {:induction false} FedDecided(root: real -> real, attr: SceneAttribute, fs: seq<Feeding>)
    requires DriftFree(attr)
    ensures Decided(root, attr, fs, FedAll(root, attr, fs).current)
    decreases fs
  {
    if fs != [] {
      var next := FedBy(root, attr, fs[0]);
      FedDecided(root, next, fs[1..]);
      LastAcceptedIgnoresCurrent(root, attr, next.current, fs[1..]);
      var last := LastAccepted(root, attr, fs[1..]);
      if last.Some? { UpdateIgnoresCurrent(root, attr, next.current, last.value); }
    }
  }

  /** No drift: with a memoryless chain the value after any run of updates is the one the last
      accepted update alone gives on the baseline. */
  lemma NoDrift(s: Runtime, ops: seq<Op>, a: Address)
    requires GetAttr(s.scenes, a).Ok? && DriftFree(GetAttr(s.scenes, a).value)
    requires forall i :: 0 <= i < |ops| ==> Quiet(ops[i], a)
    ensures GetAttr(Run(s, ops).scenes, a).Ok?
    ensures Decided(s.root, GetAttr(s.scenes, a).value, RunFeeds(s, ops, a),
                    GetAttr(Run(s, ops).scenes, a).value.current)
  {
    RunIsFeeds(s, ops, a);
    FedDecided(s.root, GetAttr(s.scenes, a).value, RunFeeds(s, ops, a));
  }

  /** What a mask leaves out returns to the baseline, whatever was there before; what it names is
      the baseline plus the source. */
  lemma UnmaskedReturnsToBaseline(root: real -> real, attr: SceneAttribute, v: AttributeValue, mask: seq<nat>, k: nat)
    requires attr.default.Vec2f? || attr.default.Vec3f? || attr.default.Vec4f?
    requires k < VectorLen(attr.default).value && Transformed(root, attr, v, Some(mask)).Ok?
    ensures var base, now := Components(attr.default), Components(Transformed(root, attr, v, Some(mask)).value);
            && |now| == |base|
            && (k !in mask ==> now[k] == base[k])
            && (k in mask ==> SourceComponent(v, k).Ok? && now[k] == base[k] + SourceComponent(v, k).value)
  {
    WriteMaskedMeaning(NeutralDelta(attr.default), v, mask, k);
  }

  /** On a quaternion target the mask leaves the identity's components in the delta, and the result is
      the baseline turned by that delta. */
  lemma MaskedRotation(root: real -> real, attr: SceneAttribute, v: AttributeValue, mask: seq<nat>, k: nat)
    requires attr.default.Quatf? && k < 4 && Transformed(root, attr, v, Some(mask)).Ok?
    ensures var delta := ApplyMappingDeltaTransform(attr.default, v, Some(mask));
            && delta.Ok? && delta.value.Quatf?
            && Transformed(root, attr, v, Some(mask))
                 == Ok(Quatf(QuatMultiplyNormalized(root, attr.default.quat, delta.value.quat)))
            && (k !in mask ==> Components(delta.value)[k] == Components(Quatf(IDENTITY_QUAT))[k])
            && (k in mask ==> SourceComponent(v, k) == Ok(Components(delta.value)[k]))
  {
    WriteMaskedMeaning(NeutralDelta(attr.default), v, mask, k);
  }

  // ----- Smoothing -----

  function Power(x: real, n: nat): real {
    if n == 0 then 1.0 else x * Power(x, n - 1)
  }

  function Toward(x: real, v: real, share: real): real {
    x + share * (v - x)
  }

  lemma MixToward(a: real, x: real, v: real, p: real, q: real)
    requires q == (1.0 - a) * p
    ensures Mix(a, x, Toward(x, v, p)) == Toward(x, v, q)
  {
    var d := v - x;
    assert (1.0 - a) * (p * d) == ((1.0 - a) * p) * d;
    assert (1.0 - a) * (x + p * d) == (1.0 - a) * x + (1.0 - a) * (p * d);
    assert a * x + (1.0 - a) * x == x;
  }

  /** Each filterable component has moved from v to within `share` of its distance to x. */
  function TowardValue(x: AttributeValue, v: AttributeValue, share: real): AttributeValue {
    match (x, v)
    case (Float32(x), Float32(v)) => Float32(Toward(x, v, share))
    case (Float64(x), Float64(v)) => Float64(Toward(x, v, share))
    case (Vec3f(x, y, z), Vec3f(u, v, w)) => Vec3f(Toward(x, u, share), Toward(y, v, share), Toward(z, w, share))
    case _ => x
  }

  lemma BlendToward(a: real, x: AttributeValue, v: AttributeValue, p: real, q: real)
    requires x.Float32? || x.Float64? || x.Vec3f?
    requires TypeOf(x) == TypeOf(v) && q == (1.0 - a) * p
    ensures Blend(TowardValue(x, v, p), x, a) == TowardValue(x, v, q)
  {
    if x.Float32? {
      MixToward(a, x.f32, v.f32, p, q);
    } else if x.Float64? {
      MixToward(a, x.f64, v.f64, p, q);
    } else {
      MixToward(a, x.x, v.x, p, q); MixToward(a, x.y, v.y, p, q); MixToward(a, x.z, v.z, p, q);
    }
  }

  lemma TowardStart(x: AttributeValue, v: AttributeValue)
    requires x.Float32? || x.Float64? || x.Vec3f?
    requires TypeOf(x) == TypeOf(v)
    ensures TowardValue(x, v, 1.0) == v
  {
  }

  function Repeat(f: Feeding, n: nat): seq<Feeding> {
    seq(n, _ => f)
  }

  lemma RepeatNext(f: Feeding, n: nat)
    requires n > 0
    ensures Repeat(f, n) == Repeat(f, n - 1) + [f]
  {
  }

  /** A single Ema fed n times with one input: the distance to the composed target x shrinks by
      1 - alpha each time, x + (1 - alpha)^n (v - x). */
  lemma {:induction false} EmaConverges(root: real -> real, attr: SceneAttribute, f: Feeding, n: nat, alpha: real,
                                        x: AttributeValue)
    requires attr.live && attr.chain == [Ema(alpha)]
    requires SupportsRelativeComposition(attr.default) && Transformed(root, attr, f.value, f.mask) == Ok(x)
    requires (x.Float32? || x.Float64? || x.Vec3f?) && TypeOf(x) == TypeOf(attr.current)
    ensures FedAll(root, attr, Repeat(f, n)) ==
            attr.(current := TowardValue(x, attr.current, Power(1.0 - ClampReal(alpha, 0.0, 1.0), n)))
    decreases n
  {
    if n == 0 {
      TowardStart(x, attr.current);
    } else {
      EmaConverges(root, attr, f, n - 1, alpha, x);
      RepeatNext(f, n);
      FedConcat(root, attr, Repeat(f, n - 1), [f]);
      var before := FedAll(root, attr, Repeat(f, n - 1));
      var a := ClampReal(alpha, 0.0, 1.0);
      EmaOnce(root, before, f, alpha, x);
      BlendToward(a, x, attr.current, Power(1.0 - a, n - 1), Power(1.0 - a, n));
    }
  }

  lemma EmaOnce(root: real -> real, attr: SceneAttribute, f: Feeding, alpha: real, x: AttributeValue)
    requires attr.live && attr.chain == [Ema(alpha)] && Transformed(root, attr, f.value, f.mask) == Ok(x)
    ensures FedAll(root, attr, [f]) == attr.(current := Blend(attr.current, x, ClampReal(alpha, 0.0, 1.0)))
  {
    assert attr.chain[0] == Ema(alpha) && attr.chain[1..] == [];
    assert UpdateValue(root, attr, f.value, f.mask) == Ok(ApplyFilters(attr.current, x, attr.chain));
    assert ApplyFilters(attr.current, x, attr.chain)
           == ApplyFilters(attr.current, ApplyEma(attr.current, x, alpha), []);
    assert [f][1..] == [];
    assert FedAll(root, attr, [f]) == FedAll(root, FedBy(root, attr, f), []);
  }

  /** The same over runs: when all that reaches an attribute is one input, n times, it has moved to
      within (1 - alpha)^n of its distance to the composed target. */
  lemma EmaConvergesRun(s: Runtime, ops: seq<Op>, a: Address, f: Feeding, n: nat, alpha: real, x: AttributeValue)
    requires GetAttr(s.scenes, a).Ok? && forall i :: 0 <= i < |ops| ==> Quiet(ops[i], a)
    requires RunFeeds(s, ops, a) == Repeat(f, n)
    requires var attr := GetAttr(s.scenes, a).value;
             && attr.live && attr.chain == [Ema(alpha)] && SupportsRelativeComposition(attr.default)
             && Transformed(s.root, attr, f.value, f.mask) == Ok(x)
             && (x.Float32? || x.Float64? || x.Vec3f?) && TypeOf(x) == TypeOf(attr.current)
    ensures var attr := GetAttr(s.scenes, a).value;
            var share := Power(1.0 - ClampReal(alpha, 0.0, 1.0), n);
            GetAttr(Run(s, ops).scenes, a) == Ok(attr.(current := TowardValue(x, attr.current, share)))
  {
    RunIsFeeds(s, ops, a);
    EmaConverges(s.root, GetAttr(s.scenes, a).value, f, n, alpha, x);
  }

  // ----- Re-basing -----

  predicate AllPassthrough(chain: seq<AttributeFilter>) {
    forall i :: 0 <= i < |chain| ==> chain[i].Passthrough?
  }

  lemma {:induction false} PassthroughIsIdentity(p: AttributeValue, v: AttributeValue, chain: seq<AttributeFilter>)
    requires AllPassthrough(chain)
    ensures ApplyFilters(p, v, chain) == v
    decreases chain
  {
    if chain != [] { PassthroughIsIdentity(p, v, chain[1..]); }
  }

  lemma PlainUpdate(root: real -> real, attr: SceneAttribute, d: AttributeValue)
    requires SupportsRelativeComposition(attr.default) && TypeOf(attr.default) == TypeOf(d)
             && AllPassthrough(attr.chain)
    ensures UpdateValue(root, attr, d, None) == Compose(root, attr.default, d) && Compose(root, attr.default, d).Ok?
  {
    ComposeTotal(root, attr.default, d);
    PassthroughIsIdentity(attr.current, Compose(root, attr.default, d).value, attr.chain);
  }

  /** d1, commit, d2 next to the composed delta on the original baseline. */
  function SplitUpdate(root: real -> real, attr: SceneAttribute, d1: AttributeValue, d2: AttributeValue): AttributeValue
  {
    FedBy(root, CommitAttr(FedBy(root, attr, Feeding(d1, None))), Feeding(d2, None)).current
  }

  function JointUpdate(root: real -> real, attr: SceneAttribute, d12: AttributeValue): AttributeValue {
    FedBy(root, attr, Feeding(d12, None)).current
  }

  /** A relative, unfiltered attribute, two deltas of its type and their composition. */
  predicate Deltas(root: real -> real, attr: SceneAttribute, d1: AttributeValue, d2: AttributeValue,
                   d12: AttributeValue)
  {
    && attr.live && AllPassthrough(attr.chain) && SupportsRelativeComposition(attr.default)
    && TypeOf(attr.default) == TypeOf(d1) == TypeOf(d2) && Compose(root, d1, d2) == Ok(d12)
  }

  lemma UpdatesAreCompositions(root: real -> real, attr: SceneAttribute, d1: AttributeValue, d2: AttributeValue,
                               d12: AttributeValue)
    requires Deltas(root, attr, d1, d2, d12)
    ensures Compose(root, attr.default, d1).Ok?
    ensures Ok(SplitUpdate(root, attr, d1, d2)) == Compose(root, Compose(root, attr.default, d1).value, d2)
    ensures Ok(JointUpdate(root, attr, d12)) == Compose(root, attr.default, d12)
  {
    ComposeTotal(root, attr.default, d1);
    ComposeTotal(root, d1, d2);
    PlainUpdate(root, attr, d1);
    PlainUpdate(root, CommitAttr(FedBy(root, attr, Feeding(d1, None))), d2);
    PlainUpdate(root, attr, d12);
  }

  /** d1, commit, d2 gives what the composed delta gives on the original baseline exactly when
      `Rebasable`: always, except for saturating integers and for quaternions of next to no magnitude. */
  lemma RebaseLaw(root: real -> real, attr: SceneAttribute, d1: AttributeValue, d2: AttributeValue, d12: AttributeValue)
    requires Deltas(root, attr, d1, d2, d12) && (d1.Quatf? ==> GenuineRoot(root))
    ensures SplitUpdate(root, attr, d1, d2) == JointUpdate(root, attr, d12) <==> Rebasable(root, attr.default, d1, d2)
  {
    UpdatesAreCompositions(root, attr, d1, d2, d12);
    ComposeAssociative(root, attr.default, d1, d2);
  }

  ghost predicate UnitDeltas(root: real -> real, attr: SceneAttribute, d1: AttributeValue, d2: AttributeValue) {
    && root(1.0) == 1.0 && attr.default.Quatf? && d1.Quatf? && d2.Quatf?
    && IsUnit(attr.default.quat) && IsUnit(d1.quat) && IsUnit(d2.quat)
  }

  lemma UnitRebaseLaw(root: real -> real, attr: SceneAttribute, d1: AttributeValue, d2: AttributeValue,
                      d12: AttributeValue)
    requires Deltas(root, attr, d1, d2, d12) && UnitDeltas(root, attr, d1, d2)
    ensures SplitUpdate(root, attr, d1, d2) == JointUpdate(root, attr, d12)
  {
    UpdatesAreCompositions(root, attr, d1, d2, d12);
    UnitAssociative(root, attr.default.quat, d1.quat, d2.quat);
  }

  /** The device's `output` reaches `a` unmasked. */
  ghost predicate Feeds(s: Runtime, d: Uuid, output: string, a: Address) {
    && s.mode != Idle && s.activeScene == Some(a.scene) && GetAttr(s.scenes, a).Ok?
    && var i := RouteOf(s.mappings, a.scene, d, output);
       i < |s.mappings| && s.mappings[i].target == a && s.mappings[i].mask == None
  }

  lemma ApplySingle(s: Runtime, d: Uuid, output: string, v: AttributeValue, now: nat, a: Address)
    requires Feeds(s, d, output, a)
    ensures var t := ApplyUpdates(s, d, [AttributeUpdate(output, v)], now).0;
            && GetAttr(t.scenes, a) == Ok(FedBy(s.root, GetAttr(s.scenes, a).value, Feeding(v, None)))
            && Feeds(t, d, output, a) && t.root == s.root
  {
    var u := AttributeUpdate(output, v);
    var c := Context(Beaten(s.mappings, d, now), a.scene, d, s.root);
    RouteIgnoresLease(s.mappings, d, now, a.scene, d, output);
    FeedFrame(s.root, s.scenes, a, None, v, a);
    assert ApplyAll(c, s.scenes, [u]).scenes == ApplyOne(c, s.scenes, u).scenes by {
      assert [u][1..] == [];
    }
  }

  // ----- Two devices on one target -----

  lemma FeedsStays(s: Runtime, d: Uuid, output: string, v: AttributeValue, now: nat, e: Uuid, other: string, a: Address)
    requires Feeds(s, e, other, a)
    ensures Feeds(ApplyUpdates(s, d, [AttributeUpdate(output, v)], now).0, e, other, a)
  {
    var c := Context(Beaten(s.mappings, d, now), a.scene, d, s.root);
    RouteIgnoresLease(s.mappings, d, now, a.scene, e, other);
    BatchFrame(c, s.scenes, [AttributeUpdate(output, v)], a);
  }

  /** The attribute at `a` after d sends v and then e sends w. */
  function AfterBoth(s: Runtime, d: Uuid, x: string, v: AttributeValue, t: nat, e: Uuid, y: string, w: AttributeValue,
                     u: nat): Runtime
  {
    ApplyUpdates(ApplyUpdates(s, d, [AttributeUpdate(x, v)], t).0, e, [AttributeUpdate(y, w)], u).0
  }

  lemma LastWriterShows(s: Runtime, a: Address, d: Uuid, x: string, v: AttributeValue, t: nat, e: Uuid, y: string,
                        w: AttributeValue, u: nat)
    requires Feeds(s, d, x, a) && Feeds(s, e, y, a) && DriftFree(GetAttr(s.scenes, a).value)
    requires UpdateValue(s.root, GetAttr(s.scenes, a).value, w, None).Ok?
    ensures Shows(AfterBoth(s, d, x, v, t, e, y, w, u), a,
                  UpdateValue(s.root, GetAttr(s.scenes, a).value, w, None).value)
  {
    var attr := GetAttr(s.scenes, a).value;
    ApplySingle(s, d, x, v, t, a);
    FeedsStays(s, d, x, v, t, e, y, a);
    var between := FedBy(s.root, attr, Feeding(v, None));
    UpdateIgnoresCurrent(s.root, attr, between.current, Feeding(w, None));
    ApplySingle(ApplyUpdates(s, d, [AttributeUpdate(x, v)], t).0, e, y, w, u, a);
  }

  /** Why interleaving needs its devices apart: two devices on one target race, and with a memoryless chain
      the order of their updates matters exactly when they ask for different values. */
  lemma SharedTargetRaces(s: Runtime, a: Address, d: Uuid, x: string, v: AttributeValue, t: nat, e: Uuid, y: string,
                          w: AttributeValue, u: nat)
    requires Feeds(s, d, x, a) && Feeds(s, e, y, a) && DriftFree(GetAttr(s.scenes, a).value)
    requires var attr := GetAttr(s.scenes, a).value;
             UpdateValue(s.root, attr, v, None).Ok? && UpdateValue(s.root, attr, w, None).Ok?
    ensures var attr := GetAttr(s.scenes, a).value;
            var xy, yx := AfterBoth(s, d, x, v, t, e, y, w, u), AfterBoth(s, e, y, w, u, d, x, v, t);
            && GetAttr(xy.scenes, a).Ok?
            && (Shows(yx, a, GetAttr(xy.scenes, a).value.current)
                <==> UpdateValue(s.root, attr, v, None) == UpdateValue(s.root, attr, w, None))
  {
    LastWriterShows(s, a, d, x, v, t, e, y, w, u);
    LastWriterShows(s, a, e, y, w, u, d, x, v, t);
  }

  lemma CommitSingle(s: Runtime, d: Uuid, output: string, a: Address)
    requires Feeds(s, d, output, a)
    ensures var t := RebaseScene(s, a.scene, FromCurrent).0;
            && GetAttr(t.scenes, a) == Ok(CommitAttr(GetAttr(s.scenes, a).value))
            && Feeds(t, d, output, a) && t.root == s.root
  {
  }

  /** The states after update, commit of the scene's baseline and update, and after the one update. */
  function SplitRun(s: Runtime, d: Uuid, output: string, a: Address, d1: AttributeValue, d2: AttributeValue, t1: nat,
                    t2: nat): Runtime
  {
    var first := ApplyUpdates(s, d, [AttributeUpdate(output, d1)], t1).0;
    ApplyUpdates(RebaseScene(first, a.scene, FromCurrent).0, d, [AttributeUpdate(output, d2)], t2).0
  }

  function JointRun(s: Runtime, d: Uuid, output: string, d12: AttributeValue, t2: nat): Runtime {
    ApplyUpdates(s, d, [AttributeUpdate(output, d12)], t2).0
  }

  /** The attribute at `a` holds v. */
  predicate Shows(s: Runtime, a: Address, v: AttributeValue) {
    GetAttr(s.scenes, a).Ok? && GetAttr(s.scenes, a).value.current == v
  }

  lemma RunsAreUpdates(s: Runtime, d: Uuid, output: string, a: Address, d1: AttributeValue, d2: AttributeValue,
                       d12: AttributeValue, t1: nat, t2: nat)
    requires Feeds(s, d, output, a)
    ensures Shows(SplitRun(s, d, output, a, d1, d2, t1, t2), a, SplitUpdate(s.root, GetAttr(s.scenes, a).value, d1, d2))
    ensures Shows(JointRun(s, d, output, d12, t2), a, JointUpdate(s.root, GetAttr(s.scenes, a).value, d12))
  {
    ApplySingle(s, d, output, d1, t1, a);
    var first := ApplyUpdates(s, d, [AttributeUpdate(output, d1)], t1).0;
    CommitSingle(first, d, output, a);
    ApplySingle(RebaseScene(first, a.scene, FromCurrent).0, d, output, d2, t2, a);
    ApplySingle(s, d, output, d12, t2, a);
  }

  /** The re-basing law as a run: update, commit the scene's baseline, update. */
  lemma RebaseRun(s: Runtime, d: Uuid, output: string, a: Address, d1: AttributeValue, d2: AttributeValue,
                  d12: AttributeValue, t1: nat, t2: nat)
    requires Feeds(s, d, output, a) && Deltas(s.root, GetAttr(s.scenes, a).value, d1, d2, d12)
    requires d1.Quatf? ==> GenuineRoot(s.root)
    ensures GetAttr(JointRun(s, d, output, d12, t2).scenes, a).Ok?
    ensures Shows(SplitRun(s, d, output, a, d1, d2, t1, t2), a,
                  GetAttr(JointRun(s, d, output, d12, t2).scenes, a).value.current)
       <==> Rebasable(s.root, GetAttr(s.scenes, a).value.default, d1, d2)
  {
    RunsAreUpdates(s, d, output, a, d1, d2, d12, t1, t2);
    RebaseLaw(s.root, GetAttr(s.scenes, a).value, d1, d2, d12);
  }

  /** Unit quaternions, the rotations a device sends, may always be re-based. */
  lemma UnitRebaseRun(s: Runtime, d: Uuid, output: string, a: Address, d1: AttributeValue, d2: AttributeValue,
                      d12: AttributeValue, t1: nat, t2: nat)
    requires Feeds(s, d, output, a) && Deltas(s.root, GetAttr(s.scenes, a).value, d1, d2, d12)
    requires UnitDeltas(s.root, GetAttr(s.scenes, a).value, d1, d2)
    ensures GetAttr(JointRun(s, d, output, d12, t2).scenes, a).Ok?
    ensures Shows(SplitRun(s, d, output, a, d1, d2, t1, t2), a,
                  GetAttr(JointRun(s, d, output, d12, t2).scenes, a).value.current)
  {
    RunsAreUpdates(s, d, output, a, d1, d2, d12, t1, t2);
    UnitRebaseLaw(s.root, GetAttr(s.scenes, a).value, d1, d2, d12);
  }
}
