/** Where an update goes, said of the table and not of the search: the first Active mapping of the
    device into the active scene whose output has the update's name. */
module Routing {
  import opened Model
  import opened Transform
  import opened RuntimeSpec
  import opened Attributes

  /** Equal, or one is the other behind the device's id and a dot. */
  predicate SameOutput(mapped: string, device: Uuid, sent: string) {
    mapped == sent || mapped == device.text + "." + sent || sent == device.text + "." + mapped
  }

  predicate Carries(m: Mapping, scene: Uuid, device: Uuid, sent: string) {
    m.state == Active && m.sourceDevice == device && m.target.scene == scene && SameOutput(m.sourceOutput, device, sent)
  }

  /** Mapping i is the first to carry the output. */
  predicate CarriedBy(ms: seq<Mapping>, scene: Uuid, device: Uuid, sent: string, i: nat) {
    i < |ms| && Carries(ms[i], scene, device, sent) && forall k :: 0 <= k < i ==> !Carries(ms[k], scene, device, sent)
  }

  predicate Uncarried(ms: seq<Mapping>, scene: Uuid, device: Uuid, sent: string) {
    forall k :: 0 <= k < |ms| ==> !Carries(ms[k], scene, device, sent)
  }

  lemma RoutesIsCarries(m: Mapping, scene: Uuid, device: Uuid, sent: string)
    ensures Routes(m, scene, device, sent) <==> Carries(m, scene, device, sent)
  {
    OutputMatchesMeaning(m.sourceOutput, device, sent);
  }

  lemma RouteIsCarrier(ms: seq<Mapping>, scene: Uuid, device: Uuid, sent: string)
    ensures var i := RouteOf(ms, scene, device, sent);
            if i < |ms| then CarriedBy(ms, scene, device, sent, i) else Uncarried(ms, scene, device, sent)
  {
    forall k | 0 <= k < |ms| ensures Routes(ms[k], scene, device, sent) <==> Carries(ms[k], scene, device, sent) {
      RoutesIsCarries(ms[k], scene, device, sent);
    }
  }

  lemma CarrierUnique(ms: seq<Mapping>, scene: Uuid, device: Uuid, sent: string, i: nat)
    requires CarriedBy(ms, scene, device, sent, i)
    ensures RouteOf(ms, scene, device, sent) == i
  {
    RouteIsCarrier(ms, scene, device, sent);
  }

  lemma CarriesIgnoresLease(ms: seq<Mapping>, device: Uuid, now: nat, scene: Uuid, sent: string, i: nat)
    ensures CarriedBy(Beaten(ms, device, now), scene, device, sent, i) <==> CarriedBy(ms, scene, device, sent, i)
    ensures Uncarried(Beaten(ms, device, now), scene, device, sent) <==> Uncarried(ms, scene, device, sent)
  {
    var beaten := Beaten(ms, device, now);
    assert forall k :: 0 <= k < |ms| ==> Carries(beaten[k], scene, device, sent) == Carries(ms[k], scene, device, sent);
  }

  // ----- One update -----

  /** What sending v through a mask does to the attribute at a, and what is answered. */
  ghost predicate Delivered(root: real -> real, before: map<Uuid, Scene>, after: map<Uuid, Scene>, a: Address,
                            mask: Mask, v: AttributeValue, answer: Result<Applied, CoreError>)
  {
    match GetAttr(before, a)
    case Err(e) => answer == Err(e) && after == before
    case Ok(attr) =>
      if !attr.live then answer == Ok(map[]) && after == before
      else
        var next := UpdateValue(root, attr, v, mask);
        if next.Err? then answer == Err(next.error) && after == before
        else
          var name := before[a.scene].objects[a.obj].name + "." + attr.name;
          && answer == Ok(map[name := next.value])
          && GetAttr(after, a) == Ok(attr.(current := next.value))
          && forall b :: b != a ==> GetAttr(after, b) == GetAttr(before, b)
  }

  lemma FeedDelivers(root: real -> real, scenes: map<Uuid, Scene>, a: Address, mask: Mask, v: AttributeValue)
    ensures var out := Feed(root, scenes, a, mask, v);
            Delivered(root, scenes, out.scenes, a, mask, v, out.result)
  {
    if GetAttr(scenes, a).Ok? && UpdateValue(root, GetAttr(scenes, a).value, v, mask).Ok? {
      var out := Feed(root, scenes, a, mask, v).scenes;
      forall b | b != a ensures GetAttr(out, b) == GetAttr(scenes, b) { FeedFrame(root, scenes, a, mask, v, b); }
      FeedFrame(root, scenes, a, mask, v, a);
    }
  }

  lemma SingleBatch(c: Context, scenes: map<Uuid, Scene>, u: AttributeUpdate)
    ensures ApplyAll(c, scenes, [u]) == ApplyOne(c, scenes, u)
  {
    assert [u][1..] == [];
    var first := ApplyOne(c, scenes, u);
    if first.result.Ok? { assert first.result.value + map[] == first.result.value; }
  }

  /** The errors a transform itself reports. */
  predicate TransformError(e: CoreError) {
    e.TypeMismatch? || e.InvalidComponentMask? || e.UnsupportedTransform?
  }

  lemma DeltaErrors(baseline: AttributeValue, v: AttributeValue, mask: Mask)
    ensures var r := ApplyMappingDeltaTransform(baseline, v, mask);
            r.Err? ==> TransformError(r.error)
  {
    if mask.Some? && VectorLen(baseline).Some? { WriteMaskedErrors(NeutralDelta(baseline), v, mask.value); }
  }

  lemma AbsoluteErrors(current: AttributeValue, v: AttributeValue, mask: Mask)
    ensures var r := ApplyMappingTransform(current, v, mask);
            r.Err? ==> TransformError(r.error)
  {
    if mask.Some? { WriteMaskedErrors(current, v, mask.value); }
  }

  lemma UpdateErrors(root: real -> real, attr: SceneAttribute, v: AttributeValue, mask: Mask)
    ensures var r := UpdateValue(root, attr, v, mask);
            r.Err? ==> TransformError(r.error)
  {
    DeltaErrors(attr.default, v, mask);
    AbsoluteErrors(attr.current, v, mask);
  }

  lemma {:induction false} WriteMaskedErrors(target: AttributeValue, source: AttributeValue, mask: seq<nat>)
    ensures var r := WriteMasked(target, source, mask);
            r.Err? ==> TransformError(r.error)
    decreases mask
  {
    if mask != [] && SourceComponent(source, mask[0]).Ok? {
      var next := SetVectorComponent(target, mask[0], SourceComponent(source, mask[0]).value);
      if next.Ok? { WriteMaskedErrors(next.value, source, mask[1..]); }
    }
  }

  /** One update, outside Idle and with an active scene: it goes to the first mapping that carries its
      output, and is answered `NoActiveMapping` exactly when there is none. */
  lemma UpdateRouted(s: Runtime, d: Uuid, u: AttributeUpdate, now: nat)
    requires s.mode != Idle && s.activeScene.Some?
    ensures var scene, (t, r) := s.activeScene.value, ApplyUpdates(s, d, [u], now);
            && (Uncarried(s.mappings, scene, d, u.output) <==> r == Err(MappingDenied(NoActiveMapping(u.output))))
            && (Uncarried(s.mappings, scene, d, u.output) ==> t.scenes == s.scenes)
            && (forall i: nat :: CarriedBy(s.mappings, scene, d, u.output, i) ==>
                  Delivered(s.root, s.scenes, t.scenes, s.mappings[i].target, s.mappings[i].mask, u.value, r))
            && t.tickCount == s.tickCount + if r.Ok? then 1 else 0
  {
    var scene := s.activeScene.value;
    var beaten := Beaten(s.mappings, d, now);
    var c := Context(beaten, scene, d, s.root);
    SingleBatch(c, s.scenes, u);
    RouteIsCarrier(beaten, scene, d, u.output);
    var r := RouteOf(beaten, scene, d, u.output);
    CarriesIgnoresLease(s.mappings, d, now, scene, u.output, r);
    if r < |beaten| {
      FeedDelivers(s.root, s.scenes, beaten[r].target, beaten[r].mask, u.value);
      if GetAttr(s.scenes, beaten[r].target).Ok? {
        UpdateErrors(s.root, GetAttr(s.scenes, beaten[r].target).value, u.value, beaten[r].mask);
      }
      forall i: nat | CarriedBy(s.mappings, scene, d, u.output, i) ensures i == r {
        CarrierUnique(s.mappings, scene, d, u.output, i);
        CarrierUnique(s.mappings, scene, d, u.output, r);
      }
    }
  }

  // ----- A whole batch -----

  /** Some update of the batch goes to a. */
  ghost predicate Reached(ms: seq<Mapping>, scene: Uuid, d: Uuid, us: seq<AttributeUpdate>, a: Address) {
    exists k, i: nat :: 0 <= k < |us| && CarriedBy(ms, scene, d, us[k].output, i) && ms[i].target == a
  }

  lemma OneReached(c: Context, scenes: map<Uuid, Scene>, u: AttributeUpdate, a: Address)
    requires GetAttr(ApplyOne(c, scenes, u).scenes, a) != GetAttr(scenes, a)
    ensures exists i: nat :: CarriedBy(c.mappings, c.scene, c.device, u.output, i) && c.mappings[i].target == a
  {
    var i := RouteOf(c.mappings, c.scene, c.device, u.output);
    RouteIsCarrier(c.mappings, c.scene, c.device, u.output);
    FeedFrame(c.root, scenes, c.mappings[i].target, c.mappings[i].mask, u.value, a);
    assert CarriedBy(c.mappings, c.scene, c.device, u.output, i) && c.mappings[i].target == a;
  }

  lemma ReachedLater(ms: seq<Mapping>, scene: Uuid, d: Uuid, us: seq<AttributeUpdate>, a: Address)
    requires us != [] && Reached(ms, scene, d, us[1..], a)
    ensures Reached(ms, scene, d, us, a)
  {
    var k, i: nat :| 0 <= k < |us[1..]| && CarriedBy(ms, scene, d, us[1..][k].output, i) && ms[i].target == a;
    assert us[k + 1] == us[1..][k];
  }

  lemma {:induction false} AllReached(c: Context, scenes: map<Uuid, Scene>, us: seq<AttributeUpdate>, a: Address)
    requires GetAttr(ApplyAll(c, scenes, us).scenes, a) != GetAttr(scenes, a)
    ensures Reached(c.mappings, c.scene, c.device, us, a)
    decreases us
  {
    if us != [] {
      var first := ApplyOne(c, scenes, us[0]);
      if GetAttr(first.scenes, a) != GetAttr(scenes, a) {
        OneReached(c, scenes, us[0], a);
      } else {
        AllReached(c, first.scenes, us[1..], a);
        ReachedLater(c.mappings, c.scene, c.device, us, a);
      }
    }
  }

  lemma ReachedIgnoresLease(ms: seq<Mapping>, scene: Uuid, d: Uuid, now: nat, us: seq<AttributeUpdate>, a: Address)
    requires Reached(Beaten(ms, d, now), scene, d, us, a)
    ensures Reached(ms, scene, d, us, a)
  {
    var beaten := Beaten(ms, d, now);
    var k, i: nat :| 0 <= k < |us| && CarriedBy(beaten, scene, d, us[k].output, i) && beaten[i].target == a;
    CarriesIgnoresLease(ms, d, now, scene, us[k].output, i);
  }

  /** A batch, accepted or not, changes an attribute only when some update of it goes there; in Idle and
      without an active scene it changes none. */
  lemma BatchRouted(s: Runtime, d: Uuid, us: seq<AttributeUpdate>, now: nat, a: Address)
    requires GetAttr(ApplyUpdates(s, d, us, now).0.scenes, a) != GetAttr(s.scenes, a)
    ensures s.mode != Idle && s.activeScene.Some? && Reached(s.mappings, s.activeScene.value, d, us, a)
  {
    AllReached(Context(Beaten(s.mappings, d, now), s.activeScene.value, d, s.root), s.scenes, us, a);
    ReachedIgnoresLease(s.mappings, s.activeScene.value, d, now, us, a);
  }

  /** In Idle a batch is accepted and does nothing else; without an active scene it is refused. */
  lemma BatchGuards(s: Runtime, d: Uuid, us: seq<AttributeUpdate>, now: nat)
    ensures var (t, r) := ApplyUpdates(s, d, us, now);
            && (s.mode == Idle ==> r == Ok(map[]))
            && (s.mode != Idle && s.activeScene.None? ==> r == Err(MappingDenied(NoActiveScene)))
            && (s.mode == Idle || s.activeScene.None? ==> t == s.(mappings := t.mappings))
            && t == s.(mappings := t.mappings, scenes := t.scenes, tickCount := t.tickCount)
  {
  }
}
