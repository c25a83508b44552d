/** How attributes move, over whole runs: types, ranges and everything that never changes. */
module Attributes {
  import opened Model
  import opened Transform
  import opened Filters
  import opened RuntimeSpec

  // ----- Reading after writing -----

  lemma GetPut(scenes: map<Uuid, Scene>, a: Address, attr: SceneAttribute, b: Address)
    requires GetAttr(scenes, a).Ok?
    ensures GetAttr(PutAttr(scenes, a, attr), b) == if b == a then Ok(attr) else GetAttr(scenes, b)
  {
  }

  lemma PutPutInScene(scenes: map<Uuid, Scene>, a: Address, x: SceneAttribute, b: Address, y: SceneAttribute)
    requires GetAttr(scenes, a).Ok? && GetAttr(scenes, b).Ok? && a != b && a.scene == b.scene
    requires GetAttr(PutAttr(scenes, a, x), b).Ok? && GetAttr(PutAttr(scenes, b, y), a).Ok?
    ensures PutAttr(PutAttr(scenes, a, x), b, y)[a.scene] == PutAttr(PutAttr(scenes, b, y), a, x)[a.scene]
  {
    var l, r := PutAttr(PutAttr(scenes, a, x), b, y)[a.scene], PutAttr(PutAttr(scenes, b, y), a, x)[a.scene];
    if a.obj == b.obj { assert l.objects[a.obj].attributes == r.objects[a.obj].attributes; }
    assert l.objects == r.objects;
  }

  lemma PutPut(scenes: map<Uuid, Scene>, a: Address, x: SceneAttribute, b: Address, y: SceneAttribute)
    requires GetAttr(scenes, a).Ok? && GetAttr(scenes, b).Ok? && a != b
    ensures GetAttr(PutAttr(scenes, a, x), b).Ok? && GetAttr(PutAttr(scenes, b, y), a).Ok?
    ensures PutAttr(PutAttr(scenes, a, x), b, y) == PutAttr(PutAttr(scenes, b, y), a, x)
  {
    if a.scene == b.scene { PutPutInScene(scenes, a, x, b, y); }
    assert PutAttr(PutAttr(scenes, a, x), b, y) == PutAttr(PutAttr(scenes, b, y), a, x);
  }

  lemma FeedFrame(root: real -> real, scenes: map<Uuid, Scene>, a: Address, mask: Mask, v: AttributeValue, b: Address)
    ensures var out := Feed(root, scenes, a, mask, v).scenes;
            if && b == a && GetAttr(scenes, a).Ok? && GetAttr(scenes, a).value.live
               && UpdateValue(root, GetAttr(scenes, a).value, v, mask).Ok?
            then var attr := GetAttr(scenes, a).value;
                 GetAttr(out, b) == Ok(attr.(current := UpdateValue(root, attr, v, mask).value))
            else GetAttr(out, b) == GetAttr(scenes, b)
  {
    if GetAttr(scenes, a).Ok? && UpdateValue(root, GetAttr(scenes, a).value, v, mask).Ok? {
      GetPut(scenes, a,
             GetAttr(scenes, a).value.(current := UpdateValue(root, GetAttr(scenes, a).value, v, mask).value), b);
    }
  }

  // ----- An induction principle for attributes -----

  /** P survives every update, reset and commit of an attribute. */
  ghost predicate Closed(root: real -> real, P: SceneAttribute -> bool) {
    && (forall attr, v, mask :: P(attr) && UpdateValue(root, attr, v, mask).Ok? ==>
          P(attr.(current := UpdateValue(root, attr, v, mask).value)))
    && (forall attr :: P(attr) ==> P(ResetAttr(attr)) && P(CommitAttr(attr)))
  }

  /** Same addresses, and P kept at `a`. */
  ghost predicate KeepsAt(before: map<Uuid, Scene>, after: map<Uuid, Scene>, a: Address, P: SceneAttribute -> bool) {
    && (GetAttr(after, a).Ok? <==> GetAttr(before, a).Ok?)
    && (GetAttr(before, a).Ok? && P(GetAttr(before, a).value) ==> P(GetAttr(after, a).value))
  }

  lemma {:induction false} ApplyAllKeeps(c: Context, scenes: map<Uuid, Scene>, us: seq<AttributeUpdate>, a: Address,
                                         P: SceneAttribute -> bool)
    requires Closed(c.root, P)
    ensures KeepsAt(scenes, ApplyAll(c, scenes, us).scenes, a, P)
    decreases us
  {
    if us != [] {
      var i := RouteOf(c.mappings, c.scene, c.device, us[0].output);
      if i < |c.mappings| { FeedFrame(c.root, scenes, c.mappings[i].target, c.mappings[i].mask, us[0].value, a); }
      var first := ApplyOne(c, scenes, us[0]);
      assert KeepsAt(scenes, first.scenes, a, P);
      if first.result.Ok? { ApplyAllKeeps(c, first.scenes, us[1..], a, P); }
    }
  }

  lemma ApplyKeeps(s: Runtime, d: Uuid, us: seq<AttributeUpdate>, now: nat, a: Address, P: SceneAttribute -> bool)
    requires Closed(s.root, P)
    ensures KeepsAt(s.scenes, ApplyUpdates(s, d, us, now).0.scenes, a, P)
  {
    if s.activeScene.Some? {
      ApplyAllKeeps(Context(Beaten(s.mappings, d, now), s.activeScene.value, d, s.root), s.scenes, us, a, P);
    }
  }

  lemma RebaseKeeps(s: Runtime, id: Uuid, dir: Direction, a: Address, P: SceneAttribute -> bool)
    requires Closed(s.root, P)
    ensures KeepsAt(s.scenes, RebaseScene(s, id, dir).0.scenes, a, P)
  {
    if GetAttr(s.scenes, a).Ok? && a.scene == id {
      assert GetAttr(RebaseScene(s, id, dir).0.scenes, a) == Ok(Rebased(GetAttr(s.scenes, a).value, dir));
    }
  }

  lemma CommitKeeps(s: Runtime, id: Uuid, obj: Uuid, a: Address, P: SceneAttribute -> bool)
    requires Closed(s.root, P)
    ensures KeepsAt(s.scenes, CommitObject(s, id, obj).0.scenes, a, P)
  {
    if GetAttr(s.scenes, a).Ok? && a.scene == id && a.obj == obj {
      assert GetAttr(CommitObject(s, id, obj).0.scenes, a) == Ok(CommitAttr(GetAttr(s.scenes, a).value));
    }
  }

  lemma LoadKeeps(s: Runtime, scene: Scene, a: Address, P: SceneAttribute -> bool)
    requires scene.id != a.scene
    ensures KeepsAt(s.scenes, LoadScene(s, scene).scenes, a, P)
  {
    assert GetAttr(LoadScene(s, scene).scenes, a) == GetAttr(s.scenes, a);
  }

  lemma ScenesStill(s: Runtime, op: Op)
    requires !op.OpApply? && !op.OpRebase? && !op.OpCommitObject? && !op.OpLoadScene?
    ensures Step(s, op).scenes == s.scenes
  {
  }

  lemma StepKeeps(s: Runtime, op: Op, a: Address, P: SceneAttribute -> bool)
    requires Closed(s.root, P)
    requires op.OpLoadScene? ==> op.scene.id != a.scene
    ensures KeepsAt(s.scenes, Step(s, op).scenes, a, P)
  {
    match op
    case OpApply(d, us, now) => ApplyKeeps(s, d, us, now, a, P);
    case OpRebase(id, dir) => RebaseKeeps(s, id, dir, a, P);
    case OpCommitObject(id, obj) => CommitKeeps(s, id, obj, a, P);
    case OpLoadScene(scene) => LoadKeeps(s, scene, a, P);
    case _ => ScenesStill(s, op);
  }

  ghost predicate NoReload(ops: seq<Op>, scene: Uuid) {
    forall i :: 0 <= i < |ops| && ops[i].OpLoadScene? ==> ops[i].scene.id != scene
  }

  lemma {:induction false} RunKeeps(s: Runtime, ops: seq<Op>, a: Address, P: SceneAttribute -> bool)
    requires Closed(s.root, P) && NoReload(ops, a.scene)
    ensures KeepsAt(s.scenes, Run(s, ops).scenes, a, P)
    decreases ops
  {
    if ops != [] {
      StepKeeps(s, ops[0], a, P);
      StepKeepsConfig(s, ops[0]);
      RunKeeps(Step(s, ops[0]), ops[1..], a, P);
    }
  }

  // ----- Clamp as a run invariant -----

  /** The last Clamp of the chain bounds both the current value and the baseline. */
  ghost predicate Clamped(attr: SceneAttribute, chain: seq<AttributeFilter>, i: nat) {
    && attr.chain == chain && LastClamp(chain, i)
    && var lo, hi := ClampLow(chain[i].min, chain[i].max), ClampHigh(chain[i].min, chain[i].max);
       InRange(attr.current, lo, hi) && InRange(attr.default, lo, hi)
  }

  /** Every value an attribute takes in any run stays in its last Clamp's range, once current and
      baseline are in it: Ema and Deadband after the Clamp do not lead out. */
  lemma ClampRun(s: Runtime, ops: seq<Op>, a: Address, i: nat)
    requires NoReload(ops, a.scene) && GetAttr(s.scenes, a).Ok?
    requires Clamped(GetAttr(s.scenes, a).value, GetAttr(s.scenes, a).value.chain, i)
    ensures GetAttr(Run(s, ops).scenes, a).Ok?
    ensures Clamped(GetAttr(Run(s, ops).scenes, a).value, GetAttr(s.scenes, a).value.chain, i)
  {
    var chain := GetAttr(s.scenes, a).value.chain;
    var P := (attr: SceneAttribute) => Clamped(attr, chain, i);
    forall attr, v, mask | P(attr) && UpdateValue(s.root, attr, v, mask).Ok?
      ensures P(attr.(current := UpdateValue(s.root, attr, v, mask).value))
    {
      LastClampHolds(attr.current, Transformed(s.root, attr, v, mask).value, chain, i);
    }
    RunKeeps(s, ops, a, P);
  }

  // ----- What no run changes -----

  /** Name, live flag and filter chain are constant. */
  lemma ShapeRun(s: Runtime, ops: seq<Op>, a: Address)
    requires NoReload(ops, a.scene) && GetAttr(s.scenes, a).Ok?
    ensures GetAttr(Run(s, ops).scenes, a).Ok?
    ensures var x, y := GetAttr(s.scenes, a).value, GetAttr(Run(s, ops).scenes, a).value;
            y == x.(current := y.current, default := y.default)
  {
    var x := GetAttr(s.scenes, a).value;
    RunKeeps(s, ops, a, (attr: SceneAttribute) => attr == x.(current := attr.current, default := attr.default));
  }

  // ----- Baselines -----

  lemma RebasedSettled(obj: SceneObject, dir: Direction, again: Direction)
    ensures DirtyIn(RebasedObject(obj, dir)) == {}
    ensures RebasedObject(RebasedObject(obj, dir), again) == RebasedObject(obj, dir)
  {
    var after := RebasedObject(obj, dir);
    assert RebasedObject(after, again).attributes == after.attributes;
  }

  lemma RebasedSceneSettled(scene: Scene, dir: Direction, again: Direction)
    ensures DirtyInScene(RebasedScene(scene, dir)) == {}
    ensures RebasedScene(RebasedScene(scene, dir), again) == RebasedScene(scene, dir)
  {
    var after := RebasedScene(scene, dir);
    forall o | o in scene.objects
      ensures DirtyIn(after.objects[o]) == {} && RebasedObject(after.objects[o], again) == after.objects[o]
    {
      RebasedSettled(scene.objects[o], dir, again);
    }
    assert RebasedScene(after, again).objects == after.objects;
  }

  /** A reset or commit settles the scene: nothing is left off its baseline, and repeating either
      changes nothing and reports zero. */
  lemma RebaseSettles(s: Runtime, id: Uuid, dir: Direction, again: Direction)
    requires RebaseScene(s, id, dir).1.Ok?
    ensures var t := RebaseScene(s, id, dir).0;
            && id in t.scenes && DirtyInScene(t.scenes[id]) == {}
            && RebaseScene(t, id, again) == (t, Ok(0))
  {
    var t := RebaseScene(s, id, dir).0;
    RebasedSceneSettled(s.scenes[id], dir, again);
    assert t.scenes[id := t.scenes[id]] == t.scenes;
  }

  // ----- Type soundness -----

  ghost predicate OfType(attr: SceneAttribute, t: ValueType) {
    TypeOf(attr.default) == t && TypeOf(attr.current) == t
  }

  ghost predicate TypedScenes(scenes: map<Uuid, Scene>) {
    forall a :: GetAttr(scenes, a).Ok? ==> OfType(GetAttr(scenes, a).value, TypeOf(GetAttr(scenes, a).value.default))
  }

  /** The mapping's target exists and its mask fits. */
  ghost predicate Wired(scenes: map<Uuid, Scene>, m: Mapping) {
    GetAttr(scenes, m.target).Ok? && MaskFits(GetAttr(scenes, m.target).value.current, m.mask)
  }

  ghost predicate Typed(s: Runtime) {
    && TypedScenes(s.scenes)
    && (forall i :: 0 <= i < |s.mappings| ==> Wired(s.scenes, s.mappings[i]))
    && (s.activeScene.Some? ==> s.activeScene.value in s.scenes)
  }

  /** A loaded scene is well typed, and keeps every mapped attribute with its type. */
  ghost predicate GoodLoad(s: Runtime, scene: Scene) {
    var loaded := map[scene.id := scene];
    && TypedScenes(loaded)
    && forall i :: 0 <= i < |s.mappings| && s.mappings[i].target.scene == scene.id ==>
         var a := s.mappings[i].target;
         && GetAttr(loaded, a).Ok?
         && (GetAttr(s.scenes, a).Ok? ==>
             TypeOf(GetAttr(loaded, a).value.current) == TypeOf(GetAttr(s.scenes, a).value.current))
  }

  lemma TypeIsClosed(root: real -> real, t: ValueType)
    ensures Closed(root, (attr: SceneAttribute) => OfType(attr, t))
  {
    forall attr, v, mask | OfType(attr, t) && UpdateValue(root, attr, v, mask).Ok?
      ensures OfType(attr.(current := UpdateValue(root, attr, v, mask).value), t)
    {
      TransformedType(root, attr, v, mask);
    }
  }

  lemma StepKeepsType(s: Runtime, op: Op, a: Address)
    requires TypedScenes(s.scenes)
    requires op.OpLoadScene? ==> op.scene.id != a.scene
    ensures GetAttr(Step(s, op).scenes, a).Ok? <==> GetAttr(s.scenes, a).Ok?
    ensures GetAttr(s.scenes, a).Ok? ==>
            OfType(GetAttr(Step(s, op).scenes, a).value, TypeOf(GetAttr(s.scenes, a).value.current))
  {
    if GetAttr(s.scenes, a).Ok? {
      var t := TypeOf(GetAttr(s.scenes, a).value.current);
      TypeIsClosed(s.root, t);
      StepKeeps(s, op, a, (attr: SceneAttribute) => OfType(attr, t));
    } else {
      StepKeeps(s, op, a, (attr: SceneAttribute) => true);
    }
  }

  lemma StepWired(s: Runtime, op: Op, m: Mapping)
    requires TypedScenes(s.scenes) && Wired(s.scenes, m)
    requires op.OpLoadScene? ==> GoodLoad(s, op.scene) && m in s.mappings
    ensures Wired(Step(s, op).scenes, m)
  {
    var before := GetAttr(s.scenes, m.target).value.current;
    if op.OpLoadScene? && op.scene.id == m.target.scene {
      var i :| 0 <= i < |s.mappings| && s.mappings[i] == m;
      assert GetAttr(Step(s, op).scenes, m.target) == GetAttr(map[op.scene.id := op.scene], m.target);
    } else {
      StepKeepsType(s, op, m.target);
    }
    MaskFitsByType(before, GetAttr(Step(s, op).scenes, m.target).value.current, m.mask);
  }

  lemma StepTypedScenes(s: Runtime, op: Op)
    requires TypedScenes(s.scenes)
    requires op.OpLoadScene? ==> GoodLoad(s, op.scene)
    ensures TypedScenes(Step(s, op).scenes)
  {
    forall a | GetAttr(Step(s, op).scenes, a).Ok?
      ensures OfType(GetAttr(Step(s, op).scenes, a).value, TypeOf(GetAttr(Step(s, op).scenes, a).value.default))
    {
      if op.OpLoadScene? && op.scene.id == a.scene {
        assert GetAttr(Step(s, op).scenes, a) == GetAttr(map[op.scene.id := op.scene], a);
      } else {
        StepKeepsType(s, op, a);
      }
    }
  }

  lemma StepScenesKept(s: Runtime, op: Op)
    requires s.activeScene.Some? ==> s.activeScene.value in s.scenes
    ensures Step(s, op).activeScene.Some? ==> Step(s, op).activeScene.value in Step(s, op).scenes
  {
    if op.OpApply? && s.activeScene.Some? {
      ApplyAllSceneKeys(Context(Beaten(s.mappings, op.device, op.now), s.activeScene.value, op.device, s.root),
                        s.scenes, op.updates);
    }
  }

  lemma {:induction false} ApplyAllSceneKeys(c: Context, scenes: map<Uuid, Scene>, us: seq<AttributeUpdate>)
    ensures ApplyAll(c, scenes, us).scenes.Keys == scenes.Keys
    decreases us
  {
    if us != [] {
      var first := ApplyOne(c, scenes, us[0]);
      assert first.scenes.Keys == scenes.Keys;
      if first.result.Ok? { ApplyAllSceneKeys(c, first.scenes, us[1..]); }
    }
  }

  /** The entry's target and mask passed the check of a request, in a step that leaves the scenes alone. */
  ghost predicate Checked(s: Runtime, op: Op, m: Mapping) {
    (op.OpCreate? || op.OpUpdate?) && CheckRequest(s, op.req).Ok? && m.target == op.req.target && m.mask == op.req.mask
  }

  lemma RedirectedWiring(s: Runtime, id: Uuid, req: MappingRequest, now: nat, k: nat)
    requires k < |s.mappings|
    ensures var m := UpdateMapping(s, id, req, now).0.mappings[k];
            Checked(s, OpUpdate(id, req, now), m) || (m.target == s.mappings[k].target && m.mask == s.mappings[k].mask)
  {
  }

  /** Some entry has this target and mask. */
  ghost predicate Carried(ms: seq<Mapping>, m: Mapping) {
    exists i :: 0 <= i < |ms| && m.target == ms[i].target && m.mask == ms[i].mask
  }

  lemma CreatedWiring(s: Runtime, id: Uuid, req: MappingRequest, now: nat, k: nat)
    requires k < |CreateMapping(s, id, req, now).0.mappings|
    ensures var m := CreateMapping(s, id, req, now).0.mappings[k];
            Checked(s, OpCreate(id, req, now), m) || Carried(s.mappings, m)
  {
    if CreateMapping(s, id, req, now).1.Ok? { CreateOrigin(s, id, req, now, k); }
  }

  lemma RemovedWiring(s: Runtime, id: Uuid, k: nat)
    requires k < |RemoveMapping(s, id).0.mappings|
    ensures Carried(s.mappings, RemoveMapping(s, id).0.mappings[k])
  {
    if RemoveMapping(s, id).1.Ok? { RemoveOrigin(s, id, k); }
  }

  lemma OtherWiring(s: Runtime, op: Op, k: nat)
    requires k < |TableAfter(s, op)| && !op.OpCreate? && !op.OpUpdate? && !op.OpRemove?
    ensures Carried(s.mappings, TableAfter(s, op)[k])
  {
    assert TableAfter(s, op)[k].target == s.mappings[k].target && TableAfter(s, op)[k].mask == s.mappings[k].mask;
  }

  /** Entry k carries the target and mask of an older entry, or of a request that was checked. */
  lemma TableWiring(s: Runtime, op: Op, k: nat)
    requires k < |TableAfter(s, op)|
    ensures Checked(s, op, TableAfter(s, op)[k]) || Carried(s.mappings, TableAfter(s, op)[k])
  {
    match op
    case OpCreate(id, req, now) => CreatedWiring(s, id, req, now, k);
    case OpUpdate(id, req, now) => RedirectedWiring(s, id, req, now, k);
    case OpRemove(id) => RemovedWiring(s, id, k);
    case _ => OtherWiring(s, op, k);
  }

  lemma CheckedWired(s: Runtime, op: Op, m: Mapping)
    requires Checked(s, op, m)
    ensures Wired(Step(s, op).scenes, m)
  {
  }

  lemma EntryWired(s: Runtime, op: Op, k: nat)
    requires Typed(s) && k < |TableAfter(s, op)|
    requires op.OpLoadScene? ==> GoodLoad(s, op.scene)
    ensures Wired(Step(s, op).scenes, TableAfter(s, op)[k])
  {
    var m := TableAfter(s, op)[k];
    TableWiring(s, op, k);
    if Checked(s, op, m) {
      CheckedWired(s, op, m);
    } else {
      var i :| 0 <= i < |s.mappings| && m.target == s.mappings[i].target && m.mask == s.mappings[i].mask;
      StepWired(s, op, s.mappings[i]);
    }
  }

  lemma StepTyped(s: Runtime, op: Op)
    requires Typed(s)
    requires op.OpLoadScene? ==> GoodLoad(s, op.scene)
    ensures Typed(Step(s, op))
  {
    StepTypedScenes(s, op);
    StepScenesKept(s, op);
    StepTable(s, op);
    forall k | 0 <= k < |TableAfter(s, op)|
      ensures Wired(Step(s, op).scenes, TableAfter(s, op)[k])
    {
      EntryWired(s, op, k);
    }
  }

  ghost predicate GoodLoads(s: Runtime, ops: seq<Op>)
    decreases ops
  {
    ops != [] ==> (ops[0].OpLoadScene? ==> GoodLoad(s, ops[0].scene)) && GoodLoads(Step(s, ops[0]), ops[1..])
  }

  lemma {:induction false} TypedRun(s: Runtime, ops: seq<Op>)
    requires Typed(s) && GoodLoads(s, ops)
    ensures Typed(Run(s, ops))
    decreases ops
  {
    if ops != [] {
      StepTyped(s, ops[0]);
      TypedRun(Step(s, ops[0]), ops[1..]);
    }
  }

  // ----- Error freedom -----

  /** The errors left to a well-typed runtime: no route, or a value that does not suit the target. */
  ghost predicate SourceError(e: CoreError) {
    e.MappingDenied? || e.TypeMismatch? || e.UnsupportedTransform?
  }

  lemma {:induction false} ApplyAllErrors(c: Context, scenes: map<Uuid, Scene>, us: seq<AttributeUpdate>)
    requires TypedScenes(scenes) && forall i :: 0 <= i < |c.mappings| ==> Wired(scenes, c.mappings[i])
    ensures ApplyAll(c, scenes, us).result.Err? ==> SourceError(ApplyAll(c, scenes, us).result.error)
    decreases us
  {
    if us != [] {
      var i := RouteOf(c.mappings, c.scene, c.device, us[0].output);
      if i < |c.mappings| {
        var m := c.mappings[i];
        var attr := GetAttr(scenes, m.target).value;
        TransformedSound(c.root, attr, us[0].value, m.mask);
        var first := ApplyOne(c, scenes, us[0]);
        if first.result.Ok? {
          FeedKeepsTyped(c.root, scenes, m.target, m.mask, us[0].value);
          forall k | 0 <= k < |c.mappings| ensures Wired(first.scenes, c.mappings[k]) {
            FeedKeepsWired(c.root, scenes, m.target, m.mask, us[0].value, c.mappings[k]);
          }
          ApplyAllErrors(c, first.scenes, us[1..]);
        }
      }
    }
  }

  lemma FeedKeepsTyped(root: real -> real, scenes: map<Uuid, Scene>, a: Address, mask: Mask, v: AttributeValue)
    requires TypedScenes(scenes)
    ensures TypedScenes(Feed(root, scenes, a, mask, v).scenes)
  {
    var after := Feed(root, scenes, a, mask, v).scenes;
    forall b | GetAttr(after, b).Ok? ensures OfType(GetAttr(after, b).value, TypeOf(GetAttr(after, b).value.default)) {
      FeedKeepsType(root, scenes, a, mask, v, b);
    }
  }

  lemma FeedKeepsType(root: real -> real, scenes: map<Uuid, Scene>, a: Address, mask: Mask, v: AttributeValue,
                      b: Address)
    requires TypedScenes(scenes)
    ensures var after := Feed(root, scenes, a, mask, v).scenes;
            && (GetAttr(after, b).Ok? <==> GetAttr(scenes, b).Ok?)
            && (GetAttr(scenes, b).Ok? ==> OfType(GetAttr(after, b).value, TypeOf(GetAttr(scenes, b).value.current)))
  {
    FeedFrame(root, scenes, a, mask, v, b);
    if GetAttr(scenes, a).Ok? && UpdateValue(root, GetAttr(scenes, a).value, v, mask).Ok? {
      TransformedType(root, GetAttr(scenes, a).value, v, mask);
    }
  }

  lemma FeedKeepsWired(root: real -> real, scenes: map<Uuid, Scene>, a: Address, mask: Mask, v: AttributeValue,
                       m: Mapping)
    requires TypedScenes(scenes) && Wired(scenes, m)
    ensures Wired(Feed(root, scenes, a, mask, v).scenes, m)
  {
    FeedKeepsType(root, scenes, a, mask, v, m.target);
    MaskFitsByType(GetAttr(scenes, m.target).value.current,
                   GetAttr(Feed(root, scenes, a, mask, v).scenes, m.target).value.current, m.mask);
  }

  /** Error freedom in every reachable state: no batch reports a missing scene, object or attribute,
      or an invalid mask. */
  lemma ErrorFreedom(s: Runtime, ops: seq<Op>, device: Uuid, us: seq<AttributeUpdate>, now: nat)
    requires Typed(s) && GoodLoads(s, ops)
    ensures var r := ApplyUpdates(Run(s, ops), device, us, now).1;
            r.Err? ==> SourceError(r.error)
  {
    TypedRun(s, ops);
    var t := Run(s, ops);
    if t.mode != Idle && t.activeScene.Some? {
      var c := Context(Beaten(t.mappings, device, now), t.activeScene.value, device, t.root);
      forall i | 0 <= i < |c.mappings| ensures Wired(t.scenes, c.mappings[i]) { assert Wired(t.scenes, t.mappings[i]); }
      ApplyAllErrors(c, t.scenes, us);
    }
  }
}
