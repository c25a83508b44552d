/** What reset and commit do to every attribute, and what moves a baseline over whole runs. */
module Baselines {
  import opened Model
  import opened RuntimeSpec
  import opened Attributes
  import opened Batches

  // ----- One reset or commit -----

  /** Current value and baseline are both v; nothing else about the attribute has changed. */
  predicate SettledAt(before: SceneAttribute, after: SceneAttribute, v: AttributeValue) {
    && after.current == v && after.default == v
    && after.name == before.name && after.live == before.live && after.chain == before.chain
  }

  /** Same scenes, objects and attributes, by key and name. */
  ghost predicate SameLayout(before: map<Uuid, Scene>, after: map<Uuid, Scene>) {
    && after.Keys == before.Keys
    && forall x :: x in before ==>
         && after[x].id == before[x].id && after[x].objects.Keys == before[x].objects.Keys
         && forall o :: o in before[x].objects ==>
              && after[x].objects[o].name == before[x].objects[o].name
              && after[x].objects[o].attributes.Keys == before[x].objects[o].attributes.Keys
  }

  /** The addresses of a scene whose attribute differs between two states. */
  ghost function ChangedIn(before: map<Uuid, Scene>, after: map<Uuid, Scene>, id: Uuid): set<(Uuid, string)>
    requires id in before
  {
    set o, n | o in before[id].objects && n in before[id].objects[o].attributes
               && GetAttr(after, Address(id, o, n)) != GetAttr(before, Address(id, o, n)) :: (o, n)
  }

  /** What a rebase of the addresses `inside` does at a. */
  predicate RebasesAt(before: map<Uuid, Scene>, after: map<Uuid, Scene>, inside: bool, dir: Direction, a: Address) {
    if !inside || GetAttr(before, a).Err? then GetAttr(after, a) == GetAttr(before, a)
    else
      && GetAttr(after, a).Ok?
      && var attr := GetAttr(before, a).value;
         SettledAt(attr, GetAttr(after, a).value, if dir == ToBaseline then attr.default else attr.current)
  }

  lemma ChangedIsDirty(s: Runtime, id: Uuid, dir: Direction)
    requires id in s.scenes
    ensures ChangedIn(s.scenes, RebaseScene(s, id, dir).0.scenes, id) == DirtyInScene(s.scenes[id])
  {
    var after := RebaseScene(s, id, dir).0.scenes;
    forall o, n | o in s.scenes[id].objects && n in s.scenes[id].objects[o].attributes
      ensures GetAttr(after, Address(id, o, n)) != GetAttr(s.scenes, Address(id, o, n)) <==>
              Dirty(s.scenes[id].objects[o].attributes[n])
    {
      assert RebasesAt(s.scenes, after, true, dir, Address(id, o, n));
    }
  }

  /** Reset puts every attribute of the scene back on its baseline, which stays; commit makes every current
      value the baseline.  Nothing else changes, and the answer counts the attributes that did. */
  lemma RebaseExactly(s: Runtime, id: Uuid, dir: Direction, a: Address)
    ensures var (t, r) := RebaseScene(s, id, dir);
            && (id !in s.scenes ==> t == s && r == Err(SceneNotFound(id)))
            && t == s.(scenes := t.scenes) && SameLayout(s.scenes, t.scenes)
            && (id in s.scenes ==> r == Ok(|ChangedIn(s.scenes, t.scenes, id)|))
            && RebasesAt(s.scenes, t.scenes, a.scene == id, dir, a)
  {
    if id in s.scenes { ChangedIsDirty(s, id, dir); }
  }

  /** The attributes of one object that differ. */
  ghost function ChangedOf(before: map<Uuid, Scene>, after: map<Uuid, Scene>, id: Uuid, obj: Uuid): set<string>
    requires id in before && obj in before[id].objects
  {
    set n | n in before[id].objects[obj].attributes
            && GetAttr(after, Address(id, obj, n)) != GetAttr(before, Address(id, obj, n))
  }

  lemma ChangedOfIsDirty(s: Runtime, id: Uuid, obj: Uuid)
    requires id in s.scenes && obj in s.scenes[id].objects
    ensures ChangedOf(s.scenes, CommitObject(s, id, obj).0.scenes, id, obj) == DirtyIn(s.scenes[id].objects[obj])
  {
    var after := CommitObject(s, id, obj).0.scenes;
    forall n | n in s.scenes[id].objects[obj].attributes
      ensures GetAttr(after, Address(id, obj, n)) != GetAttr(s.scenes, Address(id, obj, n)) <==>
              Dirty(s.scenes[id].objects[obj].attributes[n])
    {
      assert RebasesAt(s.scenes, after, true, FromCurrent, Address(id, obj, n));
    }
  }

  /** Committing an object does the same to its attributes alone. */
  lemma CommitObjectExactly(s: Runtime, id: Uuid, obj: Uuid, a: Address)
    ensures var (t, r) := CommitObject(s, id, obj);
            && (id !in s.scenes ==> t == s && r == Err(SceneNotFound(id)))
            && (id in s.scenes && obj !in s.scenes[id].objects ==> t == s && r == Err(ObjectNotFound(obj)))
            && t == s.(scenes := t.scenes) && SameLayout(s.scenes, t.scenes)
            && (id in s.scenes && obj in s.scenes[id].objects ==> r == Ok(|ChangedOf(s.scenes, t.scenes, id, obj)|))
            && RebasesAt(s.scenes, t.scenes, a.scene == id && a.obj == obj, FromCurrent, a)
  {
    if id in s.scenes && obj in s.scenes[id].objects { ChangedOfIsDirty(s, id, obj); }
  }

  // ----- Baselines over runs -----

  /** The step neither reloads the scene of a nor commits a. */
  predicate LeavesBaseline(op: Op, a: Address) {
    && !(op.OpLoadScene? && op.scene.id == a.scene)
    && !(op.OpRebase? && op.id == a.scene && op.dir == FromCurrent)
    && !(op.OpCommitObject? && op.id == a.scene && op.obj == a.obj)
  }

  lemma BatchKeepsBaseline(s: Runtime, d: Uuid, us: seq<AttributeUpdate>, now: nat, a: Address)
    requires GetAttr(s.scenes, a).Ok?
    ensures var t := ApplyUpdates(s, d, us, now).0;
            GetAttr(t.scenes, a).Ok? && GetAttr(t.scenes, a).value.default == GetAttr(s.scenes, a).value.default
  {
    if s.activeScene.Some? {
      BatchFrame(Context(Beaten(s.mappings, d, now), s.activeScene.value, d, s.root), s.scenes, us, a);
    }
  }

  lemma LoadKeepsBaseline(s: Runtime, scene: Scene, a: Address)
    requires scene.id != a.scene
    ensures GetAttr(LoadScene(s, scene).scenes, a) == GetAttr(s.scenes, a)
  {
  }

  lemma StepKeepsBaseline(s: Runtime, op: Op, a: Address)
    requires LeavesBaseline(op, a) && GetAttr(s.scenes, a).Ok?
    ensures GetAttr(Step(s, op).scenes, a).Ok?
    ensures GetAttr(Step(s, op).scenes, a).value.default == GetAttr(s.scenes, a).value.default
  {
    match op
    case OpApply(d, us, now) => BatchKeepsBaseline(s, d, us, now, a);
    case OpRebase(id, dir) => RebaseExactly(s, id, dir, a);
    case OpCommitObject(id, obj) => CommitObjectExactly(s, id, obj, a);
    case OpLoadScene(scene) => LoadKeepsBaseline(s, scene, a);
    case _ => ScenesStill(s, op);
  }

  /** A baseline is constant over every run that neither reloads nor commits it: updates and resets do not
      move it. */
  lemma {:induction false} BaselineRun(s: Runtime, ops: seq<Op>, a: Address)
    requires GetAttr(s.scenes, a).Ok? && forall i :: 0 <= i < |ops| ==> LeavesBaseline(ops[i], a)
    ensures GetAttr(Run(s, ops).scenes, a).Ok?
    ensures GetAttr(Run(s, ops).scenes, a).value.default == GetAttr(s.scenes, a).value.default
    decreases ops
  {
    if ops != [] {
      StepKeepsBaseline(s, ops[0], a);
      BaselineRun(Step(s, ops[0]), ops[1..], a);
    }
  }

  /** So a reset after any such run undoes it: the attribute is back on the baseline it started with. */
  lemma ResetUndoes(s: Runtime, ops: seq<Op>, a: Address)
    requires GetAttr(s.scenes, a).Ok? && forall i :: 0 <= i < |ops| ==> LeavesBaseline(ops[i], a)
    ensures var t := RebaseScene(Run(s, ops), a.scene, ToBaseline).0;
            GetAttr(t.scenes, a).Ok? && GetAttr(t.scenes, a).value.current == GetAttr(s.scenes, a).value.default
  {
    BaselineRun(s, ops, a);
    RebaseExactly(Run(s, ops), a.scene, ToBaseline, a);
  }
}
