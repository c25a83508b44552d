/** What the runtime grants and what it stores, said field by field and not through the functions
    that compute it. */
module Requests {
  import opened Model
  import opened Transform
  import opened RuntimeSpec

  // ----- What a request must satisfy -----

  predicate TargetExists(scenes: map<Uuid, Scene>, a: Address) {
    && a.scene in scenes && a.obj in scenes[a.scene].objects
    && a.attribute in scenes[a.scene].objects[a.obj].attributes
  }

  /** How many components a mask may name; a scalar has none and takes the one source component named. */
  function Width(v: AttributeValue): nat {
    if v.Vec2f? then 2 else if v.Vec3f? then 3 else if v.Vec4f? || v.Quatf? then 4 else 0
  }

  ghost predicate MaskSuits(v: AttributeValue, mask: Mask) {
    mask.Some? ==>
      && mask.value != [] && !v.Mat4f?
      && (Width(v) == 0 ==> |mask.value| == 1)
      && (Width(v) > 0 ==> forall i :: 0 <= i < |mask.value| ==> mask.value[i] < Width(v))
      && (Width(v) > 0 ==> forall i, j :: 0 <= i < j < |mask.value| ==> mask.value[i] != mask.value[j])
  }

  function CurrentAt(scenes: map<Uuid, Scene>, a: Address): AttributeValue
    requires TargetExists(scenes, a)
  {
    scenes[a.scene].objects[a.obj].attributes[a.attribute].current
  }

  ghost predicate Accepts(s: Runtime, req: MappingRequest) {
    s.mode != Recording && TargetExists(s.scenes, req.target) && MaskSuits(CurrentAt(s.scenes, req.target), req.mask)
  }

  /** Why a request is refused before any mapping is looked at; the first reason counts. */
  ghost function Refusal(s: Runtime, req: MappingRequest): CoreError
    requires !Accepts(s, req)
  {
    var a := req.target;
    if s.mode == Recording then MappingBlockedInRecording
    else if a.scene !in s.scenes then SceneNotFound(a.scene)
    else if a.obj !in s.scenes[a.scene].objects then ObjectNotFound(a.obj)
    else if a.attribute !in s.scenes[a.scene].objects[a.obj].attributes then AttributeNotFound(a.attribute)
    else InvalidComponentMask
  }

  /** Looking up an address finds what lies there, or names the first step of it that leads nowhere. */
  lemma LookupExactly(scenes: map<Uuid, Scene>, a: Address)
    ensures GetAttr(scenes, a) ==
            if a.scene !in scenes then Err(SceneNotFound(a.scene))
            else if a.obj !in scenes[a.scene].objects then Err(ObjectNotFound(a.obj))
            else if a.attribute !in scenes[a.scene].objects[a.obj].attributes then Err(AttributeNotFound(a.attribute))
            else Ok(scenes[a.scene].objects[a.obj].attributes[a.attribute])
  {
  }

  lemma MaskSuitsIsFits(v: AttributeValue, mask: Mask)
    ensures MaskSuits(v, mask) <==> MaskFits(v, mask)
  {
  }

  lemma CheckExactly(s: Runtime, req: MappingRequest)
    ensures CheckRequest(s, req).Ok? <==> Accepts(s, req)
    ensures !Accepts(s, req) ==> CheckRequest(s, req) == Err(Refusal(s, req))
  {
    if TargetExists(s.scenes, req.target) { MaskSuitsIsFits(CurrentAt(s.scenes, req.target), req.mask); }
  }

  // ----- Owners -----

  predicate ActiveOn(m: Mapping, target: Address) {
    m.state == Active && m.target == target
  }

  /** Entry i is the first Active mapping on the target. */
  predicate FirstOwner(ms: seq<Mapping>, target: Address, i: nat) {
    i < |ms| && ActiveOn(ms[i], target) && forall k :: 0 <= k < i ==> !ActiveOn(ms[k], target)
  }

  predicate Unowned(ms: seq<Mapping>, target: Address) {
    forall k :: 0 <= k < |ms| ==> !ActiveOn(ms[k], target)
  }

  /** At least `span` has passed; a clock that went back counts as no time. */
  predicate Passed(since: nat, span: nat, now: nat) {
    span == 0 || now >= since + span
  }

  /** A device that disconnected keeps its mapping for the grace, any other for the timeout since it was heard. */
  predicate Reclaimable(s: Runtime, m: Mapping, now: nat) {
    if m.sourceDevice !in s.connected && m.disconnectedAt.Some?
    then Passed(m.disconnectedAt.value, s.lease.reclaimGrace, now)
    else Passed(m.lastHeartbeat, s.lease.timeout, now)
  }

  lemma OwnerIsFirst(ms: seq<Mapping>, target: Address)
    ensures var i := OwnerOf(ms, target);
            if i < |ms| then FirstOwner(ms, target, i) else Unowned(ms, target)
  {
    assert forall k :: 0 <= k < |ms| ==> Owns(ms[k], target) == ActiveOn(ms[k], target);
  }

  lemma FirstOwnerUnique(ms: seq<Mapping>, target: Address, i: nat)
    requires FirstOwner(ms, target, i)
    ensures OwnerOf(ms, target) == i
  {
    OwnerIsFirst(ms, target);
  }

  lemma ReclaimIsReclaimable(s: Runtime, m: Mapping, now: nat)
    ensures CanReclaim(s, m, now) <==> Reclaimable(s, m, now)
  {
  }

  // ----- Create -----

  /** What a create stores. */
  function Granted(id: Uuid, req: MappingRequest, now: nat): Mapping {
    Mapping(id, req.sourceDevice, req.sourceOutput, req.target, req.mask, false, Active, now, None)
  }

  /** A create is granted exactly when the request is acceptable and the target unowned, or owned by an
      unlocked mapping that may be reclaimed; that one goes, and the new one comes last. */
  lemma CreateExactly(s: Runtime, id: Uuid, req: MappingRequest, now: nat)
    ensures var (t, r) := CreateMapping(s, id, req, now);
            && (!Accepts(s, req) ==> t == s && r == Err(Refusal(s, req)))
            && (Accepts(s, req) && Unowned(s.mappings, req.target) ==>
                  r == Ok(id) && t == s.(mappings := s.mappings + [Granted(id, req, now)]))
            && (Accepts(s, req) ==> forall i: nat :: FirstOwner(s.mappings, req.target, i) ==>
                  if s.mappings[i].lock then t == s && r == Err(MappingDenied(Locked))
                  else if !Reclaimable(s, s.mappings[i], now) then t == s && r == Err(MappingDenied(AlreadyOwned))
                  else
                    && r == Ok(id)
                    && t == s.(mappings := s.mappings[..i] + s.mappings[i + 1..] + [Granted(id, req, now)]))
  {
    CheckExactly(s, req);
    OwnerIsFirst(s.mappings, req.target);
    var owner := OwnerOf(s.mappings, req.target);
    if owner < |s.mappings| { ReclaimIsReclaimable(s, s.mappings[owner], now); }
    forall i: nat | FirstOwner(s.mappings, req.target, i) ensures i == owner {
      FirstOwnerUnique(s.mappings, req.target, i);
    }
  }

  // ----- Update, lock and remove -----

  predicate FirstWithId(ms: seq<Mapping>, id: Uuid, i: nat) {
    i < |ms| && ms[i].id == id && forall k :: 0 <= k < i ==> ms[k].id != id
  }

  predicate NoSuchId(ms: seq<Mapping>, id: Uuid) {
    forall k :: 0 <= k < |ms| ==> ms[k].id != id
  }

  /** The entry has the request's source, target and mask; its id, lock and state are the old one's, and
      it has just been heard of. */
  predicate Rewired(m: Mapping, n: Mapping, req: MappingRequest, now: nat) {
    && n.sourceDevice == req.sourceDevice && n.sourceOutput == req.sourceOutput
    && n.target == req.target && n.mask == req.mask
    && n.id == m.id && n.lock == m.lock && n.state == m.state
    && n.lastHeartbeat == now && n.disconnectedAt == None
  }

  /** An update is granted exactly when the request is acceptable and the mapping is there and unlocked;
      whether the target is owned is not asked. */
  lemma UpdateExactly(s: Runtime, id: Uuid, req: MappingRequest, now: nat)
    ensures var (t, r) := UpdateMapping(s, id, req, now);
            && (!Accepts(s, req) ==> t == s && r == Err(Refusal(s, req)))
            && (Accepts(s, req) && NoSuchId(s.mappings, id) ==> t == s && r == Err(MappingDenied(MappingNotFound)))
            && (Accepts(s, req) ==> forall i: nat :: FirstWithId(s.mappings, id, i) ==>
                  if s.mappings[i].lock then t == s && r == Err(MappingDenied(Locked))
                  else
                    && r == Ok(()) && |t.mappings| == |s.mappings| && Rewired(s.mappings[i], t.mappings[i], req, now)
                    && t == s.(mappings := s.mappings[i := t.mappings[i]]))
  {
    CheckExactly(s, req);
    var j := IndexOf(s.mappings, id);
    forall i: nat | FirstWithId(s.mappings, id, i) ensures i == j {}
  }

  /** Locking looks at the mode and the id alone, and changes the one lock. */
  lemma SetLockExactly(s: Runtime, id: Uuid, lock: bool)
    ensures var (t, r) := SetMappingLock(s, id, lock);
            && (s.mode == Recording ==> t == s && r == Err(MappingBlockedInRecording))
            && (s.mode != Recording && NoSuchId(s.mappings, id) ==> t == s && r == Err(MappingDenied(MappingNotFound)))
            && (s.mode != Recording ==> forall i: nat :: FirstWithId(s.mappings, id, i) ==>
                  r == Ok(()) && t == s.(mappings := s.mappings[i := s.mappings[i].(lock := lock)]))
  {
    var j := IndexOf(s.mappings, id);
    forall i: nat | FirstWithId(s.mappings, id, i) ensures i == j {}
  }

  /** So does removing, which takes the one entry out. */
  lemma RemoveExactly(s: Runtime, id: Uuid)
    ensures var (t, r) := RemoveMapping(s, id);
            && (s.mode == Recording ==> t == s && r == Err(MappingBlockedInRecording))
            && (s.mode != Recording && NoSuchId(s.mappings, id) ==> t == s && r == Err(MappingDenied(MappingNotFound)))
            && (s.mode != Recording ==> forall i: nat :: FirstWithId(s.mappings, id, i) ==>
                  r == Ok(()) && t == s.(mappings := s.mappings[..i] + s.mappings[i + 1..]))
  {
    var j := IndexOf(s.mappings, id);
    forall i: nat | FirstWithId(s.mappings, id, i) ensures i == j {}
  }

  // ----- Modes and scenes over runs -----

  /** The mode the calls ask for, save that Recording is not entered from Idle. */
  function ModeAfter(mode: Mode, ops: seq<Op>): Mode
    decreases ops
  {
    if ops == [] then mode
    else if ops[0].OpSetMode? && !(mode == Idle && ops[0].mode == Recording) then ModeAfter(ops[0].mode, ops[1..])
    else ModeAfter(mode, ops[1..])
  }

  lemma StepMode(s: Runtime, op: Op)
    ensures Step(s, op).mode == ModeAfter(s.mode, [op])
  {
  }

  lemma ModeAfterStep(mode: Mode, ops: seq<Op>)
    requires ops != []
    ensures ModeAfter(mode, ops) == ModeAfter(ModeAfter(mode, [ops[0]]), ops[1..])
  {
  }

  lemma {:induction false} ModeRun(s: Runtime, ops: seq<Op>)
    ensures Run(s, ops).mode == ModeAfter(s.mode, ops)
    decreases ops
  {
    if ops != [] {
      StepMode(s, ops[0]);
      ModeAfterStep(s.mode, ops);
      ModeRun(Step(s, ops[0]), ops[1..]);
    }
  }

  lemma SetModeExactly(s: Runtime, mode: Mode)
    ensures SetMode(s, mode).1 ==
            if s.mode == Idle && mode == Recording then Err(InvalidModeTransition(Idle, Recording)) else Ok(())
  {
  }

  /** Only a loaded scene can be made the one in use. */
  lemma SetActiveExactly(s: Runtime, id: Uuid)
    ensures SetActiveScene(s, id) ==
            if id in s.scenes then (s.(activeScene := Some(id)), Ok(())) else (s, Err(SceneNotFound(id)))
  {
  }

  /** The scene in use: the one last chosen among those loaded, and before any choice the first loaded. */
  function ActiveAfter(active: Option<Uuid>, loaded: set<Uuid>, ops: seq<Op>): Option<Uuid>
    decreases ops
  {
    if ops == [] then active
    else match ops[0]
      case OpLoadScene(scene) =>
        ActiveAfter(if active.None? then Some(scene.id) else active, loaded + {scene.id}, ops[1..])
      case OpSetActiveScene(id) => ActiveAfter(if id in loaded then Some(id) else active, loaded, ops[1..])
      case _ => ActiveAfter(active, loaded, ops[1..])
  }

  function Loads(op: Op): set<Uuid> {
    if op.OpLoadScene? then {op.scene.id} else {}
  }

  lemma StepScenes(s: Runtime, op: Op)
    ensures Step(s, op).scenes.Keys == s.scenes.Keys + Loads(op)
    ensures op.OpLoadScene? ==> Step(s, op).scenes == s.scenes[op.scene.id := op.scene]
    ensures Step(s, op).activeScene == ActiveAfter(s.activeScene, s.scenes.Keys, [op])
  {
    if op.OpApply? && s.activeScene.Some? {
      var c := Context(Beaten(s.mappings, op.device, op.now), s.activeScene.value, op.device, s.root);
      BatchSceneKeys(c, s.scenes, op.updates);
    }
  }

  lemma {:induction false} BatchSceneKeys(c: Context, scenes: map<Uuid, Scene>, us: seq<AttributeUpdate>)
    ensures ApplyAll(c, scenes, us).scenes.Keys == scenes.Keys
    decreases us
  {
    if us != [] {
      var first := ApplyOne(c, scenes, us[0]);
      if first.result.Ok? { BatchSceneKeys(c, first.scenes, us[1..]); }
    }
  }

  lemma ActiveAfterStep(active: Option<Uuid>, loaded: set<Uuid>, ops: seq<Op>)
    requires ops != []
    ensures ActiveAfter(active, loaded, ops) ==
            ActiveAfter(ActiveAfter(active, loaded, [ops[0]]), loaded + Loads(ops[0]), ops[1..])
  {
    assert [ops[0]][1..] == [];
    if !ops[0].OpLoadScene? { assert loaded + {} == loaded; }
  }

  lemma {:induction false} ActiveSceneRun(s: Runtime, ops: seq<Op>)
    ensures Run(s, ops).activeScene == ActiveAfter(s.activeScene, s.scenes.Keys, ops)
    decreases ops
  {
    if ops != [] {
      StepScenes(s, ops[0]);
      ActiveAfterStep(s.activeScene, s.scenes.Keys, ops);
      ActiveSceneRun(Step(s, ops[0]), ops[1..]);
    }
  }
}
