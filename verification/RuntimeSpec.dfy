/** The runtime core as a state machine on values: one function per `RuntimeCore` method, giving
    the state afterwards and what the call returns. */
module RuntimeSpec {
  import opened Model
  import opened Transform
  import opened Filters

  /** `root` is the platform's square root; every other field is one of `RuntimeCore`.  The
      mapping table is kept in insertion order. */
  datatype Runtime = Runtime(
    scenes: map<Uuid, Scene>,
    activeScene: Option<Uuid>,
    mode: Mode,
    mappings: seq<Mapping>,
    lease: LeaseConfig,
    connected: set<Uuid>,
    tickCount: nat,
    root: real -> real)

  function Initial(lease: LeaseConfig, root: real -> real): Runtime {
    Runtime(map[], None, Idle, [], lease, {}, 0, root)
  }

  // ----- Attributes by address -----

  function GetAttr(scenes: map<Uuid, Scene>, a: Address): Result<SceneAttribute, CoreError> {
    if a.scene !in scenes then Err(SceneNotFound(a.scene))
    else if a.obj !in scenes[a.scene].objects then Err(ObjectNotFound(a.obj))
    else if a.attribute !in scenes[a.scene].objects[a.obj].attributes then Err(AttributeNotFound(a.attribute))
    else Ok(scenes[a.scene].objects[a.obj].attributes[a.attribute])
  }

  function PutAttr(scenes: map<Uuid, Scene>, a: Address, attr: SceneAttribute): map<Uuid, Scene>
    requires GetAttr(scenes, a).Ok?
  {
    var scene := scenes[a.scene];
    var node := scene.objects[a.obj];
    var put := node.(attributes := node.attributes[a.attribute := attr]);
    scenes[a.scene := scene.(objects := scene.objects[a.obj := put])]
  }

  // ----- Scenes, modes and devices -----

  function LoadScene(s: Runtime, scene: Scene): Runtime {
    s.(scenes := s.scenes[scene.id := scene],
       activeScene := if s.activeScene.None? then Some(scene.id) else s.activeScene)
  }

  function SetActiveScene(s: Runtime, id: Uuid): (Runtime, Result<(), CoreError>) {
    if id !in s.scenes then (s, Err(SceneNotFound(id))) else (s.(activeScene := Some(id)), Ok(()))
  }

  predicate ModeChangeAllowed(from: Mode, to: Mode) {
    !(from == Idle && to == Recording)
  }

  function SetMode(s: Runtime, mode: Mode): (Runtime, Result<(), CoreError>) {
    if !ModeChangeAllowed(s.mode, mode) then (s, Err(InvalidModeTransition(s.mode, mode)))
    else (s.(mode := mode), Ok(()))
  }

  function Connect(s: Runtime, device: Uuid): Runtime {
    s.(connected := s.connected + {device})
  }

  predicate OwnedBy(m: Mapping, device: Uuid) {
    m.sourceDevice == device && m.state == Active
  }

  function Disconnected(ms: seq<Mapping>, device: Uuid, now: nat): seq<Mapping> {
    seq(|ms|, i requires 0 <= i < |ms| =>
      if OwnedBy(ms[i], device) then ms[i].(disconnectedAt := Some(now)) else ms[i])
  }

  function Disconnect(s: Runtime, device: Uuid, now: nat): Runtime {
    s.(connected := s.connected - {device}, mappings := Disconnected(s.mappings, device, now))
  }

  function Beaten(ms: seq<Mapping>, device: Uuid, now: nat): seq<Mapping> {
    seq(|ms|, i requires 0 <= i < |ms| =>
      if OwnedBy(ms[i], device) then ms[i].(lastHeartbeat := now, disconnectedAt := None) else ms[i])
  }

  function Heartbeat(s: Runtime, device: Uuid, now: nat): Runtime {
    s.(mappings := Beaten(s.mappings, device, now))
  }

  predicate Expired(m: Mapping, lease: LeaseConfig, connected: set<Uuid>, now: nat) {
    m.state == Active && m.sourceDevice !in connected && SaturatingSub(now, m.lastHeartbeat) >= lease.timeout
  }

  function Ticked(ms: seq<Mapping>, lease: LeaseConfig, connected: set<Uuid>, now: nat): seq<Mapping> {
    seq(|ms|, i requires 0 <= i < |ms| =>
      if Expired(ms[i], lease, connected, now) then ms[i].(state := Released) else ms[i])
  }

  function SchedulerTick(s: Runtime, now: nat): Runtime {
    s.(mappings := Ticked(s.mappings, s.lease, s.connected, now))
  }

  // ----- Mappings -----

  /** The index of the mapping with this id; the length of the table when there is none. */
  function IndexOf(ms: seq<Mapping>, id: Uuid): (r: nat)
    ensures r <= |ms| && (r < |ms| ==> ms[r].id == id)
    ensures forall i :: 0 <= i < r ==> ms[i].id != id
  {
    if ms == [] || ms[0].id == id then 0 else 1 + IndexOf(ms[1..], id)
  }

  predicate Owns(m: Mapping, target: Address) {
    m.state == Active && m.target == target
  }

  /** `find_mapping_for_target`. */
  function OwnerOf(ms: seq<Mapping>, target: Address): (r: nat)
    ensures r <= |ms| && (r < |ms| ==> Owns(ms[r], target))
    ensures forall i :: 0 <= i < r ==> !Owns(ms[i], target)
  {
    if ms == [] || Owns(ms[0], target) then 0 else 1 + OwnerOf(ms[1..], target)
  }

  function RemoveAt(ms: seq<Mapping>, i: nat): seq<Mapping>
    requires i < |ms|
  {
    ms[..i] + ms[i + 1..]
  }

  predicate CanReclaim(s: Runtime, m: Mapping, now: nat) {
    if m.sourceDevice !in s.connected && m.disconnectedAt.Some?
    then SaturatingSub(now, m.disconnectedAt.value) >= s.lease.reclaimGrace
    else SaturatingSub(now, m.lastHeartbeat) >= s.lease.timeout
  }

  /** The checks `create_mapping` and `update_mapping` share, in their order. */
  ghost function CheckRequest(s: Runtime, req: MappingRequest): Result<(), CoreError> {
    if s.mode == Recording then Err(MappingBlockedInRecording)
    else
      var attr :- GetAttr(s.scenes, req.target);
      if MaskFits(attr.current, req.mask) then Ok(()) else Err(InvalidComponentMask)
  }

  function NewMapping(id: Uuid, req: MappingRequest, now: nat): Mapping {
    Mapping(id, req.sourceDevice, req.sourceOutput, req.target, req.mask, false, Active, now, None)
  }

  /** The table after room has been made for a new owner of the target. */
  function Evicted(ms: seq<Mapping>, target: Address): seq<Mapping> {
    if OwnerOf(ms, target) < |ms| then RemoveAt(ms, OwnerOf(ms, target)) else ms
  }

  ghost function CreateMapping(s: Runtime, id: Uuid, req: MappingRequest, now: nat): (Runtime, Result<Uuid, CoreError>)
  {
    var owner := OwnerOf(s.mappings, req.target);
    if CheckRequest(s, req).Err? then (s, Err(CheckRequest(s, req).error))
    else if owner < |s.mappings| && s.mappings[owner].lock then (s, Err(MappingDenied(Locked)))
    else if owner < |s.mappings| && !CanReclaim(s, s.mappings[owner], now) then (s, Err(MappingDenied(AlreadyOwned)))
    else (s.(mappings := Evicted(s.mappings, req.target) + [NewMapping(id, req, now)]), Ok(id))
  }

  function SetMappingLock(s: Runtime, id: Uuid, lock: bool): (Runtime, Result<(), CoreError>) {
    var i := IndexOf(s.mappings, id);
    if s.mode == Recording then (s, Err(MappingBlockedInRecording))
    else if i == |s.mappings| then (s, Err(MappingDenied(MappingNotFound)))
    else (s.(mappings := s.mappings[i := s.mappings[i].(lock := lock)]), Ok(()))
  }

  function RemoveMapping(s: Runtime, id: Uuid): (Runtime, Result<(), CoreError>) {
    var i := IndexOf(s.mappings, id);
    if s.mode == Recording then (s, Err(MappingBlockedInRecording))
    else if i == |s.mappings| then (s, Err(MappingDenied(MappingNotFound)))
    else (s.(mappings := RemoveAt(s.mappings, i)), Ok(()))
  }

  function Redirected(m: Mapping, req: MappingRequest, now: nat): Mapping {
    m.(sourceDevice := req.sourceDevice, sourceOutput := req.sourceOutput, target := req.target,
       mask := req.mask, lastHeartbeat := now, disconnectedAt := None)
  }

  ghost function UpdateMapping(s: Runtime, id: Uuid, req: MappingRequest, now: nat): (Runtime, Result<(), CoreError>) {
    var i := IndexOf(s.mappings, id);
    if CheckRequest(s, req).Err? then (s, CheckRequest(s, req))
    else if i == |s.mappings| then (s, Err(MappingDenied(MappingNotFound)))
    else if s.mappings[i].lock then (s, Err(MappingDenied(Locked)))
    else (s.(mappings := s.mappings[i := Redirected(s.mappings[i], req, now)]), Ok(()))
  }

  // ----- Routing and updates -----

  function StripPrefix(s: string, prefix: string): Option<string> {
    if prefix <= s then Some(s[|prefix|..]) else None
  }

  /** `source_output_matches`. */
  predicate OutputMatches(mappingOutput: string, device: Uuid, updateOutput: string) {
    var prefix := device.text + ".";
    || mappingOutput == updateOutput
    || StripPrefix(mappingOutput, prefix) == Some(updateOutput)
    || StripPrefix(updateOutput, prefix) == Some(mappingOutput)
  }

  /** Either name may carry the device's id as a prefix, so the relation is symmetric. */
  lemma OutputMatchesMeaning(m: string, device: Uuid, u: string)
    ensures OutputMatches(m, device, u) <==> m == u || m == device.text + "." + u || u == device.text + "." + m
    ensures OutputMatches(m, device, u) == OutputMatches(u, device, m)
  {
    var prefix := device.text + ".";
    assert (prefix + u)[|prefix|..] == u && (prefix + m)[|prefix|..] == m;
    assert prefix <= prefix + u && prefix <= prefix + m;
    if prefix <= m { assert m == prefix + m[|prefix|..]; }
    if prefix <= u { assert u == prefix + u[|prefix|..]; }
  }

  predicate Routes(m: Mapping, scene: Uuid, device: Uuid, output: string) {
    && m.state == Active && m.sourceDevice == device
    && OutputMatches(m.sourceOutput, device, output)
    && m.target.scene == scene
  }

  /** The first mapping that carries this output of the device into the active scene. */
  function RouteOf(ms: seq<Mapping>, scene: Uuid, device: Uuid, output: string): (r: nat)
    ensures r <= |ms| && (r < |ms| ==> Routes(ms[r], scene, device, output))
    ensures forall i :: 0 <= i < r ==> !Routes(ms[i], scene, device, output)
  {
    if ms == [] || Routes(ms[0], scene, device, output) then 0 else 1 + RouteOf(ms[1..], scene, device, output)
  }

  /** The new current value of an attribute fed with `source` through a mask. */
  function UpdateValue(root: real -> real, attr: SceneAttribute, source: AttributeValue,
                       mask: Mask): Result<AttributeValue, CoreError>
  {
    var transformed :- Transformed(root, attr, source, mask);
    Ok(ApplyFilters(attr.current, transformed, attr.chain))
  }

  /** What stays fixed while one batch is applied. */
  datatype Context = Context(mappings: seq<Mapping>, scene: Uuid, device: Uuid, root: real -> real)

  type Applied = map<string, AttributeValue>

  datatype Outcome = Outcome(scenes: map<Uuid, Scene>, result: Result<Applied, CoreError>)

  /** One update sent to a known address. */
  function Feed(root: real -> real, scenes: map<Uuid, Scene>, target: Address, mask: Mask,
                source: AttributeValue): Outcome
  {
    match GetAttr(scenes, target)
    case Err(e) => Outcome(scenes, Err(e))
    case Ok(attr) =>
      if !attr.live then Outcome(scenes, Ok(map[]))
      else match UpdateValue(root, attr, source, mask)
        case Err(e) => Outcome(scenes, Err(e))
        case Ok(v) =>
          var name := scenes[target.scene].objects[target.obj].name + "." + attr.name;
          Outcome(PutAttr(scenes, target, attr.(current := v)), Ok(map[name := v]))
  }

  /** One iteration of the loop in `apply_updates`. */
  function ApplyOne(c: Context, scenes: map<Uuid, Scene>, u: AttributeUpdate): Outcome {
    var i := RouteOf(c.mappings, c.scene, c.device, u.output);
    if i == |c.mappings| then Outcome(scenes, Err(MappingDenied(NoActiveMapping(u.output))))
    else Feed(c.root, scenes, c.mappings[i].target, c.mappings[i].mask, u.value)
  }

  /** What `applied` so far adds to an outcome of the remaining updates. */
  function After(applied: Applied, rest: Outcome): Outcome {
    if rest.result.Ok? then rest.(result := Ok(applied + rest.result.value)) else rest
  }

  lemma AfterNothing(rest: Outcome)
    ensures After(map[], rest) == rest
  {
    if rest.result.Ok? { assert map[] + rest.result.value == rest.result.value; }
  }

  lemma AfterTwice(a: Applied, b: Applied, rest: Outcome)
    ensures After(a, After(b, rest)) == After(a + b, rest)
  {
    if rest.result.Ok? { assert a + (b + rest.result.value) == (a + b) + rest.result.value; }
  }

  /** The whole loop: stop at the first error, keeping what was written before it. */
  function ApplyAll(c: Context, scenes: map<Uuid, Scene>, us: seq<AttributeUpdate>): Outcome
    decreases us
  {
    if us == [] then Outcome(scenes, Ok(map[]))
    else
      var first := ApplyOne(c, scenes, us[0]);
      if first.result.Err? then first else After(first.result.value, ApplyAll(c, first.scenes, us[1..]))
  }

  function ApplyUpdates(s: Runtime, device: Uuid, us: seq<AttributeUpdate>, now: nat)
    : (Runtime, Result<Applied, CoreError>)
  {
    var s1 := Heartbeat(s, device, now);
    if s.mode == Idle then (s1, Ok(map[]))
    else if s.activeScene.None? then (s1, Err(MappingDenied(NoActiveScene)))
    else
      var out := ApplyAll(Context(s1.mappings, s.activeScene.value, device, s.root), s.scenes, us);
      (s1.(scenes := out.scenes, tickCount := if out.result.Ok? then s.tickCount + 1 else s.tickCount), out.result)
  }

  // ----- Baselines -----

  function ResetAttr(attr: SceneAttribute): SceneAttribute { attr.(current := attr.default) }

  function CommitAttr(attr: SceneAttribute): SceneAttribute { attr.(default := attr.current) }

  datatype Direction = ToBaseline | FromCurrent

  function Rebased(attr: SceneAttribute, dir: Direction): SceneAttribute {
    if dir == ToBaseline then ResetAttr(attr) else CommitAttr(attr)
  }

  function RebasedObject(obj: SceneObject, dir: Direction): SceneObject {
    obj.(attributes := map n | n in obj.attributes :: Rebased(obj.attributes[n], dir))
  }

  function RebasedScene(scene: Scene, dir: Direction): Scene {
    scene.(objects := map o | o in scene.objects :: RebasedObject(scene.objects[o], dir))
  }

  predicate Dirty(attr: SceneAttribute) { attr.current != attr.default }

  /** The attributes of an object whose current value has left the baseline. */
  function DirtyIn(obj: SceneObject): set<string> {
    set n | n in obj.attributes && Dirty(obj.attributes[n])
  }

  function DirtyInScene(scene: Scene): set<(Uuid, string)> {
    set o, n | o in scene.objects && n in DirtyIn(scene.objects[o]) :: (o, n)
  }

  /** `reset_scene_to_baseline` and `commit_scene_baseline`; both return how many attributes changed. */
  function RebaseScene(s: Runtime, id: Uuid, dir: Direction): (Runtime, Result<nat, CoreError>) {
    if id !in s.scenes then (s, Err(SceneNotFound(id)))
    else (s.(scenes := s.scenes[id := RebasedScene(s.scenes[id], dir)]), Ok(|DirtyInScene(s.scenes[id])|))
  }

  function CommitObject(s: Runtime, id: Uuid, obj: Uuid): (Runtime, Result<nat, CoreError>) {
    if id !in s.scenes then (s, Err(SceneNotFound(id)))
    else if obj !in s.scenes[id].objects then (s, Err(ObjectNotFound(obj)))
    else
      var scene := s.scenes[id];
      var committed := scene.(objects := scene.objects[obj := RebasedObject(scene.objects[obj], FromCurrent)]);
      (s.(scenes := s.scenes[id := committed]), Ok(|DirtyIn(scene.objects[obj])|))
  }

  // ----- Runs -----

  datatype Op =
    | OpLoadScene(scene: Scene)
    | OpSetActiveScene(id: Uuid)
    | OpSetMode(mode: Mode)
    | OpConnect(device: Uuid)
    | OpDisconnect(device: Uuid, now: nat)
    | OpHeartbeat(device: Uuid, now: nat)
    | OpCreate(id: Uuid, req: MappingRequest, now: nat)
    | OpSetLock(id: Uuid, lock: bool)
    | OpRemove(id: Uuid)
    | OpUpdate(id: Uuid, req: MappingRequest, now: nat)
    | OpTick(now: nat)
    | OpApply(device: Uuid, updates: seq<AttributeUpdate>, now: nat)
    | OpRebase(id: Uuid, dir: Direction)
    | OpCommitObject(id: Uuid, obj: Uuid)

  /** The state after one call; `OpCreate` carries the id the call draws. */
  ghost function Step(s: Runtime, op: Op): Runtime {
    match op
    case OpLoadScene(scene) => LoadScene(s, scene)
    case OpSetActiveScene(id) => SetActiveScene(s, id).0
    case OpSetMode(mode) => SetMode(s, mode).0
    case OpConnect(d) => Connect(s, d)
    case OpDisconnect(d, now) => Disconnect(s, d, now)
    case OpHeartbeat(d, now) => Heartbeat(s, d, now)
    case OpCreate(id, req, now) => CreateMapping(s, id, req, now).0
    case OpSetLock(id, lock) => SetMappingLock(s, id, lock).0
    case OpRemove(id) => RemoveMapping(s, id).0
    case OpUpdate(id, req, now) => UpdateMapping(s, id, req, now).0
    case OpTick(now) => SchedulerTick(s, now)
    case OpApply(d, us, now) => ApplyUpdates(s, d, us, now).0
    case OpRebase(id, dir) => RebaseScene(s, id, dir).0
    case OpCommitObject(id, obj) => CommitObject(s, id, obj).0
  }

  ghost function Run(s: Runtime, ops: seq<Op>): Runtime
    decreases ops
  {
    if ops == [] then s else Run(Step(s, ops[0]), ops[1..])
  }

  lemma RunThree(s: Runtime, a: Op, b: Op, c: Op)
    ensures Run(s, [a, b, c]) == Step(Step(Step(s, a), b), c)
  {
    assert [a, b, c][1..] == [b, c] && [b, c][1..] == [c] && [c][1..] == [];
    assert Run(Step(s, a), [b, c]) == Run(Step(Step(s, a), b), [c]);
  }

  lemma RunFour(s: Runtime, a: Op, b: Op, c: Op, d: Op)
    ensures Run(s, [a, b, c, d]) == Step(Step(Step(Step(s, a), b), c), d)
  {
    assert [a, b, c, d][1..] == [b, c, d] && [b, c, d][1..] == [c, d] && [c, d][1..] == [d] && [d][1..] == [];
    assert Run(Step(Step(s, a), b), [c, d]) == Run(Step(Step(Step(s, a), b), c), [d]);
    assert Run(Step(s, a), [b, c, d]) == Run(Step(Step(s, a), b), [c, d]);
  }

  lemma RunFive(s: Runtime, a: Op, b: Op, c: Op, d: Op, e: Op)
    ensures Run(s, [a, b, c, d, e]) == Step(Step(Step(Step(Step(s, a), b), c), d), e)
  {
    assert [a, b, c, d, e][1..] == [b, c, d, e] && [b, c, d, e][1..] == [c, d, e];
    assert [c, d, e][1..] == [d, e] && [d, e][1..] == [e] && [e][1..] == [];
    assert Run(Step(Step(Step(s, a), b), c), [d, e]) == Run(Step(Step(Step(Step(s, a), b), c), d), [e]);
    assert Run(Step(Step(s, a), b), [c, d, e]) == Run(Step(Step(Step(s, a), b), c), [d, e]);
    assert Run(Step(s, a), [b, c, d, e]) == Run(Step(Step(s, a), b), [c, d, e]);
  }

  ghost function Ids(ms: seq<Mapping>): set<Uuid> {
    set m | m in ms :: m.id
  }

  ghost predicate UniqueIds(ms: seq<Mapping>) {
    forall i, j :: 0 <= i < j < |ms| ==> ms[i].id != ms[j].id
  }

  /** Every id a create draws is new: not among `used`, nor drawn earlier in the run. */
  ghost predicate FreshRun(used: set<Uuid>, ops: seq<Op>)
    decreases ops
  {
    ops != [] ==>
      if ops[0].OpCreate? then ops[0].id !in used && FreshRun(used + {ops[0].id}, ops[1..])
      else FreshRun(used, ops[1..])
  }

  /** The mapping table after a step: all that the laws about mappings look at. */
  ghost function TableAfter(s: Runtime, op: Op): seq<Mapping> {
    match op
    case OpDisconnect(d, now) => Disconnected(s.mappings, d, now)
    case OpHeartbeat(d, now) => Beaten(s.mappings, d, now)
    case OpApply(d, _, now) => Beaten(s.mappings, d, now)
    case OpCreate(id, req, now) => CreateMapping(s, id, req, now).0.mappings
    case OpSetLock(id, lock) => SetMappingLock(s, id, lock).0.mappings
    case OpRemove(id) => RemoveMapping(s, id).0.mappings
    case OpUpdate(id, req, now) => UpdateMapping(s, id, req, now).0.mappings
    case OpTick(now) => Ticked(s.mappings, s.lease, s.connected, now)
    case _ => s.mappings
  }

  lemma StepTable(s: Runtime, op: Op)
    ensures Step(s, op).mappings == TableAfter(s, op)
  {
  }

  lemma StepKeepsConfig(s: Runtime, op: Op)
    ensures Step(s, op).lease == s.lease && Step(s, op).root == s.root
  {
  }

  lemma StepConnected(s: Runtime, op: Op)
    ensures Step(s, op).connected ==
            match op
            case OpConnect(d) => s.connected + {d}
            case OpDisconnect(d, _) => s.connected - {d}
            case _ => s.connected
  {
  }

  lemma StepKeepsScene(s: Runtime, op: Op)
    requires s.activeScene.Some?
    ensures Step(s, op).activeScene.Some?
  {
  }

  /** Where entry i of the table after a step came from: an older entry, in the same order, or the
      new mapping at the end. */
  ghost function Origin(s: Runtime, op: Op, i: nat): nat {
    if op.OpRemove? && RemoveMapping(s, op.id).1.Ok? && i >= IndexOf(s.mappings, op.id) then i + 1
    else if op.OpCreate? && i >= OwnerOf(s.mappings, op.req.target) && CreateMapping(s, op.id, op.req, op.now).1.Ok?
    then i + 1
    else i
  }

  /** Entry i is the mapping a create made. */
  ghost predicate IsNew(s: Runtime, op: Op, i: nat) {
    op.OpCreate? && CreateMapping(s, op.id, op.req, op.now).1.Ok? && i == |TableAfter(s, op)| - 1
  }

  lemma CreateOrigin(s: Runtime, id: Uuid, req: MappingRequest, now: nat, i: nat)
    requires CreateMapping(s, id, req, now).1.Ok?
    ensures var ms, owner := CreateMapping(s, id, req, now).0.mappings, OwnerOf(s.mappings, req.target);
            && (i + 1 == |ms| ==> ms[i] == NewMapping(id, req, now))
            && (i + 1 < |ms| ==> var k := if i >= owner then i + 1 else i; k < |s.mappings| && ms[i] == s.mappings[k])
  {
  }

  lemma RemoveOrigin(s: Runtime, id: Uuid, i: nat)
    requires RemoveMapping(s, id).1.Ok? && i < |RemoveMapping(s, id).0.mappings|
    ensures var k := if i >= IndexOf(s.mappings, id) then i + 1 else i;
            k < |s.mappings| && RemoveMapping(s, id).0.mappings[i] == s.mappings[k]
  {
  }

  /** The entry keeps its id, and becomes Released at most. */
  predicate Kept(before: Mapping, after: Mapping) {
    after.id == before.id && (after.state == Active ==> before.state == Active)
  }

  lemma OtherOrigin(s: Runtime, op: Op, i: nat)
    requires i < |TableAfter(s, op)|
    requires op.OpCreate? ==> CreateMapping(s, op.id, op.req, op.now).1.Err?
    requires op.OpRemove? ==> RemoveMapping(s, op.id).1.Err?
    ensures i < |s.mappings| && Kept(s.mappings[i], TableAfter(s, op)[i])
  {
  }

  lemma TableOrigin(s: Runtime, op: Op, i: nat)
    requires i < |TableAfter(s, op)|
    ensures if IsNew(s, op, i) then TableAfter(s, op)[i] == NewMapping(op.id, op.req, op.now)
            else Origin(s, op, i) < |s.mappings| && Kept(s.mappings[Origin(s, op, i)], TableAfter(s, op)[i])
  {
    if op.OpCreate? && CreateMapping(s, op.id, op.req, op.now).1.Ok? { CreateOrigin(s, op.id, op.req, op.now, i); }
    else if op.OpRemove? && RemoveMapping(s, op.id).1.Ok? { RemoveOrigin(s, op.id, i); }
    else { OtherOrigin(s, op, i); }
  }

  lemma TableIds(s: Runtime, op: Op)
    ensures Ids(TableAfter(s, op)) <= Ids(s.mappings) + (if op.OpCreate? then {op.id} else {})
    ensures UniqueIds(s.mappings) && (op.OpCreate? ==> op.id !in Ids(s.mappings)) ==> UniqueIds(TableAfter(s, op))
  {
    var ms := TableAfter(s, op);
    forall i | 0 <= i < |ms| ensures ms[i].id in Ids(s.mappings) + (if op.OpCreate? then {op.id} else {}) {
      TableOrigin(s, op, i);
    }
    if UniqueIds(s.mappings) && (op.OpCreate? ==> op.id !in Ids(s.mappings)) {
      forall i, j | 0 <= i < j < |ms| ensures ms[i].id != ms[j].id { OriginsDiffer(s, op, i, j); }
    }
  }

  lemma OriginsDiffer(s: Runtime, op: Op, i: nat, j: nat)
    requires UniqueIds(s.mappings) && (op.OpCreate? ==> op.id !in Ids(s.mappings)) && i < j < |TableAfter(s, op)|
    ensures TableAfter(s, op)[i].id != TableAfter(s, op)[j].id
  {
    TableOrigin(s, op, i);
    TableOrigin(s, op, j);
    assert Origin(s, op, i) < Origin(s, op, j) || IsNew(s, op, j);
  }

  lemma StepIds(s: Runtime, op: Op)
    ensures Ids(Step(s, op).mappings) <= Ids(s.mappings) + (if op.OpCreate? then {op.id} else {})
    ensures UniqueIds(s.mappings) && (op.OpCreate? ==> op.id !in Ids(s.mappings)) ==> UniqueIds(Step(s, op).mappings)
  {
    StepTable(s, op);
    TableIds(s, op);
  }
}
