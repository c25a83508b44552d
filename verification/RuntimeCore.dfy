/** `RuntimeCore`: the object whose methods update scenes, mappings, mode and devices in place.
    Each method takes the state to the one its function in `RuntimeSpec` gives. */
module Core {
  import opened Model
  import opened Transform
  import opened Filters
  import opened RuntimeSpec

  class RuntimeCore {
    var scenes: map<Uuid, Scene>
    var activeScene: Option<Uuid>
    var mode: Mode
    var mappings: seq<Mapping>
    var connectedDevices: set<Uuid>
    var tickCount: nat
    const lease: LeaseConfig
    const root: real -> real

    ghost function State(): Runtime
      reads this
    {
      Runtime(scenes, activeScene, mode, mappings, lease, connectedDevices, tickCount, root)
    }

    constructor (lease: LeaseConfig, root: real -> real)
      ensures State() == Initial(lease, root)
    {
      scenes, activeScene, mode, mappings := map[], None, Idle, [];
      connectedDevices, tickCount := {}, 0;
      this.lease, this.root := lease, root;
    }

    method LoadScene(scene: Scene)
      modifies this
      ensures State() == RuntimeSpec.LoadScene(old(State()), scene)
    {
      scenes := scenes[scene.id := scene];
      if activeScene.None? { activeScene := Some(scene.id); }
    }

    method SetActiveScene(id: Uuid) returns (r: Result<(), CoreError>)
      modifies this
      ensures (State(), r) == RuntimeSpec.SetActiveScene(old(State()), id)
    {
      if id !in scenes { return Err(SceneNotFound(id)); }
      activeScene := Some(id);
      return Ok(());
    }

    method SetMode(to: Mode) returns (r: Result<(), CoreError>)
      modifies this
      ensures (State(), r) == RuntimeSpec.SetMode(old(State()), to)
    {
      var valid := match (mode, to) {
        case (Idle, Live) => true
        case (Live, Idle) => true
        case (Live, Recording) => true
        case (Recording, Live) => true
        case (Recording, Idle) => true
        case (Idle, Idle) => true
        case (Live, Live) => true
        case (Recording, Recording) => true
        case _ => false
      };
      if !valid { return Err(InvalidModeTransition(mode, to)); }
      mode := to;
      return Ok(());
    }

    method RegisterDeviceConnected(device: Uuid)
      modifies this
      ensures State() == Connect(old(State()), device)
    {
      connectedDevices := connectedDevices + {device};
    }

    method RegisterDeviceDisconnected(device: Uuid, now: nat)
      modifies this
      ensures State() == Disconnect(old(State()), device, now)
    {
      connectedDevices := connectedDevices - {device};
      ghost var before := mappings;
      for i := 0 to |mappings|
        invariant |mappings| == |before|
        invariant State() == old(State()).(connected := old(connectedDevices) - {device}, mappings := mappings)
        invariant mappings[..i] == Disconnected(before, device, now)[..i] && mappings[i..] == before[i..]
      {
        if mappings[i].sourceDevice == device && mappings[i].state == Active {
          mappings := mappings[i := mappings[i].(disconnectedAt := Some(now))];
        }
      }
    }

    method Heartbeat(device: Uuid, now: nat)
      modifies this
      ensures State() == RuntimeSpec.Heartbeat(old(State()), device, now)
    {
      ghost var before := mappings;
      for i := 0 to |mappings|
        invariant |mappings| == |before|
        invariant State() == old(State()).(mappings := mappings)
        invariant mappings[..i] == Beaten(before, device, now)[..i] && mappings[i..] == before[i..]
      {
        if mappings[i].sourceDevice == device && mappings[i].state == Active {
          mappings := mappings[i := mappings[i].(lastHeartbeat := now, disconnectedAt := None)];
        }
      }
    }

    method SchedulerTick(now: nat)
      modifies this
      ensures State() == RuntimeSpec.SchedulerTick(old(State()), now)
    {
      ghost var before := mappings;
      for i := 0 to |mappings|
        invariant |mappings| == |before|
        invariant State() == old(State()).(mappings := mappings)
        invariant mappings[..i] == Ticked(before, lease, connectedDevices, now)[..i] && mappings[i..] == before[i..]
      {
        if mappings[i].state == Active {
          var sourceConnected := mappings[i].sourceDevice in connectedDevices;
          var expired := SaturatingSub(now, mappings[i].lastHeartbeat) >= lease.timeout;
          if !sourceConnected && expired {
            mappings := mappings[i := mappings[i].(state := Released)];
          }
        }
      }
    }

    method CheckTarget(req: MappingRequest) returns (r: Result<(), CoreError>)
      ensures r == CheckRequest(State(), req)
    {
      if mode == Recording { return Err(MappingBlockedInRecording); }
      var attr :- GetAttr(scenes, req.target);
      var fits := ValidateComponentMask(attr.current, req.mask);
      return if fits then Ok(()) else Err(InvalidComponentMask);
    }

    method CreateMapping(newId: Uuid, req: MappingRequest, now: nat) returns (r: Result<Uuid, CoreError>)
      modifies this
      ensures (State(), r) == RuntimeSpec.CreateMapping(old(State()), newId, req, now)
    {
      var checked := CheckTarget(req);
      if checked.Err? { return Err(checked.error); }
      var owner := OwnerOf(mappings, req.target);
      if owner < |mappings| {
        var existing := mappings[owner];
        if existing.lock { return Err(MappingDenied(Locked)); }
        var reclaimable := Reclaimable(existing, now);
        if !reclaimable { return Err(MappingDenied(AlreadyOwned)); }
        mappings := RemoveAt(mappings, owner);
      }
      mappings := mappings + [NewMapping(newId, req, now)];
      return Ok(newId);
    }

    method Reclaimable(m: Mapping, now: nat) returns (ok: bool)
      ensures ok == CanReclaim(State(), m, now)
    {
      if m.sourceDevice !in connectedDevices && m.disconnectedAt.Some? {
        return SaturatingSub(now, m.disconnectedAt.value) >= lease.reclaimGrace;
      }
      return SaturatingSub(now, m.lastHeartbeat) >= lease.timeout;
    }

    method SetMappingLock(id: Uuid, lock: bool) returns (r: Result<(), CoreError>)
      modifies this
      ensures (State(), r) == RuntimeSpec.SetMappingLock(old(State()), id, lock)
    {
      if mode == Recording { return Err(MappingBlockedInRecording); }
      var i := IndexOf(mappings, id);
      if i == |mappings| { return Err(MappingDenied(MappingNotFound)); }
      mappings := mappings[i := mappings[i].(lock := lock)];
      return Ok(());
    }

    method RemoveMapping(id: Uuid) returns (r: Result<(), CoreError>)
      modifies this
      ensures (State(), r) == RuntimeSpec.RemoveMapping(old(State()), id)
    {
      if mode == Recording { return Err(MappingBlockedInRecording); }
      var i := IndexOf(mappings, id);
      if i == |mappings| { return Err(MappingDenied(MappingNotFound)); }
      mappings := RemoveAt(mappings, i);
      return Ok(());
    }

    method UpdateMapping(id: Uuid, req: MappingRequest, now: nat) returns (r: Result<(), CoreError>)
      modifies this
      ensures (State(), r) == RuntimeSpec.UpdateMapping(old(State()), id, req, now)
    {
      r := CheckTarget(req);
      if r.Err? { return; }
      var i := IndexOf(mappings, id);
      if i == |mappings| { return Err(MappingDenied(MappingNotFound)); }
      if mappings[i].lock { return Err(MappingDenied(Locked)); }
      mappings := mappings[i := Redirected(mappings[i], req, now)];
      return Ok(());
    }

    method ApplyUpdates(device: Uuid, updates: seq<AttributeUpdate>, now: nat) returns (r: Result<Applied, CoreError>)
      modifies this
      ensures (State(), r) == RuntimeSpec.ApplyUpdates(old(State()), device, updates, now)
    {
      Heartbeat(device, now);
      if mode == Idle { return Ok(map[]); }
      if activeScene.None? { return Err(MappingDenied(NoActiveScene)); }

      ghost var c := Context(mappings, activeScene.value, device, root);
      ghost var beaten := State();
      var applied: Applied := map[];
      AfterNothing(ApplyAll(c, scenes, updates));
      assert updates[0..] == updates;
      for i := 0 to |updates|
        invariant State() == beaten.(scenes := scenes)
        invariant ApplyAll(c, beaten.scenes, updates) == After(applied, ApplyAll(c, scenes, updates[i..]))
      {
        assert updates[i..][1..] == updates[i + 1..];
        ghost var earlier, sofar := scenes, applied;
        var one := ApplyUpdate(device, updates[i]);
        if one.Err? { return Err(one.error); }
        applied := applied + one.value;
        AfterTwice(sofar, one.value, ApplyAll(c, scenes, updates[i + 1..]));
      }
      assert applied + map[] == applied;
      tickCount := tickCount + 1;
      return Ok(applied);
    }

    /** The body of the update loop; the result holds the entry for `applied`, if any. */
    method ApplyUpdate(device: Uuid, u: AttributeUpdate) returns (r: Result<Applied, CoreError>)
      requires activeScene.Some?
      modifies this
      ensures var out := ApplyOne(Context(old(mappings), old(activeScene).value, device, root), old(scenes), u);
              State() == old(State()).(scenes := out.scenes) && r == out.result
    {
      var i := RouteOf(mappings, activeScene.value, device, u.output);
      if i == |mappings| { return Err(MappingDenied(NoActiveMapping(u.output))); }
      var target := mappings[i].target;
      var attr :- GetAttr(scenes, target);
      if !attr.live { return Ok(map[]); }
      var transformed :- ComputeTransformed(root, attr, u.value, mappings[i].mask);
      var filtered := RunFilters(attr.current, transformed, attr.chain);
      var name := scenes[target.scene].objects[target.obj].name + "." + attr.name;
      scenes := PutAttr(scenes, target, attr.(current := filtered));
      return Ok(map[name := filtered]);
    }

    method RebaseScene(id: Uuid, dir: Direction) returns (r: Result<nat, CoreError>)
      modifies this
      ensures (State(), r) == RuntimeSpec.RebaseScene(old(State()), id, dir)
    {
      if id !in scenes { return Err(SceneNotFound(id)); }
      var scene, changed := RebaseObjects(scenes[id], dir);
      scenes := scenes[id := scene];
      return Ok(changed);
    }

    method CommitObject(id: Uuid, obj: Uuid) returns (r: Result<nat, CoreError>)
      modifies this
      ensures (State(), r) == RuntimeSpec.CommitObject(old(State()), id, obj)
    {
      if id !in scenes { return Err(SceneNotFound(id)); }
      var scene := scenes[id];
      if obj !in scene.objects { return Err(ObjectNotFound(obj)); }
      var committed, changed := RebaseAttributes(scene.objects[obj], FromCurrent);
      scenes := scenes[id := scene.(objects := scene.objects[obj := committed])];
      return Ok(changed);
    }
  }

  /** What the inner loop has done once it is through the names in `done`. */
  ghost predicate Through(before: map<string, SceneAttribute>, now: map<string, SceneAttribute>, done: set<string>,
                          dir: Direction)
  {
    && now.Keys == before.Keys
    && forall n :: n in before ==> now[n] == if n in done then Rebased(before[n], dir) else before[n]
  }

  ghost function DirtyThrough(obj: SceneObject, done: set<string>): set<string> {
    set n | n in DirtyIn(obj) && n in done
  }

  lemma DirtyThroughNext(obj: SceneObject, done: set<string>, n: string)
    requires n in obj.attributes && n !in done
    ensures |DirtyThrough(obj, done + {n})| == |DirtyThrough(obj, done)| + if Dirty(obj.attributes[n]) then 1 else 0
  {
    if Dirty(obj.attributes[n]) {
      assert DirtyThrough(obj, done + {n}) == DirtyThrough(obj, done) + {n};
    } else {
      assert DirtyThrough(obj, done + {n}) == DirtyThrough(obj, done);
    }
  }

  /** The inner loop of the baseline methods. */
  method RebaseAttributes(obj: SceneObject, dir: Direction) returns (next: SceneObject, changed: nat)
    ensures next == RebasedObject(obj, dir)
    ensures changed == |DirtyIn(obj)|
  {
    var attributes := obj.attributes;
    var todo := obj.attributes.Keys;
    changed := 0;
    while todo != {}
      invariant todo <= obj.attributes.Keys
      invariant Through(obj.attributes, attributes, obj.attributes.Keys - todo, dir)
      invariant changed == |DirtyThrough(obj, obj.attributes.Keys - todo)|
      decreases todo
    {
      var n :| n in todo;
      DirtyThroughNext(obj, obj.attributes.Keys - todo, n);
      assert obj.attributes.Keys - (todo - {n}) == obj.attributes.Keys - todo + {n};
      var attr := attributes[n];
      if attr.current != attr.default {
        attr := if dir == ToBaseline then attr.(current := attr.default) else attr.(default := attr.current);
        attributes := attributes[n := attr];
        changed := changed + 1;
      }
      todo := todo - {n};
    }
    assert DirtyThrough(obj, obj.attributes.Keys - todo) == DirtyIn(obj);
    assert attributes == RebasedObject(obj, dir).attributes;
    next := obj.(attributes := attributes);
  }

  ghost function Tagged(o: Uuid, names: set<string>): set<(Uuid, string)> {
    set n | n in names :: (o, n)
  }

  lemma {:induction false} TaggedCount(o: Uuid, names: set<string>)
    ensures |Tagged(o, names)| == |names|
    decreases names
  {
    if names != {} {
      var n :| n in names;
      TaggedCount(o, names - {n});
      assert Tagged(o, names) == Tagged(o, names - {n}) + {(o, n)};
    }
  }

  ghost predicate ThroughObjects(before: map<Uuid, SceneObject>, now: map<Uuid, SceneObject>, done: set<Uuid>,
                                 dir: Direction)
  {
    && now.Keys == before.Keys
    && forall o :: o in before ==> now[o] == if o in done then RebasedObject(before[o], dir) else before[o]
  }

  ghost function DirtyThroughObjects(scene: Scene, done: set<Uuid>): set<(Uuid, string)> {
    set p | p in DirtyInScene(scene) && p.0 in done
  }

  lemma DirtyThroughObjectsNext(scene: Scene, done: set<Uuid>, o: Uuid)
    requires o in scene.objects && o !in done
    ensures |DirtyThroughObjects(scene, done + {o})| == |DirtyThroughObjects(scene, done)| + |DirtyIn(scene.objects[o])|
  {
    var added := Tagged(o, DirtyIn(scene.objects[o]));
    TaggedCount(o, DirtyIn(scene.objects[o]));
    assert DirtyThroughObjects(scene, done + {o}) == DirtyThroughObjects(scene, done) + added;
    assert DirtyThroughObjects(scene, done) !! added;
  }

  /** The outer loop, over the objects of a scene. */
  method RebaseObjects(scene: Scene, dir: Direction) returns (next: Scene, changed: nat)
    ensures next == RebasedScene(scene, dir)
    ensures changed == |DirtyInScene(scene)|
  {
    var objects := scene.objects;
    var todo := scene.objects.Keys;
    changed := 0;
    while todo != {}
      invariant todo <= scene.objects.Keys
      invariant ThroughObjects(scene.objects, objects, scene.objects.Keys - todo, dir)
      invariant changed == |DirtyThroughObjects(scene, scene.objects.Keys - todo)|
      decreases todo
    {
      var o :| o in todo;
      DirtyThroughObjectsNext(scene, scene.objects.Keys - todo, o);
      assert scene.objects.Keys - (todo - {o}) == scene.objects.Keys - todo + {o};
      var obj, count := RebaseAttributes(objects[o], dir);
      objects := objects[o := obj];
      changed := changed + count;
      todo := todo - {o};
    }
    assert DirtyThroughObjects(scene, scene.objects.Keys - todo) == DirtyInScene(scene);
    assert objects == RebasedScene(scene, dir).objects;
    next := scene.(objects := objects);
  }
}
