/** What a lock protects: a locked mapping against every call, over whole runs. */
module Locks {
  import opened Model
  import opened RuntimeSpec
  import opened Lease
  import opened Ownership

  ghost predicate Held(ms: seq<Mapping>, m: Mapping) {
    exists k :: 0 <= k < |ms| && SameEntry(m, ms[k])
  }

  /** The call unlocks or removes the mapping; both always succeed outside Recording. */
  predicate Frees(s: Runtime, op: Op, id: Uuid) {
    s.mode != Recording && (op == OpRemove(id) || op == OpSetLock(id, false))
  }

  /** Nothing else drops or rewires a locked mapping: a create is denied, and so is an update. */
  lemma LockHolds(s: Runtime, op: Op, i: nat)
    requires i < |s.mappings| && s.mappings[i].lock && !Frees(s, op, s.mappings[i].id)
    ensures !Drops(s, op, i) && SameEntry(s.mappings[i], Next(s, op, i))
  {
  }

  lemma UnlockFrees(s: Runtime, id: Uuid, i: nat)
    requires UniqueIds(s.mappings) && i < |s.mappings| && s.mappings[i].id == id && s.mappings[i].lock
             && s.mode != Recording
    ensures !Held(SetMappingLock(s, id, false).0.mappings, s.mappings[i])
  {
    assert IndexOf(s.mappings, id) == i;
  }

  lemma RemoveFrees(s: Runtime, id: Uuid, i: nat)
    requires UniqueIds(s.mappings) && i < |s.mappings| && s.mappings[i].id == id && s.mode != Recording
    ensures !Held(RemoveMapping(s, id).0.mappings, s.mappings[i])
  {
    assert IndexOf(s.mappings, id) == i;
    forall k | 0 <= k < |RemoveAt(s.mappings, i)|
      ensures RemoveAt(s.mappings, i)[k].id != id
    {
      RemoveOrigin(s, id, k);
    }
  }

  lemma TableHeldExactly(s: Runtime, op: Op, i: nat)
    requires UniqueIds(s.mappings) && i < |s.mappings| && s.mappings[i].lock
    ensures Held(TableAfter(s, op), s.mappings[i]) <==> !Frees(s, op, s.mappings[i].id)
  {
    var id := s.mappings[i].id;
    if !Frees(s, op, id) {
      LockHolds(s, op, i);
      TableImage(s, op, i);
      assert SameEntry(s.mappings[i], TableAfter(s, op)[Image(s, op, i)]);
    } else if op.OpRemove? {
      RemoveFrees(s, id, i);
    } else {
      UnlockFrees(s, id, i);
    }
  }

  /** A locked mapping keeps its id, source, target, mask and lock in a step exactly when the step is
      neither its removal nor its unlocking outside Recording. */
  lemma LockedKeptExactly(s: Runtime, op: Op, i: nat)
    requires UniqueIds(s.mappings) && i < |s.mappings| && s.mappings[i].lock
    ensures Held(Step(s, op).mappings, s.mappings[i]) <==> !Frees(s, op, s.mappings[i].id)
  {
    StepTable(s, op);
    TableHeldExactly(s, op, i);
  }

  /** The mapping is in the table at the start and after every step of the run. */
  ghost predicate HeldThroughout(s: Runtime, ops: seq<Op>, m: Mapping)
    decreases ops
  {
    Held(s.mappings, m) && (ops != [] ==> HeldThroughout(Step(s, ops[0]), ops[1..], m))
  }

  ghost predicate NeverFreed(s: Runtime, ops: seq<Op>, id: Uuid)
    decreases ops
  {
    ops != [] ==> !Frees(s, ops[0], id) && NeverFreed(Step(s, ops[0]), ops[1..], id)
  }

  lemma HeldStepExactly(s: Runtime, op: Op, m: Mapping)
    requires UniqueIds(s.mappings) && Held(s.mappings, m) && m.lock
    ensures Held(Step(s, op).mappings, m) <==> !Frees(s, op, m.id)
  {
    var i :| 0 <= i < |s.mappings| && SameEntry(m, s.mappings[i]);
    LockedKeptExactly(s, op, i);
    HeldAlike(Step(s, op).mappings, m, s.mappings[i]);
  }

  lemma HeldAlike(ms: seq<Mapping>, m: Mapping, n: Mapping)
    requires SameEntry(m, n)
    ensures Held(ms, m) <==> Held(ms, n)
  {
    assert forall k :: 0 <= k < |ms| ==> SameEntry(m, ms[k]) == SameEntry(n, ms[k]);
  }

  /** Locked mappings over runs: the mapping is there throughout, whatever ticks, creates and updates
      come, exactly when no call of the run unlocks or removes it. */
  lemma {:induction false} LockedRunExactly(s: Runtime, ops: seq<Op>, used: set<Uuid>, m: Mapping)
    requires UniqueIds(s.mappings) && Ids(s.mappings) <= used && FreshRun(used, ops)
    requires Held(s.mappings, m) && m.lock
    ensures HeldThroughout(s, ops, m) <==> NeverFreed(s, ops, m.id)
    decreases ops
  {
    if ops != [] {
      var op := ops[0];
      HeldStepExactly(s, op, m);
      if !Frees(s, op, m.id) {
        StepIds(s, op);
        LockedRunExactly(Step(s, op), ops[1..], if op.OpCreate? then used + {op.id} else used, m);
      }
    }
  }

  function LockingRun(scene: Scene, req: MappingRequest, id: Uuid): seq<Op> {
    [OpLoadScene(scene), OpCreate(id, req, 0), OpSetLock(id, true)]
  }

  lemma RunLockingRun(s: Runtime, scene: Scene, req: MappingRequest, id: Uuid)
    ensures Run(s, LockingRun(scene, req, id))
            == SetMappingLock(CreateMapping(LoadScene(s, scene), id, req, 0).0, id, true).0
  {
    RunThree(s, OpLoadScene(scene), OpCreate(id, req, 0), OpSetLock(id, true));
  }

  lemma LockThenRemove(s: Runtime, req: MappingRequest, id: Uuid)
    requires s.mappings == [] && s.mode != Recording && GetAttr(s.scenes, req.target).Ok? && req.mask == None
    ensures var locked := SetMappingLock(CreateMapping(s, id, req, 0).0, id, true).0;
            && locked.mappings == [NewMapping(id, req, 0).(lock := true)]
            && RemoveMapping(locked, id).1.Ok? && RemoveMapping(locked, id).0.mappings == []
  {
    CreateOnFree(s, id, req, 0);
  }

  /** The documented guarantee fails: loading any scene, creating a mapping and locking it gives a
      locked Active mapping, and the next call removes it. */
  lemma LockedRemoved(lease: LeaseConfig, root: real -> real, scene: Scene, a: Address, d: Uuid, id: Uuid)
    requires a.scene == scene.id && GetAttr(map[scene.id := scene], a).Ok?
    ensures var locked := Run(Initial(lease, root), LockingRun(scene, MappingRequest(d, "out", a, None), id));
            && |locked.mappings| == 1 && locked.mappings[0].id == id
            && locked.mappings[0].lock && locked.mappings[0].state == Active
            && RemoveMapping(locked, id).1.Ok? && RemoveMapping(locked, id).0.mappings == []
  {
    var req := MappingRequest(d, "out", a, None);
    RunLockingRun(Initial(lease, root), scene, req, id);
    LockThenRemove(LoadScene(Initial(lease, root), scene), req, id);
  }
}
