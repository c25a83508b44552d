/** Who owns a target, over whole runs: exclusivity, the recording freeze, absorbing release. */
module Ownership {
  import opened Model
  import opened RuntimeSpec

  /** At most one Active mapping per target. */
  ghost predicate Exclusive(ms: seq<Mapping>) {
    forall i, j :: 0 <= i < j < |ms| && ms[i].state == Active && ms[j].state == Active ==> ms[i].target != ms[j].target
  }

  /** No mapping but `id` owns the target: the check `create_mapping` makes and `update_mapping` omits. */
  ghost predicate TargetFree(ms: seq<Mapping>, id: Uuid, target: Address) {
    forall j :: 0 <= j < |ms| && j != IndexOf(ms, id) ==> !Owns(ms[j], target)
  }

  /** Redirecting keeps ownership exclusive exactly when the mapping is Released or the target is free. */
  lemma UpdateExclusiveExactly(s: Runtime, id: Uuid, req: MappingRequest, now: nat)
    requires Exclusive(s.mappings) && UpdateMapping(s, id, req, now).1.Ok?
    ensures Exclusive(UpdateMapping(s, id, req, now).0.mappings)
       <==> s.mappings[IndexOf(s.mappings, id)].state == Released || TargetFree(s.mappings, id, req.target)
  {
    var i := IndexOf(s.mappings, id);
    var ms := UpdateMapping(s, id, req, now).0.mappings;
    assert ms[i] == Redirected(s.mappings[i], req, now);
    if s.mappings[i].state == Active && !TargetFree(s.mappings, id, req.target) {
      var j :| 0 <= j < |ms| && j != i && Owns(s.mappings[j], req.target);
      assert ms[j] == s.mappings[j];
      assert !Exclusive(ms);
    }
  }

  /** Creating never breaks exclusivity: the evicted mapping was the target's only owner. */
  lemma CreateExclusive(s: Runtime, id: Uuid, req: MappingRequest, now: nat)
    requires Exclusive(s.mappings)
    ensures Exclusive(CreateMapping(s, id, req, now).0.mappings)
  {
    var kept := Evicted(s.mappings, req.target);
    var owner := OwnerOf(s.mappings, req.target);
    forall i | 0 <= i < |kept| ensures !Owns(kept[i], req.target) {
      var k := if i < owner then i else i + 1;
      assert owner < |s.mappings| ==> kept[i] == s.mappings[k];
    }
  }

  ghost predicate Guarded(s: Runtime, op: Op) {
    op.OpUpdate? && UpdateMapping(s, op.id, op.req, op.now).1.Ok? ==>
      s.mappings[IndexOf(s.mappings, op.id)].state == Released || TargetFree(s.mappings, op.id, op.req.target)
  }

  lemma RemoveExclusive(ms: seq<Mapping>, i: nat)
    requires Exclusive(ms) && i < |ms|
    ensures Exclusive(RemoveAt(ms, i))
  {
    forall k | 0 <= k < |ms| - 1 ensures RemoveAt(ms, i)[k] == ms[if k < i then k else k + 1] {}
  }

  /** Steps that leave every target alone. */
  lemma OtherExclusive(s: Runtime, op: Op)
    requires Exclusive(s.mappings) && !op.OpCreate? && !op.OpUpdate? && !op.OpRemove?
    ensures Exclusive(TableAfter(s, op))
  {
  }

  lemma TableExclusive(s: Runtime, op: Op)
    requires Exclusive(s.mappings) && Guarded(s, op)
    ensures Exclusive(TableAfter(s, op))
  {
    if op.OpCreate? {
      CreateExclusive(s, op.id, op.req, op.now);
    } else if op.OpUpdate? {
      if UpdateMapping(s, op.id, op.req, op.now).1.Ok? { UpdateExclusiveExactly(s, op.id, op.req, op.now); }
    } else if op.OpRemove? {
      if RemoveMapping(s, op.id).1.Ok? { RemoveExclusive(s.mappings, IndexOf(s.mappings, op.id)); }
    } else {
      OtherExclusive(s, op);
    }
  }

  lemma StepExclusive(s: Runtime, op: Op)
    requires Exclusive(s.mappings) && Guarded(s, op)
    ensures Exclusive(Step(s, op).mappings)
  {
    StepTable(s, op);
    TableExclusive(s, op);
  }

  ghost predicate GuardedRun(s: Runtime, ops: seq<Op>)
    decreases ops
  {
    ops != [] ==> Guarded(s, ops[0]) && GuardedRun(Step(s, ops[0]), ops[1..])
  }

  lemma StepExclusiveExactly(s: Runtime, op: Op)
    requires Exclusive(s.mappings)
    ensures Exclusive(Step(s, op).mappings) <==> Guarded(s, op)
  {
    StepTable(s, op);
    if Guarded(s, op) { TableExclusive(s, op); } else { UpdateExclusiveExactly(s, op.id, op.req, op.now); }
  }

  /** Exclusive at the start and after every step of the run. */
  ghost predicate ExclusiveThroughout(s: Runtime, ops: seq<Op>)
    decreases ops
  {
    Exclusive(s.mappings) && (ops != [] ==> ExclusiveThroughout(Step(s, ops[0]), ops[1..]))
  }

  /** Ownership is exclusive throughout a run exactly when its updates of Active mappings pick free targets. */
  lemma {:induction false} ExclusiveRunExactly(s: Runtime, ops: seq<Op>)
    requires Exclusive(s.mappings)
    ensures ExclusiveThroughout(s, ops) <==> GuardedRun(s, ops)
    decreases ops
  {
    if ops != [] {
      StepExclusiveExactly(s, ops[0]);
      if Guarded(s, ops[0]) { ExclusiveRunExactly(Step(s, ops[0]), ops[1..]); }
    }
  }

  /** Exclusive ownership over every run whose updates pick free targets. */
  lemma {:induction false} ExclusiveRun(s: Runtime, ops: seq<Op>)
    requires Exclusive(s.mappings) && GuardedRun(s, ops)
    ensures Exclusive(Run(s, ops).mappings)
    decreases ops
  {
    if ops != [] {
      StepExclusive(s, ops[0]);
      ExclusiveRun(Step(s, ops[0]), ops[1..]);
    }
  }

  lemma CreateOnFree(s: Runtime, id: Uuid, req: MappingRequest, now: nat)
    requires s.mode != Recording && GetAttr(s.scenes, req.target).Ok? && req.mask == None
    requires forall m :: m in s.mappings ==> !Owns(m, req.target)
    ensures CreateMapping(s, id, req, now).0 == s.(mappings := s.mappings + [NewMapping(id, req, now)])
  {
  }

  lemma RunLoadCreateUpdate(s: Runtime, scene: Scene, a: MappingRequest, b: MappingRequest, c: MappingRequest,
                            id1: Uuid, id2: Uuid)
    ensures Run(s, [OpLoadScene(scene), OpCreate(id1, a, 0), OpCreate(id2, b, 0), OpUpdate(id2, c, 0)]) ==
            UpdateMapping(CreateMapping(CreateMapping(LoadScene(s, scene), id1, a, 0).0, id2, b, 0).0, id2, c, 0).0
  {
    RunFour(s, OpLoadScene(scene), OpCreate(id1, a, 0), OpCreate(id2, b, 0), OpUpdate(id2, c, 0));
  }

  lemma TwoOwners(s: Runtime, toP: MappingRequest, toQ: MappingRequest, id1: Uuid, id2: Uuid)
    requires s.mappings == [] && s.mode != Recording && toP.target != toQ.target && id1 != id2
             && toP.mask == toQ.mask == None
    requires GetAttr(s.scenes, toP.target).Ok? && GetAttr(s.scenes, toQ.target).Ok?
    ensures var created := CreateMapping(CreateMapping(s, id1, toP, 0).0, id2, toQ, 0).0;
            !Exclusive(UpdateMapping(created, id2, toP, 0).0.mappings)
  {
    var m1, m2 := NewMapping(id1, toP, 0), NewMapping(id2, toQ, 0);
    CreateOnFree(s, id1, toP, 0);
    var s2 := CreateMapping(s, id1, toP, 0).0;
    CreateOnFree(s2, id2, toQ, 0);
    var s3 := CreateMapping(s2, id2, toQ, 0).0;
    assert s3.mappings[0] == m1 && s3.mappings[1] == m2;
    assert Owns(s3.mappings[0], toP.target);
    UpdateExclusiveExactly(s3, id2, toP, 0);
  }

  /** Without the guard the documented exclusivity fails: after loading any scene with two
      attributes, two creates and one update put two Active mappings on one target. */
  lemma SharedTarget(lease: LeaseConfig, root: real -> real, scene: Scene, p: Address, q: Address, d: Uuid, id1: Uuid,
                     id2: Uuid)
    requires p != q && id1 != id2 && p.scene == q.scene == scene.id
    requires GetAttr(map[scene.id := scene], p).Ok? && GetAttr(map[scene.id := scene], q).Ok?
    ensures var toP, toQ := MappingRequest(d, "out", p, None), MappingRequest(d, "out", q, None);
            !Exclusive(Run(Initial(lease, root),
                           [OpLoadScene(scene), OpCreate(id1, toP, 0), OpCreate(id2, toQ, 0),
                            OpUpdate(id2, toP, 0)]).mappings)
  {
    var toP, toQ := MappingRequest(d, "out", p, None), MappingRequest(d, "out", q, None);
    RunLoadCreateUpdate(Initial(lease, root), scene, toP, toQ, toP, id1, id2);
    TwoOwners(LoadScene(Initial(lease, root), scene), toP, toQ, id1, id2);
  }

  // ----- Recording freeze -----

  /** The same id, source, target, mask and lock; state and lease bookkeeping may differ. */
  predicate SameEntry(m: Mapping, n: Mapping) {
    n == m.(state := n.state, lastHeartbeat := n.lastHeartbeat, disconnectedAt := n.disconnectedAt)
  }

  /** The same entry, released at most. */
  predicate SameWiring(m: Mapping, n: Mapping) {
    SameEntry(m, n) && (m.state == Released ==> n.state == Released)
  }

  ghost predicate Frozen(before: seq<Mapping>, after: seq<Mapping>) {
    |before| == |after| && forall i :: 0 <= i < |before| ==> SameWiring(before[i], after[i])
  }

  ghost predicate StaysRecording(s: Runtime, ops: seq<Op>)
    decreases ops
  {
    s.mode == Recording && (ops != [] ==> StaysRecording(Step(s, ops[0]), ops[1..]))
  }

  lemma TableFrozen(s: Runtime, op: Op)
    requires s.mode == Recording
    ensures Frozen(s.mappings, TableAfter(s, op))
  {
  }

  /** While the mode stays Recording the table keeps its ids, order, sources, targets, masks and
      locks; states only go from Active to Released. */
  lemma {:induction false} RecordingFreezes(s: Runtime, ops: seq<Op>)
    requires StaysRecording(s, ops)
    ensures Frozen(s.mappings, Run(s, ops).mappings)
    decreases ops
  {
    if ops != [] {
      StepTable(s, ops[0]);
      TableFrozen(s, ops[0]);
      RecordingFreezes(Step(s, ops[0]), ops[1..]);
    }
  }

  // ----- Absorbing release -----

  /** No Active mapping carries this id. */
  ghost predicate Gone(ms: seq<Mapping>, id: Uuid) {
    forall i :: 0 <= i < |ms| && ms[i].id == id ==> ms[i].state == Released
  }

  lemma StepGone(s: Runtime, op: Op, id: Uuid)
    requires Gone(s.mappings, id) && (op.OpCreate? ==> op.id != id)
    ensures Gone(Step(s, op).mappings, id)
  {
    StepTable(s, op);
    var ms := TableAfter(s, op);
    forall i | 0 <= i < |ms| && ms[i].id == id ensures ms[i].state == Released { TableOrigin(s, op, i); }
  }

  /** Once an id is Released or removed, no heartbeat, update or create makes it Active again. */
  lemma {:induction false} ReleaseIsAbsorbing(s: Runtime, ops: seq<Op>, used: set<Uuid>, id: Uuid)
    requires FreshRun(used, ops) && id in used && Gone(s.mappings, id)
    ensures Gone(Run(s, ops).mappings, id)
    decreases ops
  {
    if ops != [] {
      StepGone(s, ops[0], id);
      ReleaseIsAbsorbing(Step(s, ops[0]), ops[1..], if ops[0].OpCreate? then used + {ops[0].id} else used, id);
    }
  }
}
