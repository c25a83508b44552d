/** How long a mapping is protected, over whole runs. */
module Lease {
  import opened Model
  import opened RuntimeSpec

  function OpTime(op: Op): Option<nat> {
    match op
    case OpDisconnect(_, now) => Some(now)
    case OpHeartbeat(_, now) => Some(now)
    case OpCreate(_, _, now) => Some(now)
    case OpUpdate(_, _, now) => Some(now)
    case OpTick(now) => Some(now)
    case OpApply(_, _, now) => Some(now)
    case _ => None
  }

  /** The clock after a step. */
  function Clock(now: nat, op: Op): nat {
    if OpTime(op).Some? then OpTime(op).value else now
  }

  /** The times of a run never go back, starting from `now`. */
  ghost predicate NonDecreasing(now: nat, ops: seq<Op>)
    decreases ops
  {
    ops != [] ==> now <= Clock(now, ops[0]) && NonDecreasing(Clock(now, ops[0]), ops[1..])
  }

  /** The lease bookkeeping of one mapping lies in the past. */
  ghost predicate InPast(m: Mapping, now: nat) {
    m.lastHeartbeat <= now && (m.disconnectedAt.Some? ==> m.lastHeartbeat <= m.disconnectedAt.value <= now)
  }

  /** Lease bookkeeping lies in the past, and a disconnect is never older than the last heartbeat. */
  ghost predicate Clocked(s: Runtime, now: nat) {
    AllInPast(s.mappings, now)
  }

  ghost predicate AllInPast(ms: seq<Mapping>, now: nat) {
    forall i :: 0 <= i < |ms| ==> InPast(ms[i], now)
  }

  lemma RemoveInPast(ms: seq<Mapping>, k: nat, now: nat)
    requires AllInPast(ms, now) && k < |ms|
    ensures AllInPast(RemoveAt(ms, k), now)
  {
    forall i | 0 <= i < |RemoveAt(ms, k)| ensures RemoveAt(ms, k)[i] == ms[if i < k then i else i + 1] {}
  }

  lemma CreateClocked(s: Runtime, id: Uuid, req: MappingRequest, now: nat)
    requires AllInPast(s.mappings, now)
    ensures AllInPast(CreateMapping(s, id, req, now).0.mappings, now)
  {
    var owner := OwnerOf(s.mappings, req.target);
    if owner < |s.mappings| { RemoveInPast(s.mappings, owner, now); }
  }

  lemma LaterInPast(ms: seq<Mapping>, now: nat, later: nat)
    requires AllInPast(ms, now) && now <= later
    ensures AllInPast(ms, later)
  {
    forall i | 0 <= i < |ms| ensures InPast(ms[i], later) { assert InPast(ms[i], now); }
  }

  lemma TableClocked(s: Runtime, now: nat, op: Op)
    requires AllInPast(s.mappings, now) && now <= Clock(now, op)
    ensures AllInPast(TableAfter(s, op), Clock(now, op))
  {
    LaterInPast(s.mappings, now, Clock(now, op));
    if op.OpCreate? {
      CreateClocked(s, op.id, op.req, op.now);
    } else if op.OpRemove? {
      if IndexOf(s.mappings, op.id) < |s.mappings| { RemoveInPast(s.mappings, IndexOf(s.mappings, op.id), now); }
    } else {
      EntriesClocked(s, now, op);
    }
  }

  lemma EntriesClocked(s: Runtime, now: nat, op: Op)
    requires AllInPast(s.mappings, Clock(now, op)) && !op.OpCreate? && !op.OpRemove?
    ensures AllInPast(TableAfter(s, op), Clock(now, op))
  {
  }

  lemma StepClocked(s: Runtime, now: nat, op: Op)
    requires Clocked(s, now) && now <= Clock(now, op)
    ensures Clocked(Step(s, op), Clock(now, op))
  {
    StepTable(s, op);
    TableClocked(s, now, op);
  }

  /** The clock at the end of a run. */
  function EndClock(now: nat, ops: seq<Op>): nat
    decreases ops
  {
    if ops == [] then now else EndClock(Clock(now, ops[0]), ops[1..])
  }

  lemma {:induction false} ClockedRun(s: Runtime, now: nat, ops: seq<Op>)
    requires Clocked(s, now) && NonDecreasing(now, ops)
    ensures Clocked(Run(s, ops), EndClock(now, ops))
    decreases ops
  {
    if ops != [] {
      StepClocked(s, now, ops[0]);
      ClockedRun(Step(s, ops[0]), Clock(now, ops[0]), ops[1..]);
    }
  }

  // ----- Exactly how an Active mapping is lost -----

  ghost predicate ActiveId(ms: seq<Mapping>, id: Uuid) {
    exists i :: 0 <= i < |ms| && ms[i].id == id && ms[i].state == Active
  }

  /** The only three ways an Active mapping stops being Active, each with its full condition. */
  ghost predicate Loses(s: Runtime, op: Op, i: nat)
    requires i < |s.mappings|
  {
    var m := s.mappings[i];
    match op
    case OpTick(now) => m.sourceDevice !in s.connected && SaturatingSub(now, m.lastHeartbeat) >= s.lease.timeout
    case OpRemove(id) => id == m.id && s.mode != Recording
    case OpCreate(_, req, now) =>
      OwnerOf(s.mappings, req.target) == i && !m.lock && CanReclaim(s, m, now) && CheckRequest(s, req).Ok?
    case _ => false
  }

  /** The step takes entry i out of the table. */
  ghost predicate Drops(s: Runtime, op: Op, i: nat) {
    || (op.OpRemove? && RemoveMapping(s, op.id).1.Ok? && i == IndexOf(s.mappings, op.id))
    || (op.OpCreate? && CreateMapping(s, op.id, op.req, op.now).1.Ok? && i == OwnerOf(s.mappings, op.req.target))
  }

  /** Where entry i goes in a step that keeps it. */
  ghost function Image(s: Runtime, op: Op, i: nat): nat {
    if op.OpRemove? && RemoveMapping(s, op.id).1.Ok? && i > IndexOf(s.mappings, op.id) then i - 1
    else if op.OpCreate? && i > OwnerOf(s.mappings, op.req.target) && CreateMapping(s, op.id, op.req, op.now).1.Ok?
    then i - 1
    else i
  }

  /** What the step makes of an entry it keeps. */
  ghost function Next(s: Runtime, op: Op, i: nat): Mapping
    requires i < |s.mappings|
  {
    if op.OpCreate? || op.OpRemove? then s.mappings[i] else TableAfter(s, op)[i]
  }

  lemma RemoveAtEntry(ms: seq<Mapping>, k: nat, i: nat)
    requires k < |ms| && i < |ms| && i != k
    ensures RemoveAt(ms, k)[if i > k then i - 1 else i] == ms[i]
  {
  }

  lemma CreateImage(s: Runtime, id: Uuid, req: MappingRequest, now: nat, i: nat)
    requires i < |s.mappings| && !Drops(s, OpCreate(id, req, now), i)
    ensures var ms, k := CreateMapping(s, id, req, now).0.mappings, Image(s, OpCreate(id, req, now), i);
            k < |ms| && ms[k] == s.mappings[i]
  {
    var owner := OwnerOf(s.mappings, req.target);
    if CreateMapping(s, id, req, now).1.Ok? && owner < |s.mappings| { RemoveAtEntry(s.mappings, owner, i); }
  }

  lemma TableImage(s: Runtime, op: Op, i: nat)
    requires i < |s.mappings| && !Drops(s, op, i)
    ensures Image(s, op, i) < |TableAfter(s, op)| && TableAfter(s, op)[Image(s, op, i)] == Next(s, op, i)
  {
    if op.OpCreate? {
      CreateImage(s, op.id, op.req, op.now, i);
    } else if op.OpRemove? {
      if RemoveMapping(s, op.id).1.Ok? { RemoveAtEntry(s.mappings, IndexOf(s.mappings, op.id), i); }
    }
  }

  lemma NextKeepsId(s: Runtime, op: Op, i: nat)
    requires i < |s.mappings|
    ensures Next(s, op, i).id == s.mappings[i].id
    ensures var expired := op.OpTick? && Expired(s.mappings[i], s.lease, s.connected, op.now);
            Next(s, op, i).state == if expired then Released else s.mappings[i].state
  {
  }

  lemma TableLoses(s: Runtime, op: Op, i: nat)
    requires UniqueIds(s.mappings) && i < |s.mappings| && s.mappings[i].state == Active
    requires op.OpCreate? ==> op.id !in Ids(s.mappings)
    ensures Loses(s, op, i) <==> !ActiveId(TableAfter(s, op), s.mappings[i].id)
  {
    var id, ms := s.mappings[i].id, TableAfter(s, op);
    LosesIsDropOrExpiry(s, op, i);
    if Loses(s, op, i) {
      if !Drops(s, op, i) { TableImage(s, op, i); NextKeepsId(s, op, i); }
      assert id in Ids(s.mappings);
      forall k | 0 <= k < |ms| && ms[k].id == id ensures ms[k].state == Released { TableOrigin(s, op, k); }
    } else {
      TableImage(s, op, i);
      NextKeepsId(s, op, i);
    }
  }

  lemma LostExactly(s: Runtime, op: Op, i: nat)
    requires UniqueIds(s.mappings) && i < |s.mappings| && s.mappings[i].state == Active
    requires op.OpCreate? ==> op.id !in Ids(s.mappings)
    ensures Loses(s, op, i) <==> !ActiveId(Step(s, op).mappings, s.mappings[i].id)
  {
    StepTable(s, op);
    TableLoses(s, op, i);
  }

  lemma LosesIsDropOrExpiry(s: Runtime, op: Op, i: nat)
    requires UniqueIds(s.mappings) && i < |s.mappings| && s.mappings[i].state == Active
    ensures Loses(s, op, i) <==> Drops(s, op, i) || (op.OpTick? && Expired(s.mappings[i], s.lease, s.connected, op.now))
  {
    if op.OpRemove? && op.id == s.mappings[i].id { assert IndexOf(s.mappings, op.id) == i; }
  }

  // ----- Protection over runs -----

  ghost predicate HoldsLease(m: Mapping, id: Uuid, h: nat, d: nat) {
    && m.id == id && m.state == Active && m.lastHeartbeat >= h
    && (m.disconnectedAt.Some? ==> m.disconnectedAt.value >= d)
  }

  /** Some Active mapping `id` was last heard from at h or later and, if disconnected, at d or later. */
  ghost predicate Leased(ms: seq<Mapping>, id: Uuid, h: nat, d: nat) {
    exists i :: 0 <= i < |ms| && HoldsLease(ms[i], id, h, d)
  }

  lemma NextHoldsLease(s: Runtime, op: Op, i: nat, h: nat, d: nat)
    requires i < |s.mappings| && HoldsLease(s.mappings[i], s.mappings[i].id, h, d)
    requires OpTime(op).Some? ==> h <= OpTime(op).value < h + s.lease.timeout && d <= OpTime(op).value
    ensures HoldsLease(Next(s, op, i), s.mappings[i].id, h, d)
  {
  }

  /** Before either deadline a step other than the removal of `id` keeps its lease. */
  ghost predicate InTime(s: Runtime, op: Op, h: nat, d: nat) {
    OpTime(op).Some? ==> h <= OpTime(op).value < h + s.lease.timeout && d <= OpTime(op).value < d + s.lease.reclaimGrace
  }

  lemma LeasedStays(s: Runtime, op: Op, i: nat, h: nat, d: nat)
    requires i < |s.mappings| && HoldsLease(s.mappings[i], s.mappings[i].id, h, d)
    requires op != OpRemove(s.mappings[i].id) && InTime(s, op, h, d)
    ensures !Drops(s, op, i)
  {
  }

  lemma TableLeased(s: Runtime, op: Op, id: Uuid, h: nat, d: nat)
    requires Leased(s.mappings, id, h, d) && op != OpRemove(id) && InTime(s, op, h, d)
    ensures Leased(TableAfter(s, op), id, h, d)
  {
    var i :| 0 <= i < |s.mappings| && HoldsLease(s.mappings[i], id, h, d);
    LeasedStays(s, op, i, h, d);
    TableImage(s, op, i);
    NextHoldsLease(s, op, i, h, d);
    assert HoldsLease(TableAfter(s, op)[Image(s, op, i)], id, h, d);
  }

  lemma StepLeased(s: Runtime, op: Op, id: Uuid, h: nat, d: nat)
    requires Leased(s.mappings, id, h, d) && op != OpRemove(id) && InTime(s, op, h, d)
    ensures Leased(Step(s, op).mappings, id, h, d)
  {
    StepTable(s, op);
    TableLeased(s, op, id, h, d);
  }

  ghost predicate TimesBefore(ops: seq<Op>, deadline: nat) {
    forall k :: 0 <= k < |ops| && OpTime(ops[k]).Some? ==> OpTime(ops[k]).value < deadline
  }

  lemma {:induction false} RunLeased(s: Runtime, now: nat, ops: seq<Op>, id: Uuid, h: nat, d: nat)
    requires Leased(s.mappings, id, h, d) && OpRemove(id) !in ops
    requires NonDecreasing(now, ops) && h <= now && d <= now
    requires TimesBefore(ops, h + s.lease.timeout) && TimesBefore(ops, d + s.lease.reclaimGrace)
    ensures Leased(Run(s, ops).mappings, id, h, d)
    decreases ops
  {
    if ops != [] {
      assert ops[0] in ops;
      StepLeased(s, ops[0], id, h, d);
      StepKeepsConfig(s, ops[0]);
      RunLeased(Step(s, ops[0]), Clock(now, ops[0]), ops[1..], id, h, d);
    }
  }

  function Min(a: nat, b: nat): nat { if a < b then a else b }

  /** When m may first be lost: its timeout, or the end of the grace that its disconnect (or the
      earliest one still to come) starts. */
  function Deadline(m: Mapping, lease: LeaseConfig, now: nat): nat {
    var d := if m.disconnectedAt.Some? then m.disconnectedAt.value else now;
    Min(m.lastHeartbeat + lease.timeout, d + lease.reclaimGrace)
  }

  /** Lease protection: until its deadline no run takes an Active mapping away, except by removing it. */
  lemma LeaseProtected(s: Runtime, now: nat, ops: seq<Op>, i: nat)
    requires Clocked(s, now) && NonDecreasing(now, ops)
    requires i < |s.mappings| && s.mappings[i].state == Active && OpRemove(s.mappings[i].id) !in ops
    requires TimesBefore(ops, Deadline(s.mappings[i], s.lease, now))
    ensures ActiveId(Run(s, ops).mappings, s.mappings[i].id)
  {
    var m := s.mappings[i];
    var d := if m.disconnectedAt.Some? then m.disconnectedAt.value else now;
    assert HoldsLease(m, m.id, m.lastHeartbeat, d);
    RunLeased(s, now, ops, m.id, m.lastHeartbeat, d);
    var k :| 0 <= k < |Run(s, ops).mappings| && HoldsLease(Run(s, ops).mappings[k], m.id, m.lastHeartbeat, d);
  }

  /** With timeout <= grace the whole timeout is protected, whenever the device disconnects. */
  lemma FullTimeoutProtected(s: Runtime, now: nat, ops: seq<Op>, i: nat)
    requires Clocked(s, now) && NonDecreasing(now, ops) && s.lease.timeout <= s.lease.reclaimGrace
    requires i < |s.mappings| && s.mappings[i].state == Active && OpRemove(s.mappings[i].id) !in ops
    requires TimesBefore(ops, s.mappings[i].lastHeartbeat + s.lease.timeout)
    ensures ActiveId(Run(s, ops).mappings, s.mappings[i].id)
  {
    LeaseProtected(s, now, ops, i);
  }

  /** Conversely the reclaim grace does not hold off the scheduler: a tick after the timeout
      releases a disconnected mapping, and only then, whatever the grace. */
  lemma TickReleasesExactly(s: Runtime, now: nat, i: nat)
    requires i < |s.mappings| && s.mappings[i].state == Active && s.mappings[i].lastHeartbeat <= now
    ensures SchedulerTick(s, now).mappings[i].state == Released
       <==> s.mappings[i].sourceDevice !in s.connected && now >= s.mappings[i].lastHeartbeat + s.lease.timeout
  {
  }

  /** So a disconnect followed by a tick inside the grace loses the mapping. */
  lemma LostInsideGrace(s: Runtime, d: Uuid, at: nat, now: nat, i: nat)
    requires UniqueIds(s.mappings) && i < |s.mappings| && OwnedBy(s.mappings[i], d)
    requires s.mappings[i].lastHeartbeat + s.lease.timeout <= now < at + s.lease.reclaimGrace
    ensures !ActiveId(SchedulerTick(Disconnect(s, d, at), now).mappings, s.mappings[i].id)
  {
    var s1 := Disconnect(s, d, at);
    StepIds(s, OpDisconnect(d, at));
    assert s1.mappings[i] == s.mappings[i].(disconnectedAt := Some(at));
    LostExactly(s1, OpTick(now), i);
  }

  function MapCalls(scene: Scene, d: Uuid, id: Uuid, req: MappingRequest): seq<Op> {
    [OpLoadScene(scene), OpConnect(d), OpCreate(id, req, 0)]
  }

  lemma RunMapCalls(s: Runtime, scene: Scene, d: Uuid, id: Uuid, req: MappingRequest)
    ensures Run(s, MapCalls(scene, d, id, req)) == CreateMapping(Connect(LoadScene(s, scene), d), id, req, 0).0
  {
    RunThree(s, OpLoadScene(scene), OpConnect(d), OpCreate(id, req, 0));
  }

  /** The same, and then a disconnect and a tick. */
  function ShortDisconnect(scene: Scene, d: Uuid, id: Uuid, req: MappingRequest, at: nat, now: nat): seq<Op> {
    [OpLoadScene(scene), OpConnect(d), OpCreate(id, req, 0), OpDisconnect(d, at), OpTick(now)]
  }

  function Mapped(s: Runtime, scene: Scene, d: Uuid, id: Uuid, req: MappingRequest): Runtime {
    Connect(LoadScene(s, scene), d).(mappings := s.mappings + [NewMapping(id, req, 0)])
  }

  lemma MapsTarget(s: Runtime, scene: Scene, d: Uuid, id: Uuid, req: MappingRequest)
    requires s.mappings == [] && s.mode != Recording && req.mask == None
    requires req.target.scene == scene.id && GetAttr(map[scene.id := scene], req.target).Ok?
    ensures CreateMapping(Connect(LoadScene(s, scene), d), id, req, 0).0 == Mapped(s, scene, d, id, req)
  {
  }

  lemma RunShortDisconnect(s: Runtime, scene: Scene, d: Uuid, id: Uuid, req: MappingRequest, at: nat, now: nat)
    ensures Run(s, ShortDisconnect(scene, d, id, req, at, now)) ==
            SchedulerTick(Disconnect(CreateMapping(Connect(LoadScene(s, scene), d), id, req, 0).0, d, at), now)
  {
    RunFive(s, OpLoadScene(scene), OpConnect(d), OpCreate(id, req, 0), OpDisconnect(d, at), OpTick(now));
  }

  /** A run that gets there: load any scene, connect, create at 0, disconnect, tick.  The create leaves an
      Active mapping; the tick, inside the grace but past the timeout, loses it. */
  lemma LostInsideGraceRun(lease: LeaseConfig, root: real -> real, scene: Scene, a: Address, d: Uuid, id: Uuid, at: nat,
                           now: nat)
    requires a.scene == scene.id && GetAttr(map[scene.id := scene], a).Ok?
    requires lease.timeout <= now < at + lease.reclaimGrace
    ensures var req := MappingRequest(d, "out", a, None);
            && Run(Initial(lease, root), MapCalls(scene, d, id, req)).mappings == [NewMapping(id, req, 0)]
            && !ActiveId(Run(Initial(lease, root), ShortDisconnect(scene, d, id, req, at, now)).mappings, id)
  {
    var req := MappingRequest(d, "out", a, None);
    RunMapCalls(Initial(lease, root), scene, d, id, req);
    RunShortDisconnect(Initial(lease, root), scene, d, id, req, at, now);
    MapsTarget(Initial(lease, root), scene, d, id, req);
    LostInsideGrace(Mapped(Initial(lease, root), scene, d, id, req), d, at, now, 0);
  }
}
