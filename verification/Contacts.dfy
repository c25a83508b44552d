/** A mapping's lease as its history tells it: when a call last reached it, since when its device has
    been gone, and until when that protects it. */
module Contacts {
  import opened Model
  import opened RuntimeSpec
  import opened Requests
  import opened Lease
  import opened Ownership

  datatype Contact = Contact(device: Uuid, last: nat, gone: Option<nat>)

  function ContactOf(m: Mapping): Contact {
    Contact(m.sourceDevice, m.lastHeartbeat, m.disconnectedAt)
  }

  /** A heartbeat or batch of the device and a granted update reach the mapping at their time; a
      disconnect of the device starts its absence. */
  ghost function Heard(c: Contact, s: Runtime, id: Uuid, op: Op): Contact {
    match op
    case OpHeartbeat(d, t) => if d == c.device then Contact(d, t, None) else c
    case OpApply(d, _, t) => if d == c.device then Contact(d, t, None) else c
    case OpDisconnect(d, t) => if d == c.device then c.(gone := Some(t)) else c
    case OpUpdate(i, req, t) =>
      if i == id && UpdateMapping(s, i, req, t).1.Ok? then Contact(req.sourceDevice, t, None) else c
    case _ => c
  }

  ghost function HeardAll(c: Contact, s: Runtime, id: Uuid, ops: seq<Op>): Contact
    decreases ops
  {
    if ops == [] then c else HeardAll(Heard(c, s, id, ops[0]), Step(s, ops[0]), id, ops[1..])
  }

  // ----- The lease fields are the history -----

  predicate Touched(m: Mapping, id: Uuid, c: Contact) {
    m.id == id && m.state == Active && ContactOf(m) == c
  }

  /** Some Active mapping `id` has this contact. */
  ghost predicate InTouch(ms: seq<Mapping>, id: Uuid, c: Contact) {
    exists i :: 0 <= i < |ms| && Touched(ms[i], id, c)
  }

  lemma NextContact(s: Runtime, op: Op, i: nat)
    requires UniqueIds(s.mappings) && i < |s.mappings| && s.mappings[i].state == Active
    ensures ContactOf(Next(s, op, i)) == Heard(ContactOf(s.mappings[i]), s, s.mappings[i].id, op)
  {
    if op.OpUpdate? && op.id == s.mappings[i].id { assert IndexOf(s.mappings, op.id) == i; }
  }

  lemma TableInTouch(s: Runtime, op: Op, id: Uuid, c: Contact)
    requires UniqueIds(s.mappings) && (op.OpCreate? ==> op.id !in Ids(s.mappings)) && InTouch(s.mappings, id, c)
    ensures ActiveId(TableAfter(s, op), id) ==> InTouch(TableAfter(s, op), id, Heard(c, s, id, op))
  {
    var i :| 0 <= i < |s.mappings| && Touched(s.mappings[i], id, c);
    TableLoses(s, op, i);
    if ActiveId(TableAfter(s, op), id) {
      LosesIsDropOrExpiry(s, op, i);
      TableImage(s, op, i);
      NextKeepsId(s, op, i);
      NextContact(s, op, i);
      assert Touched(TableAfter(s, op)[Image(s, op, i)], id, Heard(c, s, id, op));
    }
  }

  lemma LostIsGone(ms: seq<Mapping>, id: Uuid)
    ensures ActiveId(ms, id) <==> !Gone(ms, id)
  {
  }

  /** Over every run, a mapping that is still Active was last reached, and has been without its device,
      exactly as the calls since say. */
  lemma {:induction false} ContactRun(s: Runtime, ops: seq<Op>, used: set<Uuid>, id: Uuid, c: Contact)
    requires UniqueIds(s.mappings) && Ids(s.mappings) <= used && FreshRun(used, ops)
    requires InTouch(s.mappings, id, c) && id in used
    requires ActiveId(Run(s, ops).mappings, id)
    ensures InTouch(Run(s, ops).mappings, id, HeardAll(c, s, id, ops))
    decreases ops
  {
    if ops != [] {
      var op := ops[0];
      var later := if op.OpCreate? then used + {op.id} else used;
      StepTable(s, op);
      StepIds(s, op);
      TableInTouch(s, op, id, c);
      LostIsGone(Step(s, op).mappings, id);
      LostIsGone(Run(s, ops).mappings, id);
      if Gone(Step(s, op).mappings, id) { ReleaseIsAbsorbing(Step(s, op), ops[1..], later, id); }
      ContactRun(Step(s, op), ops[1..], later, id, Heard(c, s, id, op));
    }
  }

  /** A device is connected exactly when its last connect or disconnect was a connect. */
  function Present(was: bool, d: Uuid, ops: seq<Op>): bool
    decreases ops
  {
    if ops == [] then was
    else match ops[0]
      case OpConnect(e) => Present(was || e == d, d, ops[1..])
      case OpDisconnect(e, _) => Present(was && e != d, d, ops[1..])
      case _ => Present(was, d, ops[1..])
  }

  lemma {:induction false} ConnectedRun(s: Runtime, ops: seq<Op>, d: Uuid)
    ensures d in Run(s, ops).connected <==> Present(d in s.connected, d, ops)
    decreases ops
  {
    if ops != [] {
      StepConnected(s, ops[0]);
      ConnectedRun(Step(s, ops[0]), ops[1..], d);
    }
  }

  // ----- Losing -----

  /** With this contact, a connected device or one never gone is protected for the timeout, another for
      the grace. */
  predicate Overdue(c: Contact, connected: set<Uuid>, lease: LeaseConfig, now: nat) {
    if c.device !in connected && c.gone.Some? then Passed(c.gone.value, lease.reclaimGrace, now)
    else Passed(c.last, lease.timeout, now)
  }

  /** Exactly how an Active mapping is lost, said of its contact: removed outside Recording; at a tick,
      when its device is not connected and the timeout has passed since it was reached; or to an
      acceptable create on its target, when it is the first owner, unlocked and overdue. */
  lemma LostExactlyByContact(s: Runtime, op: Op, i: nat)
    requires UniqueIds(s.mappings) && i < |s.mappings| && s.mappings[i].state == Active
    requires op.OpCreate? ==> op.id !in Ids(s.mappings)
    ensures var m, c := s.mappings[i], ContactOf(s.mappings[i]);
            !ActiveId(Step(s, op).mappings, m.id) <==>
              match op
              case OpRemove(id) => id == m.id && s.mode != Recording
              case OpTick(t) => c.device !in s.connected && Passed(c.last, s.lease.timeout, t)
              case OpCreate(_, req, t) =>
                && Accepts(s, req) && FirstOwner(s.mappings, req.target, i)
                && !m.lock && Overdue(c, s.connected, s.lease, t)
              case _ => false
  {
    LostExactly(s, op, i);
    if op.OpCreate? { EvictedExactly(s, op.req, op.now, i); }
  }

  lemma EvictedExactly(s: Runtime, req: MappingRequest, now: nat, i: nat)
    requires i < |s.mappings|
    ensures OwnerOf(s.mappings, req.target) == i && CheckRequest(s, req).Ok? && CanReclaim(s, s.mappings[i], now) <==>
            Accepts(s, req) && FirstOwner(s.mappings, req.target, i)
            && Overdue(ContactOf(s.mappings[i]), s.connected, s.lease, now)
  {
    CheckExactly(s, req);
    OwnerIsFirst(s.mappings, req.target);
    if FirstOwner(s.mappings, req.target, i) { FirstOwnerUnique(s.mappings, req.target, i); }
    ReclaimIsReclaimable(s, s.mappings[i], now);
  }

  // ----- Protection from a call on -----

  /** The step comes within the timeout of the last contact, and within the grace of an absence. */
  predicate Timely(c: Contact, lease: LeaseConfig, op: Op) {
    OpTime(op).Some? ==>
      && c.last <= OpTime(op).value < c.last + lease.timeout
      && (c.gone.Some? ==> c.gone.value <= OpTime(op).value < c.gone.value + lease.reclaimGrace)
  }

  /** So does every step of the run, counted from the contact before it, and none removes the mapping. */
  ghost predicate TimelyRun(s: Runtime, c: Contact, id: Uuid, ops: seq<Op>)
    decreases ops
  {
    ops != [] ==>
      && Timely(c, s.lease, ops[0]) && ops[0] != OpRemove(id)
      && TimelyRun(Step(s, ops[0]), Heard(c, s, id, ops[0]), id, ops[1..])
  }

  lemma StepStaysInTouch(s: Runtime, op: Op, id: Uuid, c: Contact)
    requires UniqueIds(s.mappings) && (op.OpCreate? ==> op.id !in Ids(s.mappings)) && InTouch(s.mappings, id, c)
    requires Timely(c, s.lease, op) && op != OpRemove(id)
    ensures InTouch(Step(s, op).mappings, id, Heard(c, s, id, op))
  {
    var i :| 0 <= i < |s.mappings| && Touched(s.mappings[i], id, c);
    LostExactlyByContact(s, op, i);
    StepTable(s, op);
    TableInTouch(s, op, id, c);
  }

  /** While every step is timely the mapping is not lost, whatever else the run does. */
  lemma {:induction false} ContactProtects(s: Runtime, ops: seq<Op>, used: set<Uuid>, id: Uuid, c: Contact)
    requires UniqueIds(s.mappings) && Ids(s.mappings) <= used && FreshRun(used, ops)
    requires InTouch(s.mappings, id, c) && TimelyRun(s, c, id, ops)
    ensures InTouch(Run(s, ops).mappings, id, HeardAll(c, s, id, ops))
    decreases ops
  {
    if ops != [] {
      var op := ops[0];
      StepIds(s, op);
      StepStaysInTouch(s, op, id, c);
      ContactProtects(Step(s, op), ops[1..], if op.OpCreate? then used + {op.id} else used, id, Heard(c, s, id, op));
    }
  }

  /** The time of the device's next disconnect. */
  function NextDisconnect(d: Uuid, ops: seq<Op>): Option<nat>
    decreases ops
  {
    if ops == [] then None
    else if ops[0].OpDisconnect? && ops[0].device == d then Some(ops[0].now)
    else NextDisconnect(d, ops[1..])
  }

  predicate Touches(op: Op, id: Uuid) {
    op == OpRemove(id) || (op.OpUpdate? && op.id == id)
  }

  /** Every later time lies before the deadlines that h and the absence since `gone` set. */
  ghost predicate Before(ops: seq<Op>, lease: LeaseConfig, h: nat, gone: Option<nat>) {
    TimesBefore(ops, h + lease.timeout) && (gone.Some? ==> TimesBefore(ops, gone.value + lease.reclaimGrace))
  }

  function Earlier(a: Option<nat>, b: Option<nat>): Option<nat> {
    if a.Some? then a else b
  }

  lemma {:induction false} DeadlinesAreTimely(s: Runtime, now: nat, ops: seq<Op>, id: Uuid, c: Contact, h: nat,
                                              gone: Option<nat>)
    requires NonDecreasing(now, ops) && h <= c.last <= now
    requires c.gone.Some? ==> gone.Some? && gone.value <= c.gone.value <= now
    requires gone.Some? ==> gone.value <= now
    requires Before(ops, s.lease, h, Earlier(gone, NextDisconnect(c.device, ops)))
    requires forall k :: 0 <= k < |ops| ==> !Touches(ops[k], id)
    ensures TimelyRun(s, c, id, ops)
    decreases ops
  {
    if ops != [] {
      var op := ops[0];
      var next := Heard(c, s, id, op);
      var since := if gone.None? && op.OpDisconnect? && op.device == c.device then Some(op.now) else gone;
      StepKeepsConfig(s, op);
      assert !Touches(op, id);
      DeadlinesAreTimely(Step(s, op), Clock(now, op), ops[1..], id, next, h, since);
    }
  }

  /** A heartbeat or batch at h protects: until h + timeout and, from the device's next disconnect on, until
      that + grace, no run takes the mapping away but by updating or removing it. */
  lemma ReachingProtects(s: Runtime, op: Op, i: nat, ops: seq<Op>, used: set<Uuid>)
    requires UniqueIds(s.mappings) && Ids(s.mappings) <= used && FreshRun(used, ops)
    requires i < |s.mappings| && s.mappings[i].state == Active
    requires (op.OpHeartbeat? || op.OpApply?) && op.device == s.mappings[i].sourceDevice
    requires NonDecreasing(op.now, ops) && Before(ops, s.lease, op.now, NextDisconnect(op.device, ops))
    requires forall k :: 0 <= k < |ops| ==> !Touches(ops[k], s.mappings[i].id)
    ensures ActiveId(Run(Step(s, op), ops).mappings, s.mappings[i].id)
  {
    var id, c := s.mappings[i].id, Contact(op.device, op.now, None);
    var t := Step(s, op);
    StepTable(s, op);
    StepIds(s, op);
    StepKeepsConfig(s, op);
    assert Touched(t.mappings[i], id, c);
    DeadlinesAreTimely(t, op.now, ops, id, c, op.now, None);
    ContactProtects(t, ops, used, id, c);
    var k :| 0 <= k < |Run(t, ops).mappings| && Touched(Run(t, ops).mappings[k], id, HeardAll(c, t, id, ops));
  }

  /** A create makes such a contact, and nothing else does: the new mapping is last. */
  lemma CreatedInTouch(s: Runtime, id: Uuid, req: MappingRequest, now: nat)
    requires CreateMapping(s, id, req, now).1.Ok?
    ensures InTouch(CreateMapping(s, id, req, now).0.mappings, id, Contact(req.sourceDevice, now, None))
  {
    var ms := CreateMapping(s, id, req, now).0.mappings;
    assert Touched(ms[|ms| - 1], id, Contact(req.sourceDevice, now, None));
  }
}
