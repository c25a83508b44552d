/** The mapping markers of a recording against the state they record, over whole server runs: what
    replaying them gives, and which ids they miss. */
module ServerLog {
  import opened Model
  import opened RuntimeSpec
  import opened Lease
  import opened Container
  import opened ServerSpec

  // ----- Replay -----

  type Table = map<Uuid, Wiring>

  /** What a reader of the log makes of one marker; updates to unknown ids are ignored. */
  function ReplayOne(table: Table, marker: Marker): Table {
    match marker
    case MappingCreated(_, id, wiring) => table[id := wiring]
    case MappingUpdated(_, id, wiring) => if id in table then table[id := wiring] else table
    case MappingRemoved(_, id) => table - {id}
    case MappingLockSet(_, _, _) => table
    case ModeTransition(_, _, _) => table
  }

  function Replay(markers: seq<Marker>): Table {
    if markers == [] then map[] else ReplayOne(Replay(markers[..|markers| - 1]), markers[|markers| - 1])
  }

  lemma ReplayPush(markers: seq<Marker>, marker: Marker)
    ensures Replay(markers + [marker]) == ReplayOne(Replay(markers), marker)
  {
    assert (markers + [marker])[..|markers|] == markers;
  }

  ghost function ActiveIds(ms: seq<Mapping>): set<Uuid> {
    set i | 0 <= i < |ms| && ms[i].state == MappingState.Active :: ms[i].id
  }

  /** Every Active mapping is in the table with exactly its source, target and mask. */
  ghost predicate Covers(table: Table, ms: seq<Mapping>) {
    forall i :: 0 <= i < |ms| && ms[i].state == MappingState.Active ==>
      ms[i].id in table && table[ms[i].id] == WiringOf(ms[i])
  }

  /** The table is the Active mappings and, besides, only ids that were lost without a marker. */
  ghost predicate Agrees(table: Table, ms: seq<Mapping>, lost: set<Uuid>) {
    Covers(table, ms) && table.Keys == ActiveIds(ms) + lost && ActiveIds(ms) !! lost
  }

  /** Ids of the active recording that a tick released or a create evicted, and no remove dropped since. */
  ghost function LostAfter(s: Server, lost: set<Uuid>, call: Call): set<Uuid> {
    if call.CallStart? && StartRecording(s, call.id, call.now).1.Ok? then {}
    else if call.CallRemove? && DropMapping(s, call.id, call.now).1.Ok? then lost - {call.id}
    else lost + (ActiveIds(s.runtime.mappings) - ActiveIds(Perform(s, call).runtime.mappings))
  }

  ghost function LostAfterAll(s: Server, lost: set<Uuid>, calls: seq<Call>): set<Uuid>
    decreases calls
  {
    if calls == [] then lost else LostAfterAll(Perform(s, calls[0]), LostAfter(s, lost, calls[0]), calls[1..])
  }

  ghost predicate FreshCalls(used: set<Uuid>, calls: seq<Call>)
    decreases calls
  {
    calls != [] ==>
      if calls[0].CallCreate? then calls[0].id !in used && FreshCalls(used + {calls[0].id}, calls[1..])
      else FreshCalls(used, calls[1..])
  }

  function Used(used: set<Uuid>, call: Call): set<Uuid> {
    if call.CallCreate? then used + {call.id} else used
  }

  /** Ids are unique and known, and an active recording's log agrees with the table. */
  ghost predicate TableLogOk(ms: seq<Mapping>, recording: Option<Writer>, used: set<Uuid>, lost: set<Uuid>) {
    && UniqueIds(ms) && Ids(ms) <= used
    && (recording.Some? ==>
          && recording.value.version == V2
          && Replay(recording.value.markers).Keys <= used
          && Agrees(Replay(recording.value.markers), ms, lost))
  }

  /** The invariant of every server run. */
  ghost predicate LogOk(s: Server, used: set<Uuid>, lost: set<Uuid>) {
    TableLogOk(s.runtime.mappings, s.recording, used, lost)
  }

  // ----- The table after each kind of mapping step -----

  lemma ActiveIdsAppend(ms: seq<Mapping>, m: Mapping)
    ensures ActiveIds(ms + [m]) == ActiveIds(ms) + if m.state == MappingState.Active then {m.id} else {}
  {
    var all := ms + [m];
    forall x | x in ActiveIds(ms) ensures x in ActiveIds(all) {
      var k :| 0 <= k < |ms| && ms[k].state == MappingState.Active && ms[k].id == x;
      assert all[k] == ms[k];
    }
    assert all[|ms|] == m;
  }

  lemma ActiveIdsRemove(ms: seq<Mapping>, i: nat)
    requires UniqueIds(ms) && i < |ms|
    ensures ActiveIds(RemoveAt(ms, i)) == ActiveIds(ms) - {ms[i].id}
  {
    var kept := RemoveAt(ms, i);
    forall k | 0 <= k < |kept| ensures kept[k] == ms[if k < i then k else k + 1] && kept[k].id != ms[i].id {}
    forall x | x in ActiveIds(ms) - {ms[i].id} ensures x in ActiveIds(kept) {
      var k :| 0 <= k < |ms| && ms[k].state == MappingState.Active && ms[k].id == x;
      assert kept[if k < i then k else k - 1] == ms[k];
    }
  }

  lemma CoversRemove(table: Table, ms: seq<Mapping>, i: nat)
    requires UniqueIds(ms) && i < |ms| && Covers(table, ms)
    ensures Covers(table, RemoveAt(ms, i)) && Covers(table - {ms[i].id}, RemoveAt(ms, i))
  {
    var kept := RemoveAt(ms, i);
    forall k | 0 <= k < |kept| ensures kept[k] == ms[if k < i then k else k + 1] && kept[k].id != ms[i].id {}
  }

  /** Taking a mapping out without a marker loses its id. */
  lemma AgreesEvict(table: Table, ms: seq<Mapping>, i: nat, lost: set<Uuid>)
    requires UniqueIds(ms) && i < |ms| && Agrees(table, ms, lost) && ms[i].state == MappingState.Active
    ensures Agrees(table, RemoveAt(ms, i), lost + {ms[i].id})
  {
    ActiveIdsRemove(ms, i);
    CoversRemove(table, ms, i);
    assert ms[i].id in ActiveIds(ms);
  }

  lemma AgreesAppend(table: Table, ms: seq<Mapping>, m: Mapping, lost: set<Uuid>)
    requires Agrees(table, ms, lost) && m.state == MappingState.Active && m.id !in table
    ensures Agrees(table[m.id := WiringOf(m)], ms + [m], lost)
  {
    ActiveIdsAppend(ms, m);
  }

  lemma AgreesCreate(s: Runtime, id: Uuid, req: MappingRequest, now: nat, table: Table, lost: set<Uuid>)
    requires UniqueIds(s.mappings) && Agrees(table, s.mappings, lost) && CreateMapping(s, id, req, now).1.Ok?
    requires id !in table
    ensures var ms, m := CreateMapping(s, id, req, now).0.mappings, NewMapping(id, req, now);
            Agrees(table[id := WiringOf(m)], ms, lost + (ActiveIds(s.mappings) - ActiveIds(ms)))
  {
    var owner, kept, m := OwnerOf(s.mappings, req.target), Evicted(s.mappings, req.target), NewMapping(id, req, now);
    var gone := if owner < |s.mappings| then {s.mappings[owner].id} else {};
    if owner < |s.mappings| {
      AgreesEvict(table, s.mappings, owner, lost);
      ActiveIdsRemove(s.mappings, owner);
      assert s.mappings[owner].id in ActiveIds(s.mappings);
    }
    AgreesAppend(table, kept, m, lost + gone);
    ActiveIdsAppend(kept, m);
    assert ActiveIds(s.mappings) - ActiveIds(kept + [m]) == gone;
  }

  /** The entry a successful create logs is the one it made. */
  lemma CreatedEntry(s: Runtime, id: Uuid, req: MappingRequest, now: nat)
    requires CreateMapping(s, id, req, now).1.Ok? && id !in Ids(s.mappings)
    ensures var ms := CreateMapping(s, id, req, now).0.mappings;
            IndexOf(ms, id) < |ms| && ms[IndexOf(ms, id)] == NewMapping(id, req, now)
  {
    var kept, ms := Evicted(s.mappings, req.target), CreateMapping(s, id, req, now).0.mappings;
    forall k | 0 <= k < |kept| ensures kept[k] in s.mappings {}
    assert forall m :: m in s.mappings ==> m.id in Ids(s.mappings);
    assert ms[|kept|].id == id;
    assert IndexOf(ms, id) == |kept|;
  }

  /** A step that keeps the table's length and its entries' ids, wiring and order. */
  ghost predicate SameWirings(before: seq<Mapping>, after: seq<Mapping>) {
    |before| == |after| && forall i :: 0 <= i < |before| ==>
      && before[i].id == after[i].id && WiringOf(before[i]) == WiringOf(after[i])
      && (after[i].state == MappingState.Active ==> before[i].state == MappingState.Active)
  }

  lemma AgreesSame(table: Table, before: seq<Mapping>, after: seq<Mapping>, lost: set<Uuid>)
    requires UniqueIds(before) && Agrees(table, before, lost) && SameWirings(before, after)
    ensures Agrees(table, after, lost + (ActiveIds(before) - ActiveIds(after)))
  {
    forall x | x in ActiveIds(after) ensures x in ActiveIds(before) {
      var k :| 0 <= k < |after| && after[k].state == MappingState.Active && after[k].id == x;
      assert before[k].id == x;
    }
  }

  lemma ActiveIdsSet(ms: seq<Mapping>, i: nat, n: Mapping)
    requires i < |ms| && n.id == ms[i].id && n.state == ms[i].state
    ensures ActiveIds(ms[i := n]) == ActiveIds(ms)
  {
    var after := ms[i := n];
    assert forall k :: 0 <= k < |ms| ==> after[k].id == ms[k].id && after[k].state == ms[k].state;
  }

  lemma AgreesSet(table: Table, ms: seq<Mapping>, i: nat, n: Mapping, lost: set<Uuid>)
    requires UniqueIds(ms) && Agrees(table, ms, lost) && i < |ms| && n.id == ms[i].id && n.state == ms[i].state
    ensures Agrees(if n.id in table then table[n.id := WiringOf(n)] else table, ms[i := n], lost)
  {
    ActiveIdsSet(ms, i, n);
  }

  lemma UpdatedEntry(s: Runtime, id: Uuid, req: MappingRequest, now: nat)
    requires UpdateMapping(s, id, req, now).1.Ok?
    ensures var ms, i := UpdateMapping(s, id, req, now).0.mappings, IndexOf(s.mappings, id);
            && i < |s.mappings| && ms == s.mappings[i := Redirected(s.mappings[i], req, now)] && IndexOf(ms, id) == i
  {
    var ms, i := UpdateMapping(s, id, req, now).0.mappings, IndexOf(s.mappings, id);
    forall k | 0 <= k < i ensures ms[k].id != id { assert ms[k] == s.mappings[k]; }
    assert ms[i].id == id;
  }

  lemma AgreesRemove(s: Runtime, id: Uuid, table: Table, lost: set<Uuid>)
    requires UniqueIds(s.mappings) && Agrees(table, s.mappings, lost) && RemoveMapping(s, id).1.Ok?
    ensures Agrees(table - {id}, RemoveMapping(s, id).0.mappings, lost - {id})
  {
    var i := IndexOf(s.mappings, id);
    ActiveIdsRemove(s.mappings, i);
    CoversRemove(table, s.mappings, i);
  }

  lemma {:induction false} SeedAgrees(ms: seq<Mapping>, now: nat)
    requires UniqueIds(ms)
    ensures Agrees(Replay(SeedMarkers(ms, now)), ms, {})
  {
    if ms != [] {
      var init, m := ms[..|ms| - 1], ms[|ms| - 1];
      SeedAgrees(init, now);
      assert ms == init + [m];
      ActiveIdsAppend(init, m);
      if m.state == MappingState.Active {
        ReplayPush(SeedMarkers(init, now), MappingCreated(now, m.id, WiringOf(m)));
      } else {
        assert SeedMarkers(init, now) + [] == SeedMarkers(init, now);
      }
    }
  }

  lemma {:induction false} ReplayAfterMode(first: Marker, rest: seq<Marker>)
    requires first.ModeTransition?
    ensures Replay([first] + rest) == Replay(rest)
  {
    if rest == [] {
      assert [first] + rest == [first] && [first][..0] == [];
    } else {
      var init := rest[..|rest| - 1];
      ReplayAfterMode(first, init);
      assert [first] + rest == ([first] + init) + [rest[|rest| - 1]];
      ReplayPush([first] + init, rest[|rest| - 1]);
    }
  }

  // ----- Every call -----

  /** A marker that mentions no mapping content leaves replay alone. */
  lemma LogAgrees(s: Server, marker: Marker, used: set<Uuid>, lost: set<Uuid>)
    requires LogOk(s, used, lost)
    requires marker.ModeTransition? || marker.MappingLockSet?
    ensures LogOk(Log(s, marker), used, lost)
  {
    if s.recording.Some? { ReplayPush(s.recording.value.markers, marker); }
  }

  /** A runtime step that keeps all wirings, unlogged. */
  lemma SilentOk(s: Server, rt: Runtime, used: set<Uuid>, lost: set<Uuid>)
    requires LogOk(s, used, lost) && SameWirings(s.runtime.mappings, rt.mappings)
    ensures LogOk(s.(runtime := rt), used, lost + (ActiveIds(s.runtime.mappings) - ActiveIds(rt.mappings)))
  {
    forall x | x in Ids(rt.mappings) ensures x in used {
      var m :| m in rt.mappings && m.id == x;
      var i :| 0 <= i < |rt.mappings| && rt.mappings[i] == m;
      assert s.runtime.mappings[i] in s.runtime.mappings;
    }
    if s.recording.Some? {
      AgreesSame(Replay(s.recording.value.markers), s.runtime.mappings, rt.mappings, lost);
    }
  }

  /** A runtime step together with the marker it leaves. */
  lemma LoggedOk(s: Server, rt: Runtime, marker: Marker, used: set<Uuid>, lost: set<Uuid>)
    requires UniqueIds(rt.mappings) && Ids(rt.mappings) <= used
    requires s.recording.Some? ==>
               var table := ReplayOne(Replay(s.recording.value.markers), marker);
               s.recording.value.version == V2 && table.Keys <= used && Agrees(table, rt.mappings, lost)
    ensures LogOk(Log(s.(runtime := rt), marker), used, lost)
  {
    if s.recording.Some? { ReplayPush(s.recording.value.markers, marker); }
  }

  lemma AddIsLog(s: Server, id: Uuid, req: MappingRequest, now: nat)
    requires id !in Ids(s.runtime.mappings)
    ensures AddMapping(s, id, req, now).0 ==
            var (rt, r) := CreateMapping(s.runtime, id, req, now);
            if r.Err? then s else Log(s.(runtime := rt), MappingCreated(now, id, WiringOf(NewMapping(id, req, now))))
  {
    if CreateMapping(s.runtime, id, req, now).1.Ok? { CreatedEntry(s.runtime, id, req, now); }
  }

  lemma RedirectIsLog(s: Server, id: Uuid, req: MappingRequest, now: nat)
    requires UpdateMapping(s.runtime, id, req, now).1.Ok?
    ensures var i := IndexOf(s.runtime.mappings, id);
            && i < |s.runtime.mappings|
            && var n := Redirected(s.runtime.mappings[i], req, now);
               RedirectMapping(s, id, req, now).0
                 == Log(s.(runtime := UpdateMapping(s.runtime, id, req, now).0), MappingUpdated(now, id, WiringOf(n)))
  {
    UpdatedEntry(s.runtime, id, req, now);
  }

  lemma CreateIds(s: Runtime, id: Uuid, req: MappingRequest, now: nat)
    requires UniqueIds(s.mappings) && id !in Ids(s.mappings)
    ensures UniqueIds(CreateMapping(s, id, req, now).0.mappings)
    ensures Ids(CreateMapping(s, id, req, now).0.mappings) <= Ids(s.mappings) + {id}
  {
    TableIds(s, OpCreate(id, req, now));
  }

  lemma UpdateIds(s: Runtime, id: Uuid, req: MappingRequest, now: nat)
    requires UniqueIds(s.mappings)
    ensures UniqueIds(UpdateMapping(s, id, req, now).0.mappings)
    ensures Ids(UpdateMapping(s, id, req, now).0.mappings) <= Ids(s.mappings)
  {
    TableIds(s, OpUpdate(id, req, now));
  }

  lemma CreateOk(s: Server, id: Uuid, req: MappingRequest, now: nat, used: set<Uuid>, lost: set<Uuid>)
    requires LogOk(s, used, lost) && id !in used
    ensures var rt := CreateMapping(s.runtime, id, req, now).0;
            LogOk(AddMapping(s, id, req, now).0, used + {id},
                  lost + (ActiveIds(s.runtime.mappings) - ActiveIds(rt.mappings)))
  {
    var (rt, r) := CreateMapping(s.runtime, id, req, now);
    CreateIds(s.runtime, id, req, now);
    AddIsLog(s, id, req, now);
    if r.Ok? {
      var marker := MappingCreated(now, id, WiringOf(NewMapping(id, req, now)));
      if s.recording.Some? { AgreesCreate(s.runtime, id, req, now, Replay(s.recording.value.markers), lost); }
      LoggedOk(s, rt, marker, used + {id}, lost + (ActiveIds(s.runtime.mappings) - ActiveIds(rt.mappings)));
    } else {
      assert rt == s.runtime;
    }
  }

  lemma UpdateOk(s: Server, id: Uuid, req: MappingRequest, now: nat, used: set<Uuid>, lost: set<Uuid>)
    requires LogOk(s, used, lost)
    ensures var rt := UpdateMapping(s.runtime, id, req, now).0;
            LogOk(RedirectMapping(s, id, req, now).0, used,
                  lost + (ActiveIds(s.runtime.mappings) - ActiveIds(rt.mappings)))
  {
    var (rt, r) := UpdateMapping(s.runtime, id, req, now);
    UpdateIds(s.runtime, id, req, now);
    if r.Ok? {
      UpdatedEntry(s.runtime, id, req, now);
      RedirectIsLog(s, id, req, now);
      var i := IndexOf(s.runtime.mappings, id);
      var n := Redirected(s.runtime.mappings[i], req, now);
      ActiveIdsSet(s.runtime.mappings, i, n);
      if s.recording.Some? { AgreesSet(Replay(s.recording.value.markers), s.runtime.mappings, i, n, lost); }
      LoggedOk(s, rt, MappingUpdated(now, id, WiringOf(n)), used, lost);
      assert lost + (ActiveIds(s.runtime.mappings) - ActiveIds(rt.mappings)) == lost;
    } else {
      assert rt == s.runtime;
    }
  }

  lemma RemoveOk(s: Server, id: Uuid, now: nat, used: set<Uuid>, lost: set<Uuid>)
    requires LogOk(s, used, lost) && RemoveMapping(s.runtime, id).1.Ok?
    ensures LogOk(DropMapping(s, id, now).0, used, lost - {id})
  {
    var rt := RemoveMapping(s.runtime, id).0;
    TableIds(s.runtime, OpRemove(id));
    if s.recording.Some? { AgreesRemove(s.runtime, id, Replay(s.recording.value.markers), lost); }
    LoggedOk(s, rt, MappingRemoved(now, id), used, lost - {id});
  }

  lemma RemoveFails(s: Server, id: Uuid, now: nat, lost: set<Uuid>)
    requires RemoveMapping(s.runtime, id).1.Err?
    ensures DropMapping(s, id, now).0 == s
    ensures lost + (ActiveIds(s.runtime.mappings) - ActiveIds(s.runtime.mappings)) == lost
  {
  }

  lemma ActiveIdsAreIds(ms: seq<Mapping>)
    ensures ActiveIds(ms) <= Ids(ms)
  {
    forall x | x in ActiveIds(ms) ensures x in Ids(ms) {
      var k :| 0 <= k < |ms| && ms[k].state == MappingState.Active && ms[k].id == x;
      assert ms[k] in ms;
    }
  }

  lemma StartOk(s: Server, id: Uuid, now: nat, used: set<Uuid>, lost: set<Uuid>)
    requires LogOk(s, used, lost)
    ensures LogOk(StartRecording(s, id, now).0, used, if s.runtime.activeScene.Some? then {} else lost)
  {
    if s.runtime.activeScene.Some? {
      SeedAgrees(s.runtime.mappings, now);
      var from := if s.runtime.mode == Idle then Mode.Live else s.runtime.mode;
      ReplayAfterMode(ModeTransition(now, from, Recording), SeedMarkers(s.runtime.mappings, now));
      ActiveIdsAreIds(s.runtime.mappings);
    }
  }

  lemma StartCallOk(s: Server, call: Call, used: set<Uuid>, lost: set<Uuid>)
    requires call.CallStart? && LogOk(s, used, lost)
    ensures LogOk(Perform(s, call), Used(used, call), LostAfter(s, lost, call))
  {
    StartOk(s, call.id, call.now, used, lost);
    assert lost + (ActiveIds(s.runtime.mappings) - ActiveIds(s.runtime.mappings)) == lost;
  }

  /** Calls that log no mapping content. */
  predicate QuietCall(call: Call) {
    !call.CallCreate? && !call.CallUpdate? && !call.CallRemove? && !call.CallStart?
  }

  lemma WiringsKept(s: Runtime, op: Op)
    requires !op.OpCreate? && !op.OpUpdate? && !op.OpRemove?
    ensures SameWirings(s.mappings, TableAfter(s, op))
  {
  }

  lemma QuietWirings(s: Server, call: Call)
    requires QuietCall(call)
    ensures SameWirings(s.runtime.mappings, RuntimeAfter(s, call).mappings)
  {
    CallTable(s, call);
    if RuntimeOps(s, call) != [] { WiringsKept(s.runtime, RuntimeOps(s, call)[0]); }
  }

  lemma SessionCallKeepsRecording(s: Server, call: Call)
    requires SessionCall(call)
    ensures Perform(s, call).recording == s.recording
  {
  }

  lemma IngestRecording(s: Server, d: Uuid, us: seq<AttributeUpdate>, now: nat)
    ensures var t := Ingest(s, d, us, now).0;
            || t.recording == s.recording
            || (s.recording.Some? && t.recording.Some?
                && exists f: Frame :: t.recording.value == PushFrame(s.recording.value, f))
  {
    var t := Ingest(s, d, us, now).0;
    if t.recording != s.recording {
      var rt := ApplyUpdates(s.runtime, d, us, now).0;
      assert t.recording.value
             == PushFrame(s.recording.value, Frame(now, rt.mode, RecordAll(rt, rt.activeScene.value, d, us).value));
    }
  }

  lemma LogRecording(s: Server, rt: Runtime, m: Marker)
    ensures Log(s.(runtime := rt), m).recording ==
            if s.recording.Some? then Some(PushMarker(s.recording.value, m)) else s.recording
  {
  }

  lemma QuietRecording(s: Server, call: Call)
    requires QuietCall(call)
    ensures QuietWriter(s.recording, Perform(s, call).recording)
  {
    if SessionCall(call) {
      SessionCallKeepsRecording(s, call);
    } else if call.CallIngest? {
      IngestRecording(s, call.device, call.updates, call.now);
    } else if call.CallSetLock? {
      LogRecording(s, SetMappingLock(s.runtime, call.id, call.lock).0, MappingLockSet(call.now, call.id, call.lock));
    } else if call.CallSetMode? {
      LogRecording(s, SetMode(s.runtime, call.mode).0, ModeTransition(call.now, s.runtime.mode, call.mode));
    }
  }

  /** What a quiet call may make of a recording. */
  ghost predicate QuietWriter(before: Option<Writer>, after: Option<Writer>) {
    || after.None? || after == before
    || (before.Some? && exists m: Marker ::
          (m.ModeTransition? || m.MappingLockSet?) && after.value == PushMarker(before.value, m))
    || (before.Some? && exists f: Frame :: after.value == PushFrame(before.value, f))
  }

  lemma QuietTableOk(s: Server, rt: Runtime, w: Option<Writer>, used: set<Uuid>, lost: set<Uuid>)
    requires LogOk(s, used, lost) && SameWirings(s.runtime.mappings, rt.mappings) && QuietWriter(s.recording, w)
    ensures TableLogOk(rt.mappings, w, used, lost + (ActiveIds(s.runtime.mappings) - ActiveIds(rt.mappings)))
  {
    var silent := s.(runtime := rt);
    SilentOk(s, rt, used, lost);
    if w.Some? && w != s.recording && w.value.frames == s.recording.value.frames {
      var m: Marker :| (m.ModeTransition? || m.MappingLockSet?) && w.value == PushMarker(s.recording.value, m);
      LogAgrees(silent, m, used, lost + (ActiveIds(s.runtime.mappings) - ActiveIds(rt.mappings)));
    }
  }

  lemma QuietOk(s: Server, call: Call, used: set<Uuid>, lost: set<Uuid>)
    requires LogOk(s, used, lost) && QuietCall(call)
    ensures LogOk(Perform(s, call), used, LostAfter(s, lost, call))
  {
    PerformParts(s, call);
    QuietWirings(s, call);
    QuietRecording(s, call);
    QuietTableOk(s, RuntimeAfter(s, call), Perform(s, call).recording, used, lost);
  }

  lemma CreateCallOk(s: Server, call: Call, used: set<Uuid>, lost: set<Uuid>)
    requires call.CallCreate? && LogOk(s, used, lost) && call.id !in used
    ensures LogOk(Perform(s, call), Used(used, call), LostAfter(s, lost, call))
  {
    AddMoves(s, call.id, call.req, call.now);
    CreateOk(s, call.id, call.req, call.now, used, lost);
  }

  lemma UpdateCallOk(s: Server, call: Call, used: set<Uuid>, lost: set<Uuid>)
    requires call.CallUpdate? && LogOk(s, used, lost)
    ensures LogOk(Perform(s, call), Used(used, call), LostAfter(s, lost, call))
  {
    RedirectMoves(s, call.id, call.req, call.now);
    UpdateOk(s, call.id, call.req, call.now, used, lost);
  }

  lemma RemoveCallOk(s: Server, call: Call, used: set<Uuid>, lost: set<Uuid>)
    requires call.CallRemove? && LogOk(s, used, lost)
    ensures LogOk(Perform(s, call), Used(used, call), LostAfter(s, lost, call))
  {
    if RemoveMapping(s.runtime, call.id).1.Ok? {
      RemoveOk(s, call.id, call.now, used, lost);
    } else {
      RemoveFails(s, call.id, call.now, lost);
    }
  }

  lemma RewiringCallOk(s: Server, call: Call, used: set<Uuid>, lost: set<Uuid>)
    requires call.CallCreate? || call.CallUpdate? || call.CallRemove?
    requires LogOk(s, used, lost) && (call.CallCreate? ==> call.id !in used)
    ensures LogOk(Perform(s, call), Used(used, call), LostAfter(s, lost, call))
  {
    if call.CallCreate? { CreateCallOk(s, call, used, lost); }
    else if call.CallUpdate? { UpdateCallOk(s, call, used, lost); }
    else { RemoveCallOk(s, call, used, lost); }
  }

  lemma CallOk(s: Server, call: Call, used: set<Uuid>, lost: set<Uuid>)
    requires LogOk(s, used, lost) && (call.CallCreate? ==> call.id !in used)
    ensures LogOk(Perform(s, call), Used(used, call), LostAfter(s, lost, call))
  {
    if QuietCall(call) { QuietOk(s, call, used, lost); }
    else if call.CallStart? { StartCallOk(s, call, used, lost); }
    else { RewiringCallOk(s, call, used, lost); }
  }

  function UsedAll(used: set<Uuid>, calls: seq<Call>): set<Uuid>
    decreases calls
  {
    if calls == [] then used else UsedAll(Used(used, calls[0]), calls[1..])
  }

  lemma {:induction false} LogOkRun(s: Server, calls: seq<Call>, used: set<Uuid>, lost: set<Uuid>)
    requires LogOk(s, used, lost) && FreshCalls(used, calls)
    ensures LogOk(PerformAll(s, calls), UsedAll(used, calls), LostAfterAll(s, lost, calls))
    decreases calls
  {
    if calls != [] {
      CallOk(s, calls[0], used, lost);
      LogOkRun(Perform(s, calls[0]), calls[1..], Used(used, calls[0]), LostAfter(s, lost, calls[0]));
    }
  }

  /** Log replay agrees with state at every point of every run: an active recording's markers give
      every Active mapping its current source, target and mask, and exactly the lost ids besides. */
  lemma ReplayAgrees(s: Server, calls: seq<Call>, used: set<Uuid>, lost: set<Uuid>)
    requires LogOk(s, used, lost) && FreshCalls(used, calls)
    ensures var t := PerformAll(s, calls);
            t.recording.Some? ==>
              Agrees(Replay(t.recording.value.markers), t.runtime.mappings, LostAfterAll(s, lost, calls))
  {
    LogOkRun(s, calls, used, lost);
  }

  // ----- Which ids are lost -----

  /** The call takes Active entry i away and no marker says so: a tick finds its device disconnected past
      the timeout, or a create evicts it. */
  ghost predicate LosesUnlogged(s: Server, call: Call, i: nat)
    requires i < |s.runtime.mappings|
  {
    && s.runtime.mappings[i].state == MappingState.Active
    && match call
       case CallTick(now) => Loses(s.runtime, OpTick(now), i)
       case CallCreate(id, req, now) => Loses(s.runtime, OpCreate(id, req, now), i)
       case _ => false
  }

  ghost predicate LosesId(s: Server, call: Call, x: Uuid) {
    exists i :: 0 <= i < |s.runtime.mappings| && s.runtime.mappings[i].id == x && LosesUnlogged(s, call, i)
  }

  /** The mapping table after a call is that after the step behind it. */
  lemma CallTable(s: Server, call: Call)
    ensures RuntimeAfter(s, call).mappings ==
            if call.CallStart? || RuntimeOps(s, call) == [] then s.runtime.mappings
            else TableAfter(s.runtime, RuntimeOps(s, call)[0])
  {
    if RuntimeOps(s, call) != [] { StepTable(s.runtime, RuntimeOps(s, call)[0]); }
  }

  lemma ActiveIdIn(ms: seq<Mapping>, x: Uuid)
    ensures ActiveId(ms, x) <==> x in ActiveIds(ms)
  {
  }

  lemma OpLoses(s: Server, call: Call, i: nat)
    requires i < |s.runtime.mappings| && s.runtime.mappings[i].state == MappingState.Active && RuntimeOps(s, call) != []
    ensures Loses(s.runtime, RuntimeOps(s, call)[0], i)
       <==> LosesUnlogged(s, call, i) || (call.CallRemove? && Loses(s.runtime, OpRemove(call.id), i))
  {
  }

  lemma TableCallLoses(s: Server, call: Call, i: nat)
    requires UniqueIds(s.runtime.mappings) && i < |s.runtime.mappings|
             && s.runtime.mappings[i].state == MappingState.Active
    requires call.CallCreate? ==> call.id !in Ids(s.runtime.mappings)
    ensures s.runtime.mappings[i].id !in ActiveIds(RuntimeAfter(s, call).mappings)
       <==> LosesUnlogged(s, call, i) || (call.CallRemove? && Loses(s.runtime, OpRemove(call.id), i))
  {
    var id := s.runtime.mappings[i].id;
    CallTable(s, call);
    if call.CallStart? || RuntimeOps(s, call) == [] {
      assert id in ActiveIds(s.runtime.mappings);
    } else {
      var op := RuntimeOps(s, call)[0];
      OpLoses(s, call, i);
      TableLoses(s.runtime, op, i);
      ActiveIdIn(TableAfter(s.runtime, op), id);
    }
  }

  /** A call takes an Active id away exactly when it is a tick past the timeout of a disconnected
      device, a create that evicts it, or its removal; only the removal leaves a marker. */
  lemma CallLosesExactly(s: Server, call: Call, i: nat)
    requires UniqueIds(s.runtime.mappings) && i < |s.runtime.mappings|
             && s.runtime.mappings[i].state == MappingState.Active
    requires call.CallCreate? ==> call.id !in Ids(s.runtime.mappings)
    ensures s.runtime.mappings[i].id !in ActiveIds(Perform(s, call).runtime.mappings)
       <==> LosesUnlogged(s, call, i) || (call.CallRemove? && Loses(s.runtime, OpRemove(call.id), i))
  {
    PerformParts(s, call);
    TableCallLoses(s, call, i);
  }

  /** The call drops x from the log's ids: a new recording starts, or x, still in the table, is removed. */
  predicate Forgets(s: Server, call: Call, x: Uuid) {
    || (call.CallStart? && s.runtime.activeScene.Some?)
    || (call.CallRemove? && call.id == x && s.runtime.mode != Recording
        && IndexOf(s.runtime.mappings, x) < |s.runtime.mappings|)
  }

  lemma RemoveSucceeds(s: Runtime, i: nat)
    requires i < |s.mappings|
    ensures RemoveMapping(s, s.mappings[i].id).1.Ok? <==> s.mode != Recording
  {
  }

  lemma LostNow(s: Server, call: Call, x: Uuid)
    requires UniqueIds(s.runtime.mappings) && (call.CallCreate? ==> call.id !in Ids(s.runtime.mappings))
    requires call.CallRemove? ==> RemoveMapping(s.runtime, call.id).1.Err?
    ensures x in ActiveIds(s.runtime.mappings) - ActiveIds(RuntimeAfter(s, call).mappings) <==> LosesId(s, call, x)
  {
    var ms := s.runtime.mappings;
    forall i | 0 <= i < |ms| && ms[i].state == MappingState.Active
      ensures ms[i].id !in ActiveIds(RuntimeAfter(s, call).mappings) <==> LosesUnlogged(s, call, i)
    {
      TableCallLoses(s, call, i);
      RemoveSucceeds(s.runtime, i);
    }
    assert forall i :: 0 <= i < |ms| && ms[i].state == MappingState.Active ==> ms[i].id in ActiveIds(ms);
  }

  /** How the set of lost ids grows and shrinks. */
  lemma LostAfterExactly(s: Server, lost: set<Uuid>, call: Call, x: Uuid)
    requires UniqueIds(s.runtime.mappings) && (call.CallCreate? ==> call.id !in Ids(s.runtime.mappings))
    ensures x in LostAfter(s, lost, call) <==> LosesId(s, call, x) || (x in lost && !Forgets(s, call, x))
  {
    PerformParts(s, call);
    if !(call.CallRemove? && RemoveMapping(s.runtime, call.id).1.Ok?) { LostNow(s, call, x); }
  }

  ghost predicate NeverForgotten(s: Server, calls: seq<Call>, x: Uuid)
    decreases calls
  {
    calls != [] ==> !Forgets(s, calls[0], x) && NeverForgotten(Perform(s, calls[0]), calls[1..], x)
  }

  /** Some call of the run loses x unlogged, and no later one forgets it. */
  ghost predicate Stale(s: Server, calls: seq<Call>, x: Uuid)
    decreases calls
  {
    calls != [] &&
      var t := Perform(s, calls[0]);
      (LosesId(s, calls[0], x) && NeverForgotten(t, calls[1..], x)) || Stale(t, calls[1..], x)
  }

  lemma {:induction false} StaleExactly(s: Server, calls: seq<Call>, used: set<Uuid>, lost: set<Uuid>, x: Uuid)
    requires LogOk(s, used, lost) && FreshCalls(used, calls)
    ensures x in LostAfterAll(s, lost, calls) <==> Stale(s, calls, x) || (x in lost && NeverForgotten(s, calls, x))
    decreases calls
  {
    if calls != [] {
      CallOk(s, calls[0], used, lost);
      LostAfterExactly(s, lost, calls[0], x);
      StaleExactly(Perform(s, calls[0]), calls[1..], Used(used, calls[0]), LostAfter(s, lost, calls[0]), x);
    }
  }

  /** So an active recording's log replays to x exactly when x is Active or stale: lost to a tick or
      an eviction of the run, and since then neither removed nor left behind by a new start. */
  lemma ReplayExact(s: Server, calls: seq<Call>, used: set<Uuid>, x: Uuid)
    requires LogOk(s, used, {}) && FreshCalls(used, calls) && PerformAll(s, calls).recording.Some?
    ensures var t := PerformAll(s, calls);
            && (x in Replay(t.recording.value.markers) <==> x in ActiveIds(t.runtime.mappings) || Stale(s, calls, x))
            && !(x in ActiveIds(t.runtime.mappings) && Stale(s, calls, x))
  {
    ReplayAgrees(s, calls, used, {});
    StaleExactly(s, calls, used, {}, x);
  }

  /** No call of the run loses an Active mapping unlogged. */
  ghost predicate NothingLost(s: Server, calls: seq<Call>)
    decreases calls
  {
    calls != [] ==>
      && (forall i :: 0 <= i < |s.runtime.mappings| ==> !LosesUnlogged(s, calls[0], i))
      && NothingLost(Perform(s, calls[0]), calls[1..])
  }

  lemma {:induction false} NothingStale(s: Server, calls: seq<Call>, x: Uuid)
    requires NothingLost(s, calls)
    ensures !Stale(s, calls, x)
    decreases calls
  {
    if calls != [] { NothingStale(Perform(s, calls[0]), calls[1..], x); }
  }

  /** In particular while no tick finds an expired mapping and no create evicts one. */
  lemma ReplayExactUnlessLost(s: Server, calls: seq<Call>, used: set<Uuid>)
    requires LogOk(s, used, {}) && FreshCalls(used, calls) && NothingLost(s, calls)
    ensures LostAfterAll(s, {}, calls) == {}
    ensures var t := PerformAll(s, calls);
            t.recording.Some? ==> Agrees(Replay(t.recording.value.markers), t.runtime.mappings, {})
  {
    ReplayAgrees(s, calls, used, {});
    forall x ensures x !in LostAfterAll(s, {}, calls) {
      StaleExactly(s, calls, used, {}, x);
      NothingStale(s, calls, x);
    }
  }
}
