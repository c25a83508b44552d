/** The rest of a recording against the state it records, over whole server runs: the chain of mode
    markers, the frames, and the file that a stop leaves. */
module RecordingLog {
  import opened Model
  import opened RuntimeSpec
  import opened Attributes
  import opened Batches
  import opened Container
  import opened ServerSpec
  import opened ServerLog

  // ----- The chain of mode markers -----

  /** The mode the markers end in. */
  function LastMode(markers: seq<Marker>): Option<Mode> {
    if markers == [] then None
    else if markers[|markers| - 1].ModeTransition? then Some(markers[|markers| - 1].to)
    else LastMode(markers[..|markers| - 1])
  }

  /** Every mode marker starts from the mode the previous one ended in. */
  predicate Unbroken(markers: seq<Marker>) {
    markers != [] ==>
      var init, last := markers[..|markers| - 1], markers[|markers| - 1];
      Unbroken(init) && (last.ModeTransition? && LastMode(init).Some? ==> last.from == LastMode(init).value)
  }

  /** The log begins with the start marker, which ends at Recording. */
  predicate Started(markers: seq<Marker>) {
    markers != [] && markers[0].ModeTransition? && markers[0].to == Recording
  }

  /** An active recording's mode markers lead from the start marker to the current mode. */
  ghost predicate ModeLogged(s: Server) {
    s.recording.Some? ==>
      && s.recording.value.version == V2 && s.runtime.activeScene.Some?
      && Started(s.recording.value.markers) && Unbroken(s.recording.value.markers)
      && LastMode(s.recording.value.markers) == Some(s.runtime.mode)
  }

  lemma ChainPush(markers: seq<Marker>, marker: Marker)
    ensures LastMode(markers + [marker]) == if marker.ModeTransition? then Some(marker.to) else LastMode(markers)
    ensures Unbroken(markers + [marker]) <==>
            Unbroken(markers)
              && (marker.ModeTransition? && LastMode(markers).Some? ==> marker.from == LastMode(markers).value)
  {
    assert (markers + [marker])[..|markers|] == markers;
  }

  lemma {:induction false} SeedChain(first: Marker, ms: seq<Mapping>, now: nat)
    requires first.ModeTransition?
    ensures Unbroken([first] + SeedMarkers(ms, now)) && LastMode([first] + SeedMarkers(ms, now)) == Some(first.to)
  {
    if ms == [] {
      assert [first] + SeedMarkers(ms, now) == [first] && [first][..0] == [];
    } else {
      var init, m := ms[..|ms| - 1], ms[|ms| - 1];
      SeedChain(first, init, now);
      if m.state == MappingState.Active {
        var created := MappingCreated(now, m.id, WiringOf(m));
        ChainPush([first] + SeedMarkers(init, now), created);
        assert [first] + SeedMarkers(ms, now) == ([first] + SeedMarkers(init, now)) + [created];
      } else {
        assert SeedMarkers(init, now) + [] == SeedMarkers(init, now);
      }
    }
  }

  /** The mode is as before, or changes as the marker says. */
  predicate TellsMode(before: Runtime, m: Marker, after: Runtime) {
    if m.ModeTransition? then m.from == before.mode && m.to == after.mode else after.mode == before.mode
  }

  /** The recording of t is that of s, or that plus one frame or one marker, and a mode marker tells
      how the mode changed. */
  ghost predicate LogsMode(s: Server, t: Server) {
    || t.recording.None?
    || (t.recording == s.recording && t.runtime.mode == s.runtime.mode)
    || (s.recording.Some? && t.runtime.mode == s.runtime.mode
        && exists f: Frame :: t.recording.value == PushFrame(s.recording.value, f))
    || (s.recording.Some? && exists m: Marker ::
          && t.recording.value == PushMarker(s.recording.value, m)
          && TellsMode(s.runtime, m, t.runtime))
  }

  lemma LogLogsMode(s: Server, rt: Runtime, m: Marker)
    requires TellsMode(s.runtime, m, rt)
    ensures LogsMode(s, Log(s.(runtime := rt), m))
  {
    if s.recording.Some? { assert Log(s.(runtime := rt), m).recording.value == PushMarker(s.recording.value, m); }
    else { assert Log(s.(runtime := rt), m).recording.None?; }
  }

  lemma CreateLogsMode(s: Server, call: Call)
    requires call.CallCreate?
    ensures LogsMode(s, Perform(s, call))
  {
    var (rt, r) := CreateMapping(s.runtime, call.id, call.req, call.now);
    var i := IndexOf(rt.mappings, call.id);
    if r.Ok? && i < |rt.mappings| { LogLogsMode(s, rt, MappingCreated(call.now, call.id, WiringOf(rt.mappings[i]))); }
  }

  lemma UpdateLogsMode(s: Server, call: Call)
    requires call.CallUpdate?
    ensures LogsMode(s, Perform(s, call))
  {
    var (rt, r) := UpdateMapping(s.runtime, call.id, call.req, call.now);
    var i := IndexOf(rt.mappings, call.id);
    if r.Ok? && i < |rt.mappings| { LogLogsMode(s, rt, MappingUpdated(call.now, call.id, WiringOf(rt.mappings[i]))); }
  }

  lemma RemoveLogsMode(s: Server, call: Call)
    requires call.CallRemove?
    ensures LogsMode(s, Perform(s, call))
  {
    var (rt, r) := RemoveMapping(s.runtime, call.id);
    if r.Ok? { LogLogsMode(s, rt, MappingRemoved(call.now, call.id)); }
  }

  lemma LockLogsMode(s: Server, call: Call)
    requires call.CallSetLock?
    ensures LogsMode(s, Perform(s, call))
  {
    var (rt, r) := SetMappingLock(s.runtime, call.id, call.lock);
    if r.Ok? { LogLogsMode(s, rt, MappingLockSet(call.now, call.id, call.lock)); }
  }

  lemma SetModeLogsMode(s: Server, call: Call)
    requires call.CallSetMode?
    ensures LogsMode(s, Perform(s, call))
  {
    var (rt, r) := SetMode(s.runtime, call.mode);
    if r.Ok? { LogLogsMode(s, rt, ModeTransition(call.now, s.runtime.mode, call.mode)); }
  }

  lemma IngestLogsMode(s: Server, call: Call)
    requires call.CallIngest?
    ensures LogsMode(s, Perform(s, call))
  {
    IngestRecording(s, call.device, call.updates, call.now);
    IngestMoves(s, call.device, call.updates, call.now);
  }

  lemma SessionLogsMode(s: Server, call: Call)
    requires SessionCall(call)
    ensures LogsMode(s, Perform(s, call))
  {
    PerformParts(s, call);
    SessionCallKeepsRecording(s, call);
  }

  lemma OtherLogsMode(s: Server, call: Call)
    requires !SessionCall(call) && !MappingCall(call) && !call.CallStart?
    ensures LogsMode(s, Perform(s, call))
  {
  }

  lemma CallLogsMode(s: Server, call: Call)
    requires !call.CallStart?
    ensures LogsMode(s, Perform(s, call))
  {
    match call
    case CallCreate(_, _, _) => CreateLogsMode(s, call);
    case CallUpdate(_, _, _) => UpdateLogsMode(s, call);
    case CallRemove(_, _) => RemoveLogsMode(s, call);
    case CallSetLock(_, _, _) => LockLogsMode(s, call);
    case CallSetMode(_, _) => SetModeLogsMode(s, call);
    case CallIngest(_, _, _) => IngestLogsMode(s, call);
    case _ => if SessionCall(call) { SessionLogsMode(s, call); } else { OtherLogsMode(s, call); }
  }

  lemma SceneStays(s: Server, call: Call)
    requires s.runtime.activeScene.Some?
    ensures Perform(s, call).runtime.activeScene.Some?
  {
    PerformParts(s, call);
    if RuntimeOps(s, call) != [] { StepKeepsScene(s.runtime, RuntimeOps(s, call)[0]); }
  }

  lemma ChainKept(s: Server, t: Server)
    requires ModeLogged(s) && LogsMode(s, t) && (s.runtime.activeScene.Some? ==> t.runtime.activeScene.Some?)
    ensures ModeLogged(t)
  {
    if t.recording.Some? && t.recording.value.markers != s.recording.value.markers {
      var m: Marker :| t.recording.value == PushMarker(s.recording.value, m)
        && TellsMode(s.runtime, m, t.runtime);
      ChainPush(s.recording.value.markers, m);
    }
  }

  lemma StartLogsMode(s: Server, id: Uuid, now: nat)
    requires ModeLogged(s)
    ensures ModeLogged(StartRecording(s, id, now).0)
  {
    if s.runtime.activeScene.Some? {
      var from := if s.runtime.mode == Idle then Mode.Live else s.runtime.mode;
      SeedChain(ModeTransition(now, from, Recording), s.runtime.mappings, now);
    }
  }

  lemma CallKeepsChain(s: Server, call: Call)
    requires ModeLogged(s)
    ensures ModeLogged(Perform(s, call))
  {
    if call.CallStart? {
      StartLogsMode(s, call.id, call.now);
    } else {
      CallLogsMode(s, call);
      if s.runtime.activeScene.Some? { SceneStays(s, call); }
      ChainKept(s, Perform(s, call));
    }
  }

  /** The mode markers of an active recording form an unbroken chain from the start marker to the
      current mode. */
  lemma {:induction false} ModeChain(s: Server, calls: seq<Call>)
    requires ModeLogged(s)
    ensures ModeLogged(PerformAll(s, calls))
    decreases calls
  {
    if calls != [] {
      CallKeepsChain(s, calls[0]);
      ModeChain(Perform(s, calls[0]), calls[1..]);
    }
  }

  /** The final marker, always from Recording to Live, continues the chain exactly when the mode is
      still Recording. */
  lemma StopContinuesExactly(s: Server, now: nat)
    requires ModeLogged(s) && s.recording.Some?
    ensures StopRecording(s, now, true).1.Ok?
    ensures Unbroken(StopRecording(s, now, true).1.value.markers) <==> s.runtime.mode == Recording
    ensures StopRecording(s, now, true).0.runtime.mode == Mode.Live
  {
    ChainPush(s.recording.value.markers, ModeTransition(now, Recording, Mode.Live));
  }

  /** A failing run: load a scene, start recording, go back to Live.  Stopping now writes a broken chain. */
  lemma LiveBeforeStop(lease: LeaseConfig, root: real -> real, max: nat, supported: seq<Feature>, scene: Scene,
                       id: Uuid, t1: nat, t2: nat, t3: nat)
    ensures var t := PerformAll(InitialServer(lease, root, max, supported),
                                [CallLoadScene(scene), CallStart(id, t1), CallSetMode(Mode.Live, t2)]);
            && t.recording.Some? && StopRecording(t, t3, true).1.Ok?
            && !Unbroken(StopRecording(t, t3, true).1.value.markers)
  {
    var s := InitialServer(lease, root, max, supported);
    var calls := [CallLoadScene(scene), CallStart(id, t1), CallSetMode(Mode.Live, t2)];
    PerformThree(s, calls[0], calls[1], calls[2]);
    ModeChain(s, calls);
    LiveAfterStart(s, scene, id, t1, t2);
    StopContinuesExactly(PerformAll(s, calls), t3);
  }

  lemma LiveAfterStart(s: Server, scene: Scene, id: Uuid, t1: nat, t2: nat)
    ensures var started := StartRecording(s.(runtime := LoadScene(s.runtime, scene)), id, t1).0;
            var t := ChangeMode(started, Mode.Live, t2).0;
            t.recording.Some? && t.runtime.mode == Mode.Live
  {
  }

  /** A start fails exactly without an active scene; the mode has then already changed, and nothing
      else has. */
  lemma FailedStartLeavesRecordingMode(s: Server, id: Uuid, now: nat)
    ensures StartRecording(s, id, now).1.Err? <==> s.runtime.activeScene.None?
    ensures StartRecording(s, id, now).1.Err? ==>
            StartRecording(s, id, now).0 == s.(runtime := s.runtime.(mode := Recording))
  {
  }

  // ----- Recorded frames -----

  /** A batch that goes through has routed every one of its updates, to an attribute that exists. */
  lemma {:induction false} AppliedMeansRouted(c: Context, scenes: map<Uuid, Scene>, us: seq<AttributeUpdate>, k: nat)
    requires ApplyAll(c, scenes, us).result.Ok? && k < |us|
    ensures var i := RouteOf(c.mappings, c.scene, c.device, us[k].output);
            i < |c.mappings| && GetAttr(ApplyAll(c, scenes, us).scenes, c.mappings[i].target).Ok?
    decreases us
  {
    var first := ApplyOne(c, scenes, us[0]);
    if k == 0 {
      var i := RouteOf(c.mappings, c.scene, c.device, us[0].output);
      var m := c.mappings[i];
      FeedFrame(c.root, scenes, m.target, m.mask, us[0].value, m.target);
      BatchFrame(c, first.scenes, us[1..], m.target);
    } else {
      AppliedMeansRouted(c, first.scenes, us[1..], k - 1);
    }
  }

  lemma {:induction false} RecordAllEntries(rt: Runtime, scene: Uuid, d: Uuid, us: seq<AttributeUpdate>)
    requires RecordAll(rt, scene, d, us).Ok?
    ensures var entries := RecordAll(rt, scene, d, us).value;
            |entries| == |us| && forall k :: 0 <= k < |us| ==> Ok(entries[k]) == RecordOne(rt, scene, d, us[k])
    decreases us
  {
    if us != [] {
      RecordAllEntries(rt, scene, d, us[1..]);
      var entries, rest := RecordAll(rt, scene, d, us).value, RecordAll(rt, scene, d, us[1..]).value;
      forall k | 0 < k < |us| ensures Ok(entries[k]) == RecordOne(rt, scene, d, us[k]) {
        assert us[k] == us[1..][k - 1] && entries[k] == rest[k - 1];
      }
    }
  }

  lemma {:induction false} RecordAllSucceeds(rt: Runtime, scene: Uuid, d: Uuid, us: seq<AttributeUpdate>)
    requires forall k :: 0 <= k < |us| ==> RecordOne(rt, scene, d, us[k]).Ok?
    ensures RecordAll(rt, scene, d, us).Ok?
    decreases us
  {
    if us != [] {
      assert RecordOne(rt, scene, d, us[0]).Ok?;
      RecordAllSucceeds(rt, scene, d, us[1..]);
    }
  }

  /** The second pass succeeds exactly when it can record every update; then entry k is update k's. */
  lemma RecordAllExactly(rt: Runtime, scene: Uuid, d: Uuid, us: seq<AttributeUpdate>)
    ensures var r := RecordAll(rt, scene, d, us);
            && (r.Ok? <==> forall k :: 0 <= k < |us| ==> RecordOne(rt, scene, d, us[k]).Ok?)
            && (r.Ok? ==> |r.value| == |us|)
            && (r.Ok? ==> forall k :: 0 <= k < |us| ==> Ok(r.value[k]) == RecordOne(rt, scene, d, us[k]))
  {
    if RecordAll(rt, scene, d, us).Ok? {
      RecordAllEntries(rt, scene, d, us);
    } else if forall k :: 0 <= k < |us| ==> RecordOne(rt, scene, d, us[k]).Ok? {
      RecordAllSucceeds(rt, scene, d, us);
    }
  }

  /** Otherwise it fails with the error of the first update it cannot record. */
  lemma {:induction false} RecordAllFails(rt: Runtime, scene: Uuid, d: Uuid, us: seq<AttributeUpdate>, k: nat)
    requires k < |us| && RecordOne(rt, scene, d, us[k]).Err?
    requires forall j :: 0 <= j < k ==> RecordOne(rt, scene, d, us[j]).Ok?
    ensures RecordAll(rt, scene, d, us) == Err(RecordOne(rt, scene, d, us[k]).error)
    decreases us
  {
    if k > 0 {
      assert forall j :: 0 <= j < k - 1 ==> us[1..][j] == us[j + 1];
      RecordAllFails(rt, scene, d, us[1..], k - 1);
    }
  }

  /** Recorded frames agree with the runtime.  With a recording active and the mode not Idle, an
      accepted batch is recorded without fail: one entry per update, in order, naming the target the
      update was routed to before the batch and its value after the whole batch. */
  lemma FrameAgrees(s: Server, d: Uuid, us: seq<AttributeUpdate>, now: nat)
    requires s.recording.Some? && s.runtime.mode != Idle && ApplyUpdates(s.runtime, d, us, now).1.Ok?
    ensures var (t, r) := Ingest(s, d, us, now);
            && r.Ok? && t.recording.Some?
            && |t.recording.value.frames| == |s.recording.value.frames| + 1
            && var f := t.recording.value.frames[|s.recording.value.frames|];
               && t.recording.value == PushFrame(s.recording.value, f)
               && f.timestamp == now && f.mode == s.runtime.mode && |f.attributes| == |us|
               && forall k :: 0 <= k < |us| ==>
                    var i := RouteOf(s.runtime.mappings, s.runtime.activeScene.value, d, us[k].output);
                    && i < |s.runtime.mappings|
                    && var a := s.runtime.mappings[i].target;
                       && GetAttr(t.runtime.scenes, a).Ok?
                       && f.attributes[k]
                            == RecordedAttribute(a.obj, a.attribute, GetAttr(t.runtime.scenes, a).value.current)
  {
    var rt, scene := ApplyUpdates(s.runtime, d, us, now).0, s.runtime.activeScene.value;
    forall k | 0 <= k < |us|
      ensures var i := RouteOf(s.runtime.mappings, scene, d, us[k].output);
              && i < |s.runtime.mappings|
              && var a := s.runtime.mappings[i].target;
                 GetAttr(rt.scenes, a).Ok?
                 && RecordOne(rt, scene, d, us[k])
                      == Ok(RecordedAttribute(a.obj, a.attribute, GetAttr(rt.scenes, a).value.current))
    {
      AppliedMeansRouted(Context(Beaten(s.runtime.mappings, d, now), scene, d, s.runtime.root), s.runtime.scenes, us,
                         k);
      RouteIgnoresLease(s.runtime.mappings, d, now, scene, d, us[k].output);
    }
    RecordAllExactly(rt, scene, d, us);
  }

  /** No Active mapping carries the output into the scene, or its target has gone. */
  ghost predicate Unroutable(rt: Runtime, scene: Uuid, d: Uuid, output: string) {
    var i := RouteOf(rt.mappings, scene, d, output);
    i == |rt.mappings| || GetAttr(rt.scenes, rt.mappings[i].target).Err?
  }

  /** What is answered then. */
  function Unrecorded(rt: Runtime, scene: Uuid, d: Uuid, output: string): ServerError {
    var i := RouteOf(rt.mappings, scene, d, output);
    if i == |rt.mappings| then CoreFailed(MappingDenied(NoActiveMapping(output)))
    else CoreFailed(AttributeNotFound(rt.mappings[i].target.attribute))
  }

  lemma RecordOneExactly(rt: Runtime, scene: Uuid, d: Uuid, u: AttributeUpdate)
    ensures RecordOne(rt, scene, d, u).Err? <==> Unroutable(rt, scene, d, u.output)
    ensures RecordOne(rt, scene, d, u).Err? ==> RecordOne(rt, scene, d, u).error == Unrecorded(rt, scene, d, u.output)
  {
  }

  /** An accepted batch fails to be recorded only in Idle, where nothing was routed, and then exactly
      when there is no active scene or some update has no route or no target. */
  lemma RecordingFailsExactly(s: Server, d: Uuid, us: seq<AttributeUpdate>, now: nat)
    requires s.recording.Some? && ApplyUpdates(s.runtime, d, us, now).1.Ok?
    ensures Ingest(s, d, us, now).1.Err? <==>
            && s.runtime.mode == Idle
            && (s.runtime.activeScene.None?
                || exists k :: 0 <= k < |us| && Unroutable(s.runtime, s.runtime.activeScene.value, d, us[k].output))
  {
    if s.runtime.mode != Idle {
      FrameAgrees(s, d, us, now);
    } else if s.runtime.activeScene.Some? {
      IdleRecordsExactly(s.runtime, d, us, now);
    }
  }

  lemma IdleRecordsExactly(rt: Runtime, d: Uuid, us: seq<AttributeUpdate>, now: nat)
    requires rt.activeScene.Some?
    ensures RecordAll(Heartbeat(rt, d, now), rt.activeScene.value, d, us).Err?
       <==> exists k :: 0 <= k < |us| && Unroutable(rt, rt.activeScene.value, d, us[k].output)
  {
    var scene, beaten := rt.activeScene.value, Heartbeat(rt, d, now);
    RecordAllExactly(beaten, scene, d, us);
    forall k | 0 <= k < |us|
      ensures RecordOne(beaten, scene, d, us[k]).Err? <==> Unroutable(rt, scene, d, us[k].output)
    {
      RouteIgnoresLease(rt.mappings, d, now, scene, d, us[k].output);
      RecordOneExactly(rt, scene, d, us[k]);
    }
  }

  // ----- Recorded frames over runs -----

  /** The call is a batch that succeeds while a recording is active. */
  ghost predicate Records(s: Server, call: Call) {
    call.CallIngest? && s.recording.Some? && Ingest(s, call.device, call.updates, call.now).1.Ok?
  }

  /** The frame of such a batch: its time and mode, and per update, in order, the target it was routed
      to and that target's value after the whole batch. */
  ghost predicate IsFrameOf(f: Frame, s: Server, d: Uuid, us: seq<AttributeUpdate>, now: nat) {
    && f.timestamp == now && f.mode == s.runtime.mode && |f.attributes| == |us|
    && (us != [] ==> s.runtime.activeScene.Some?)
    && forall k :: 0 <= k < |us| ==>
         EntryOf(f.attributes[k], s.runtime, Ingest(s, d, us, now).0.runtime, d, us[k].output)
  }

  ghost predicate EntryOf(entry: RecordedAttribute, before: Runtime, after: Runtime, d: Uuid, output: string) {
    before.activeScene.Some? &&
      var i := RouteOf(before.mappings, before.activeScene.value, d, output);
      && i < |before.mappings|
      && var a := before.mappings[i].target;
         && GetAttr(after.scenes, a).Ok?
         && entry == RecordedAttribute(a.obj, a.attribute, GetAttr(after.scenes, a).value.current)
  }

  lemma RecordedEntry(rt: Runtime, d: Uuid, us: seq<AttributeUpdate>, now: nat, k: nat)
    requires rt.activeScene.Some? && k < |us|
    requires RecordOne(ApplyUpdates(rt, d, us, now).0, rt.activeScene.value, d, us[k]).Ok?
    ensures var after := ApplyUpdates(rt, d, us, now).0;
            EntryOf(RecordOne(after, rt.activeScene.value, d, us[k]).value, rt, after, d, us[k].output)
  {
    RouteIgnoresLease(rt.mappings, d, now, rt.activeScene.value, d, us[k].output);
  }

  /** Every batch that succeeds appends exactly its frame, in Idle too. */
  lemma RecordsFrame(s: Server, d: Uuid, us: seq<AttributeUpdate>, now: nat) returns (f: Frame)
    requires s.recording.Some? && Ingest(s, d, us, now).1.Ok?
    ensures Ingest(s, d, us, now).0.recording == Some(PushFrame(s.recording.value, f)) && IsFrameOf(f, s, d, us, now)
  {
    var rt := ApplyUpdates(s.runtime, d, us, now).0;
    var scene := s.runtime.activeScene.value;
    f := Frame(now, s.runtime.mode, RecordAll(rt, scene, d, us).value);
    RecordAllExactly(rt, scene, d, us);
    forall k | 0 <= k < |us|
      ensures EntryOf(f.attributes[k], s.runtime, rt, d, us[k].output)
    {
      RecordedEntry(s.runtime, d, us, now, k);
    }
  }

  /** The frames are, in order, one per recording batch of the run. */
  ghost predicate FramesOf(s: Server, calls: seq<Call>, frames: seq<Frame>)
    decreases calls
  {
    if calls == [] then frames == []
    else
      var c, t := calls[0], Perform(s, calls[0]);
      if Records(s, c) then
        && frames != [] && IsFrameOf(frames[0], s, c.device, c.updates, c.now)
        && FramesOf(t, calls[1..], frames[1..])
      else FramesOf(t, calls[1..], frames)
  }

  predicate KeepsRecording(calls: seq<Call>) {
    forall i :: 0 <= i < |calls| ==> !calls[i].CallStart? && !calls[i].CallStop?
  }

  /** The recording, if there was one, is still there with the same frames. */
  ghost predicate SameFrames(s: Server, t: Server) {
    s.recording.Some? ==> t.recording.Some? && t.recording.value.frames == s.recording.value.frames
  }

  lemma AddSameFrames(s: Server, id: Uuid, req: MappingRequest, now: nat)
    ensures SameFrames(s, AddMapping(s, id, req, now).0)
  {
  }

  lemma RedirectSameFrames(s: Server, id: Uuid, req: MappingRequest, now: nat)
    ensures SameFrames(s, RedirectMapping(s, id, req, now).0)
  {
  }

  lemma CreateSameFrames(s: Server, call: Call)
    requires call.CallCreate?
    ensures SameFrames(s, Perform(s, call))
  {
    AddSameFrames(s, call.id, call.req, call.now);
  }

  lemma UpdateSameFrames(s: Server, call: Call)
    requires call.CallUpdate?
    ensures SameFrames(s, Perform(s, call))
  {
    RedirectSameFrames(s, call.id, call.req, call.now);
  }

  lemma UnrecordedIngest(s: Server, call: Call)
    requires call.CallIngest? && !Records(s, call)
    ensures SameFrames(s, Perform(s, call))
  {
  }

  lemma UnrecordedFrames(s: Server, call: Call)
    requires !Records(s, call) && !call.CallStart? && !call.CallStop?
    ensures SameFrames(s, Perform(s, call))
  {
    if SessionCall(call) { SessionCallKeepsRecording(s, call); }
    else if call.CallIngest? { UnrecordedIngest(s, call); }
    else if call.CallCreate? { CreateSameFrames(s, call); }
    else if call.CallUpdate? { UpdateSameFrames(s, call); }
  }

  lemma AfterFirst(before: seq<Frame>, f: Frame, after: seq<Frame>)
    requires before + [f] <= after
    ensures before <= after && after[|before|..] != []
    ensures after[|before|..][0] == f && after[|before|..][1..] == after[|before| + 1..]
  {
    assert after[..|before| + 1] == before + [f];
    assert after[|before|] == (before + [f])[|before|];
  }

  lemma RecordedFirst(s: Server, call: Call) returns (f: Frame)
    requires Records(s, call)
    ensures Perform(s, call).recording == Some(PushFrame(s.recording.value, f))
    ensures IsFrameOf(f, s, call.device, call.updates, call.now)
  {
    f := RecordsFrame(s, call.device, call.updates, call.now);
  }

  /** An active recording's frames over a run: what it had, and then one frame per batch that
      succeeded, in order and no others. */
  lemma {:induction false} FramesRun(s: Server, calls: seq<Call>)
    requires s.recording.Some? && KeepsRecording(calls)
    ensures var t := PerformAll(s, calls);
            && t.recording.Some?
            && s.recording.value.frames <= t.recording.value.frames
            && FramesOf(s, calls, t.recording.value.frames[|s.recording.value.frames|..])
    decreases calls
  {
    if calls != [] {
      var c, t := calls[0], Perform(s, calls[0]);
      if Records(s, c) {
        var f := RecordedFirst(s, c);
        FramesRun(t, calls[1..]);
        AfterFirst(s.recording.value.frames, f, PerformAll(t, calls[1..]).recording.value.frames);
      } else {
        UnrecordedFrames(s, c);
        FramesRun(t, calls[1..]);
      }
    }
  }

  /** From its start on, a recording holds exactly the frames of the batches since. */
  lemma FramesSinceStart(s: Server, id: Uuid, now: nat, calls: seq<Call>)
    requires StartRecording(s, id, now).1.Ok? && KeepsRecording(calls)
    ensures var t := PerformAll(StartRecording(s, id, now).0, calls);
            t.recording.Some? && FramesOf(StartRecording(s, id, now).0, calls, t.recording.value.frames)
  {
    var started := StartRecording(s, id, now).0;
    FramesRun(started, calls);
    var frames := PerformAll(started, calls).recording.value.frames;
    assert frames[|started.recording.value.frames|..] == frames;
  }

  // ----- From the running server to the file and back -----

  ghost predicate WriterOk(s: Server) {
    s.recording.Some? ==> WriterValid(s.recording.value)
  }

  lemma WriterKept(s: Server, t: Server)
    requires WriterOk(s) && LogsMode(s, t)
    ensures WriterOk(t)
  {
  }

  lemma CallKeepsWriter(s: Server, call: Call)
    requires WriterOk(s)
    ensures WriterOk(Perform(s, call))
  {
    if !call.CallStart? {
      CallLogsMode(s, call);
      WriterKept(s, Perform(s, call));
    }
  }

  lemma {:induction false} WriterOkRun(s: Server, calls: seq<Call>)
    requires WriterOk(s)
    ensures WriterOk(PerformAll(s, calls))
    decreases calls
  {
    if calls != [] {
      CallKeepsWriter(s, calls[0]);
      WriterOkRun(Perform(s, calls[0]), calls[1..]);
    }
  }

  /** The file a successful stop writes reads back with the frames recorded and a log that replays to
      the mappings Active at the stop and, besides, the lost ids. */
  lemma StoppedFileTellsTheTruth(cs: Codecs, s: Server, now: nat, used: set<Uuid>, lost: set<Uuid>)
    requires LogOk(s, used, lost) && s.recording.Some? && WriterOk(s)
    requires var w := StopRecording(s, now, true).1.value;
             AllLawful(cs, w) && Fits(cs, w)
    ensures var file := ReadRecording(cs, FileOf(cs, StopRecording(s, now, true).1.value));
            && file.Ok? && file.value.frames == s.recording.value.frames
            && file.value.manifest.frameCount == |file.value.frames|
            && file.value.markers == StopRecording(s, now, true).1.value.markers
            && Agrees(Replay(file.value.markers), StopRecording(s, now, true).0.runtime.mappings, lost)
  {
    var final := ModeTransition(now, Recording, Mode.Live);
    ReplayPush(s.recording.value.markers, final);
    RoundTrip(cs, PushMarker(s.recording.value, final));
  }
}
