/** What a recording says, call by call: the marker every call leaves, the manifest, and what start
    and stop put at its ends. */
module Markers {
  import opened Model
  import opened RuntimeSpec
  import opened Requests
  import opened Container
  import opened ServerSpec
  import opened ServerLog
  import opened RecordingLog

  // ----- When the runtime grants a call -----

  ghost predicate GrantsCreate(s: Runtime, req: MappingRequest, now: nat) {
    && Accepts(s, req)
    && (Unowned(s.mappings, req.target)
        || exists i: nat :: FirstOwner(s.mappings, req.target, i) && !s.mappings[i].lock
             && Reclaimable(s, s.mappings[i], now))
  }

  ghost predicate GrantsUpdate(s: Runtime, id: Uuid, req: MappingRequest) {
    Accepts(s, req) && exists i: nat :: FirstWithId(s.mappings, id, i) && !s.mappings[i].lock
  }

  /** Locking and removing ask for the mode and the id alone. */
  predicate GrantsChange(s: Runtime, id: Uuid) {
    s.mode != Recording && !NoSuchId(s.mappings, id)
  }

  lemma CreateGranted(s: Runtime, id: Uuid, req: MappingRequest, now: nat)
    ensures CreateMapping(s, id, req, now).1.Ok? <==> GrantsCreate(s, req, now)
  {
    CreateExactly(s, id, req, now);
    OwnerIsFirst(s.mappings, req.target);
  }

  lemma UpdateGranted(s: Runtime, id: Uuid, req: MappingRequest, now: nat)
    ensures UpdateMapping(s, id, req, now).1.Ok? <==> GrantsUpdate(s, id, req)
  {
    UpdateExactly(s, id, req, now);
    assert IndexOf(s.mappings, id) < |s.mappings| ==> FirstWithId(s.mappings, id, IndexOf(s.mappings, id));
  }

  lemma ChangeGranted(s: Runtime, id: Uuid, lock: bool)
    ensures RemoveMapping(s, id).1.Ok? <==> GrantsChange(s, id)
    ensures SetMappingLock(s, id, lock).1.Ok? <==> GrantsChange(s, id)
  {
    assert IndexOf(s.mappings, id) < |s.mappings| <==> !NoSuchId(s.mappings, id);
  }

  // ----- The marker of a call -----

  /** What a granted call tells the active recording, from the call itself; refused calls and the others
      tell it nothing. */
  ghost function Told(s: Runtime, call: Call): seq<Marker> {
    match call
    case CallSetMode(mode, now) =>
      if s.mode == Idle && mode == Recording then [] else [ModeTransition(now, s.mode, mode)]
    case CallCreate(id, req, now) =>
      if GrantsCreate(s, req, now)
      then [MappingCreated(now, id, Wiring(req.sourceDevice, req.sourceOutput, req.target, req.mask))] else []
    case CallUpdate(id, req, now) =>
      if GrantsUpdate(s, id, req)
      then [MappingUpdated(now, id, Wiring(req.sourceDevice, req.sourceOutput, req.target, req.mask))] else []
    case CallRemove(id, now) => if GrantsChange(s, id) then [MappingRemoved(now, id)] else []
    case CallSetLock(id, lock, now) => if GrantsChange(s, id) then [MappingLockSet(now, id, lock)] else []
    case _ => []
  }

  /** The recording has gained these markers; its frames have gained the given ones at most. */
  predicate Gains(before: Writer, after: Option<Writer>, markers: seq<Marker>) {
    after == Some(before.(markers := before.markers + markers))
  }

  lemma NothingGained(w: Writer)
    ensures Gains(w, Some(w), [])
  {
    assert w.markers + [] == w.markers;
  }

  lemma CreateTells(s: Server, call: Call)
    requires s.recording.Some? && s.recording.value.version == V2
    requires call.CallCreate? && call.id !in Ids(s.runtime.mappings)
    ensures Gains(s.recording.value, Perform(s, call).recording, Told(s.runtime, call))
  {
    AddIsLog(s, call.id, call.req, call.now);
    CreateGranted(s.runtime, call.id, call.req, call.now);
    NothingGained(s.recording.value);
  }

  lemma UpdateTells(s: Server, call: Call)
    requires s.recording.Some? && s.recording.value.version == V2 && call.CallUpdate?
    ensures Gains(s.recording.value, Perform(s, call).recording, Told(s.runtime, call))
  {
    UpdateGranted(s.runtime, call.id, call.req, call.now);
    NothingGained(s.recording.value);
    if UpdateMapping(s.runtime, call.id, call.req, call.now).1.Ok? { RedirectIsLog(s, call.id, call.req, call.now); }
  }

  lemma ChangeTells(s: Server, call: Call)
    requires s.recording.Some? && s.recording.value.version == V2 && (call.CallRemove? || call.CallSetLock?)
    ensures Gains(s.recording.value, Perform(s, call).recording, Told(s.runtime, call))
  {
    ChangeGranted(s.runtime, call.id, call.CallSetLock? && call.lock);
    NothingGained(s.recording.value);
  }

  lemma ModeTells(s: Server, call: Call)
    requires s.recording.Some? && s.recording.value.version == V2 && call.CallSetMode?
    ensures Gains(s.recording.value, Perform(s, call).recording, Told(s.runtime, call))
  {
    SetModeExactly(s.runtime, call.mode);
    NothingGained(s.recording.value);
  }

  lemma OthersTellNothing(s: Server, call: Call)
    requires s.recording.Some? && Told(s.runtime, call) == []
    requires !MappingCall(call) && !call.CallStart? && !call.CallStop?
    ensures Gains(s.recording.value, Perform(s, call).recording, Told(s.runtime, call))
  {
    NothingGained(s.recording.value);
    if SessionCall(call) { SessionCallKeepsRecording(s, call); }
  }

  /** Every call but a batch, a start or a stop adds exactly its marker and leaves the rest of the active
      recording as it is. */
  lemma CallTells(s: Server, call: Call)
    requires s.recording.Some? && s.recording.value.version == V2
    requires !call.CallIngest? && !call.CallStart? && !call.CallStop?
    requires call.CallCreate? ==> call.id !in Ids(s.runtime.mappings)
    ensures Gains(s.recording.value, Perform(s, call).recording, Told(s.runtime, call))
  {
    if call.CallCreate? { CreateTells(s, call); }
    else if call.CallUpdate? { UpdateTells(s, call); }
    else if call.CallRemove? || call.CallSetLock? { ChangeTells(s, call); }
    else if call.CallSetMode? { ModeTells(s, call); }
    else { OthersTellNothing(s, call); }
  }

  /** What a batch makes of the manifest: the time of its frame and the number of frames. */
  lemma IngestTells(s: Server, call: Call)
    requires s.recording.Some? && call.CallIngest?
    ensures var w, w' := s.recording.value, Perform(s, call).recording;
            if !Records(s, call) then w' == Some(w)
            else
              && w'.Some? && |w'.value.frames| == |w.frames| + 1 && w'.value.markers == w.markers
              && w'.value.manifest == w.manifest.(stopped := call.now, frameCount := |w.frames| + 1)
              && w'.value.version == w.version
  {
    if Records(s, call) { var f := RecordedFirst(s, call); }
    else { UnrecordedIngestKeeps(s, call); }
  }

  lemma UnrecordedIngestKeeps(s: Server, call: Call)
    requires s.recording.Some? && call.CallIngest? && !Records(s, call)
    ensures Perform(s, call).recording == s.recording
  {
  }

  /** What a batch is answered: why it failed; or, when it went through and is being recorded, that there is no
      active scene, or why the first update that cannot be recorded cannot. */
  lemma IngestAnswers(s: Server, d: Uuid, us: seq<AttributeUpdate>, now: nat, k: nat)
    ensures var (rt, applied) := ApplyUpdates(s.runtime, d, us, now);
            var r := Ingest(s, d, us, now).1;
            && (applied.Err? ==> r == Err(CoreFailed(applied.error)))
            && (applied.Ok? && s.recording.None? ==> r == Ok(()))
            && (applied.Ok? && s.recording.Some? && rt.activeScene.None? ==>
                  r == Err(CoreFailed(MappingDenied(NoActiveScene))))
            && (applied.Ok? && s.recording.Some? && rt.activeScene.Some? && k < |us|
                && Unroutable(rt, rt.activeScene.value, d, us[k].output)
                && (forall j :: 0 <= j < k ==> !Unroutable(rt, rt.activeScene.value, d, us[j].output)) ==>
                  r == Err(Unrecorded(rt, rt.activeScene.value, d, us[k].output)))
  {
    var rt := ApplyUpdates(s.runtime, d, us, now).0;
    if rt.activeScene.Some? && k < |us| && Unroutable(rt, rt.activeScene.value, d, us[k].output)
       && forall j :: 0 <= j < k ==> !Unroutable(rt, rt.activeScene.value, d, us[j].output) {
      FirstUnrecorded(rt, rt.activeScene.value, d, us, k);
    }
  }

  lemma FirstUnrecorded(rt: Runtime, scene: Uuid, d: Uuid, us: seq<AttributeUpdate>, k: nat)
    requires k < |us| && Unroutable(rt, scene, d, us[k].output)
    requires forall j :: 0 <= j < k ==> !Unroutable(rt, scene, d, us[j].output)
    ensures RecordAll(rt, scene, d, us) == Err(Unrecorded(rt, scene, d, us[k].output))
  {
    forall j | 0 <= j < k ensures RecordOne(rt, scene, d, us[j]).Ok? { RecordOneExactly(rt, scene, d, us[j]); }
    RecordOneExactly(rt, scene, d, us[k]);
    RecordAllFails(rt, scene, d, us, k);
  }

  // ----- The whole recording -----

  /** Everything the calls of a run tell, in order. */
  ghost function ToldAll(s: Server, calls: seq<Call>): seq<Marker>
    decreases calls
  {
    if calls == [] then [] else Told(s.runtime, calls[0]) + ToldAll(Perform(s, calls[0]), calls[1..])
  }

  /** The time of the last recorded batch. */
  ghost function LastBatch(s: Server, calls: seq<Call>, since: nat): nat
    decreases calls
  {
    if calls == [] then since
    else LastBatch(Perform(s, calls[0]), calls[1..], if Records(s, calls[0]) then calls[0].now else since)
  }

  /** The recording still tells when and of what it was started, what it told then and since, and the time of
      its last batch. */
  predicate Tells(w: Writer, after: Option<Writer>, markers: seq<Marker>, last: nat) {
    && after.Some? && after.value.version == w.version && after.value.markers == w.markers + markers
    && after.value.manifest.recordingId == w.manifest.recordingId && after.value.manifest.scene == w.manifest.scene
    && after.value.manifest.started == w.manifest.started && after.value.manifest.stopped == last
  }

  lemma CallTellsAll(s: Server, call: Call)
    requires s.recording.Some? && s.recording.value.version == V2 && !call.CallStart? && !call.CallStop?
    requires call.CallCreate? ==> call.id !in Ids(s.runtime.mappings)
    ensures Tells(s.recording.value, Perform(s, call).recording, Told(s.runtime, call),
                  if Records(s, call) then call.now else s.recording.value.manifest.stopped)
  {
    if call.CallIngest? {
      IngestTells(s, call);
      assert s.recording.value.markers + [] == s.recording.value.markers;
    } else {
      CallTells(s, call);
    }
  }

  lemma TellsNext(w: Writer, w1: Writer, a: seq<Marker>, w2: Option<Writer>, b: seq<Marker>, t1: nat, t2: nat)
    requires Tells(w, Some(w1), a, t1) && Tells(w1, w2, b, t2)
    ensures Tells(w, w2, a + b, t2)
  {
    assert (w.markers + a) + b == w.markers + (a + b);
  }

  /** Over every run of an active recording, its markers are those it had and then, in order, exactly what
      the calls tell; its id, scene and start never change, and its end is the time of the last batch. */
  lemma {:induction false} MarkersRun(s: Server, calls: seq<Call>, used: set<Uuid>, lost: set<Uuid>)
    requires LogOk(s, used, lost) && FreshCalls(used, calls) && s.recording.Some? && KeepsRecording(calls)
    ensures Tells(s.recording.value, PerformAll(s, calls).recording, ToldAll(s, calls),
                  LastBatch(s, calls, s.recording.value.manifest.stopped))
    decreases calls
  {
    if calls == [] {
      NothingGained(s.recording.value);
    } else {
      var w, t := s.recording.value, Perform(s, calls[0]);
      CallOk(s, calls[0], used, lost);
      CallTellsAll(s, calls[0]);
      MarkersRun(t, calls[1..], Used(used, calls[0]), LostAfter(s, lost, calls[0]));
      TellsNext(w, t.recording.value, Told(s.runtime, calls[0]), PerformAll(s, calls).recording,
                ToldAll(t, calls[1..]), t.recording.value.manifest.stopped,
                LastBatch(t, calls[1..], t.recording.value.manifest.stopped));
    }
  }

  // ----- Start and stop -----

  lemma {:induction false} SeedConcat(a: seq<Mapping>, b: seq<Mapping>, now: nat)
    ensures SeedMarkers(a + b, now) == SeedMarkers(a, now) + SeedMarkers(b, now)
    decreases b
  {
    if b == [] {
      assert a + b == a;
    } else {
      assert (a + b)[..|a + b| - 1] == a + b[..|b| - 1];
      SeedConcat(a, b[..|b| - 1], now);
    }
  }

  /** The seeds are one marker per Active mapping, in table order: these two equations determine them. */
  lemma SeedsExactly(a: seq<Mapping>, b: seq<Mapping>, m: Mapping, now: nat)
    ensures SeedMarkers(a + b, now) == SeedMarkers(a, now) + SeedMarkers(b, now)
    ensures SeedMarkers([m], now) ==
            if m.state == MappingState.Active
            then [MappingCreated(now, m.id, Wiring(m.sourceDevice, m.sourceOutput, m.target, m.mask))] else []
  {
    SeedConcat(a, b, now);
    assert [m][..0] == [];
  }

  /** A start begins an empty recording of the active scene, under the given id and time; whatever was being
      recorded is dropped. */
  lemma StartExactly(s: Server, id: Uuid, now: nat)
    ensures var (t, r) := StartRecording(s, id, now);
            && t.runtime == s.runtime.(mode := Recording) && t == s.(runtime := t.runtime, recording := t.recording)
            && (s.runtime.activeScene.None? ==> r == Err(NoSceneToRecord) && t.recording == s.recording)
            && (s.runtime.activeScene.Some? ==>
                  && r == Ok(id) && t.recording.Some?
                  && var w := t.recording.value;
                     && w.version == V2 && w.frames == []
                     && w.manifest == Manifest(id, s.runtime.activeScene.value, now, now, 0)
                     && |w.markers| > 0
                     && w.markers[0].ModeTransition? && w.markers[0].timestamp == now && w.markers[0].to == Recording
                     && w.markers[0].from == (if s.runtime.mode == Recording then Recording else Mode.Live)
                     && w.markers[1..] == SeedMarkers(s.runtime.mappings, now))
  {
  }

  /** A stop adds the marker back to Live and otherwise hands out the recording as it is; without one it is
      refused, and when the file cannot be written the recording is lost and the mode stays. */
  lemma StopExactly(s: Server, now: nat, io: bool)
    ensures var (t, r) := StopRecording(s, now, io);
            if s.recording.None? then t == s && r == Err(NoActiveRecording)
            else
              && t.recording == None && t.runtime == s.runtime.(mode := if io then Mode.Live else s.runtime.mode)
              && t == s.(runtime := t.runtime, recording := None)
              && (!io ==> r == Err(RecordingIo))
              && (io ==> r.Ok? && (s.recording.value.version == V2 ==>
                    Gains(s.recording.value, Some(r.value), [ModeTransition(now, Recording, Mode.Live)])))
  {
  }

  /** From start to stop: the file has the id, scene and start of its start, the time of its last batch, and
      between the start's markers and the stop's exactly what the calls told. */
  lemma RecordingExactly(s: Server, id: Uuid, started: nat, calls: seq<Call>, used: set<Uuid>, lost: set<Uuid>,
                         stopped: nat)
    requires LogOk(s, used, lost) && FreshCalls(used, calls) && KeepsRecording(calls)
    requires s.runtime.activeScene.Some?
    ensures var s0 := StartRecording(s, id, started).0;
            var r := StopRecording(PerformAll(s0, calls), stopped, true).1;
            && r.Ok?
            && r.value.markers == s0.recording.value.markers + ToldAll(s0, calls)
                                  + [ModeTransition(stopped, Recording, Mode.Live)]
            && r.value.manifest.recordingId == id && r.value.manifest.scene == s.runtime.activeScene.value
            && r.value.manifest.started == started && r.value.manifest.stopped == LastBatch(s0, calls, started)
  {
    var s0 := StartRecording(s, id, started).0;
    StartOk(s, id, started, used, lost);
    StartExactly(s, id, started);
    MarkersRun(s0, calls, used, {});
    StopExactly(PerformAll(s0, calls), stopped, true);
  }

  /** The caller is told what the runtime answered. */
  predicate Passes<T(==)>(inner: Result<T, CoreError>, outer: Result<T, ServerError>) {
    if inner.Ok? then outer == Ok(inner.value) else outer == Err(CoreFailed(inner.error))
  }

  lemma RequestAnswersPass(s: Server, id: Uuid, req: MappingRequest, now: nat)
    ensures Passes(CreateMapping(s.runtime, id, req, now).1, AddMapping(s, id, req, now).1)
    ensures Passes(UpdateMapping(s.runtime, id, req, now).1, RedirectMapping(s, id, req, now).1)
  {
  }

  lemma ChangeAnswersPass(s: Server, id: Uuid, lock: bool, mode: Mode, now: nat)
    ensures Passes(RemoveMapping(s.runtime, id).1, DropMapping(s, id, now).1)
    ensures Passes(SetMappingLock(s.runtime, id, lock).1, LockMapping(s, id, lock, now).1)
    ensures Passes(SetMode(s.runtime, mode).1, ChangeMode(s, mode, now).1)
  {
  }

  // ----- Which scene a rebase or commit is of -----

  /** The scene named, or the active one. */
  function SceneMeant(s: Server, id: Option<Uuid>): Option<Uuid> {
    if id == None then s.runtime.activeScene else id
  }

  lemma RebaseMeans(s: Server, id: Option<Uuid>, dir: Direction)
    ensures var (t, r) := RebaseSceneOf(s, id, dir);
            if SceneMeant(s, id).None? then t == s && r == Err(CoreFailed(MappingDenied(NoActiveScene)))
            else
              var (rt, n) := RebaseScene(s.runtime, SceneMeant(s, id).value, dir);
              t == s.(runtime := rt) && if n.Ok? then r == Ok(n.value) else r == Err(CoreFailed(n.error))
  {
  }

  lemma CommitMeans(s: Server, id: Option<Uuid>, obj: Uuid)
    ensures var (t, r) := CommitObjectOf(s, id, obj);
            if SceneMeant(s, id).None? then t == s && r == Err(CoreFailed(MappingDenied(NoActiveScene)))
            else
              var (rt, n) := CommitObject(s.runtime, SceneMeant(s, id).value, obj);
              t == s.(runtime := rt) && if n.Ok? then r == Ok(n.value) else r == Err(CoreFailed(n.error))
  {
  }
}
