/** The server's state object.  Every method is one `ServerHandle` call, run to completion under the
    write lock, and takes the state to the one its function in `ServerSpec` gives. */
module ServerStates {
  import opened Model
  import opened RuntimeSpec
  import opened Core
  import opened Container
  import opened RecordingFiles
  import opened ServerSpec

  class SignalingHub {
    var queues: map<Uuid, seq<Signal>>

    constructor ()
      ensures queues == map[]
    {
      queues := map[];
    }

    method Enqueue(m: Signal)
      modifies this
      ensures queues == ServerSpec.Enqueue(old(queues), m)
    {
      var queue := if m.toDevice in queues then queues[m.toDevice] else [];
      queues := queues[m.toDevice := queue + [m]];
    }

    method DrainFor(d: Uuid) returns (drained: seq<Signal>)
      modifies this
      ensures drained == QueueOf(old(queues), d)
      ensures queues == old(queues) - {d}
    {
      drained := if d in queues then queues[d] else [];
      queues := queues - {d};
    }
  }

  class ServerState {
    const runtime: RuntimeCore
    const signaling: SignalingHub
    const maxSessions: nat
    const supported: seq<Feature>
    var sessions: map<Uuid, SessionInfo>
    var recording: RecordingWriter?

    ghost function Repr(): set<object>
      reads this
    {
      {this, runtime, signaling} + if recording == null then {} else {recording}
    }

    ghost function State(): Server
      reads Repr()
    {
      Server(runtime.State(), sessions, maxSessions, supported,
             if recording == null then None else Some(recording.State()), signaling.queues)
    }

    constructor (lease: LeaseConfig, root: real -> real, maxSessions: nat, supported: seq<Feature>)
      ensures State() == InitialServer(lease, root, maxSessions, supported)
      ensures fresh(Repr())
    {
      runtime := new RuntimeCore(lease, root);
      signaling := new SignalingHub();
      this.maxSessions, this.supported := maxSessions, supported;
      sessions, recording := map[], null;
    }

    // ----- Sessions -----

    method ChangeSessionState(d: Uuid, next: SessionState) returns (r: Answer)
      modifies this`sessions
      ensures (State(), r) == ChangeState(old(State()), d, next)
    {
      if d !in sessions { return Err(SessionNotFound(d)); }
      var info := sessions[d];
      if !CanTransition(info.state, next) { return Err(InvalidTransition(info.state, next)); }
      sessions := sessions[d := info.(state := next)];
      return Ok(());
    }

    method Discovered(d: Uuid, name: string) returns (r: Answer)
      modifies this`sessions
      ensures (State(), r) == Discover(old(State()), d, name)
    {
      if d !in sessions {
        var live := LiveSessions(sessions);
        if |live| >= maxSessions { return Err(RegisterRejected(CapacityExceeded)); }
      }
      sessions := sessions[d := SessionInfo(name, None, [], [], [], SessionState.Discovered)];
      return Ok(());
    }

    method HelloExchanged(h: Hello) returns (r: Answer)
      modifies this`sessions
      ensures (State(), r) == ExchangeHello(old(State()), h)
    {
      var version := NegotiateVersion(PROTOCOL_VERSION, h.version);
      if version.Err? { return Err(VersionRefused(version.error)); }
      if h.features == [] { return Err(RegisterRejected(NoCommonFeature)); }
      if h.roles == [] { return Err(RegisterRejected(RoleDenied)); }
      if MotionSource in h.roles && h.advertised == [] { return Err(RegisterRejected(RoleDenied)); }
      if h.device !in sessions { return Err(SessionNotFound(h.device)); }
      var info := sessions[h.device].(roles := h.roles, features := h.features, advertised := h.advertised);
      sessions := sessions[h.device := info];
      r := ChangeSessionState(h.device, SessionState.HelloExchanged);
    }

    method Register(d: Uuid, authorized: bool, sessionId: Uuid) returns (r: Answer)
      modifies this`sessions
      ensures (State(), r) == ServerSpec.Register(old(State()), d, authorized, sessionId)
    {
      if !authorized { return Err(RegisterRejected(AuthFailed)); }
      if d !in sessions { return Err(SessionNotFound(d)); }
      if Trim(sessions[d].name) == "" { return Err(RegisterRejected(RoleDenied)); }
      if NameTaken(sessions, d, sessions[d].name) { return Err(RegisterRejected(RoleDenied)); }
      if Negotiated(sessions[d].features, supported) == [] { return Err(RegisterRejected(NoCommonFeature)); }
      sessions := sessions[d := sessions[d].(sessionId := Some(sessionId))];
      r := ChangeSessionState(d, Registered);
    }

    method Activate(d: Uuid) returns (r: Answer)
      modifies Repr()
      ensures recording == old(recording)
      ensures (State(), r) == ServerSpec.Activate(old(State()), d)
    {
      runtime.RegisterDeviceConnected(d);
      r := ChangeSessionState(d, SessionState.Active);
    }

    method CloseSession(d: Uuid, now: nat) returns (r: Answer)
      modifies Repr()
      ensures recording == old(recording)
      ensures (State(), r) == ServerSpec.CloseSession(old(State()), d, now)
    {
      runtime.RegisterDeviceDisconnected(d, now);
      r := ChangeSessionState(d, Closed);
    }

    // ----- Modes and mappings -----

    method PushMarker(marker: Marker)
      modifies Repr()
      ensures recording == old(recording)
      ensures State() == Log(old(State()), marker)
    {
      if recording != null { recording.PushMarker(marker); }
    }

    method SetMode(mode: Mode, now: nat) returns (r: Answer)
      modifies Repr()
      ensures recording == old(recording)
      ensures (State(), r) == ChangeMode(old(State()), mode, now)
    {
      var from := runtime.mode;
      var changed := runtime.SetMode(mode);
      if changed.Err? { return Err(CoreFailed(changed.error)); }
      PushMarker(ModeTransition(now, from, mode));
      return Ok(());
    }

    method CreateMapping(newId: Uuid, req: MappingRequest, now: nat) returns (r: Result<Uuid, ServerError>)
      modifies Repr()
      ensures recording == old(recording)
      ensures (State(), r) == AddMapping(old(State()), newId, req, now)
    {
      var id := runtime.CreateMapping(newId, req, now);
      if id.Err? { return Err(CoreFailed(id.error)); }
      var i := IndexOf(runtime.mappings, newId);
      if i < |runtime.mappings| { PushMarker(MappingCreated(now, newId, WiringOf(runtime.mappings[i]))); }
      return Ok(newId);
    }

    method UpdateMapping(id: Uuid, req: MappingRequest, now: nat) returns (r: Answer)
      modifies Repr()
      ensures recording == old(recording)
      ensures (State(), r) == RedirectMapping(old(State()), id, req, now)
    {
      var updated := runtime.UpdateMapping(id, req, now);
      if updated.Err? { return Err(CoreFailed(updated.error)); }
      var i := IndexOf(runtime.mappings, id);
      if i < |runtime.mappings| { PushMarker(MappingUpdated(now, id, WiringOf(runtime.mappings[i]))); }
      return Ok(());
    }

    method RemoveMapping(id: Uuid, now: nat) returns (r: Answer)
      modifies Repr()
      ensures recording == old(recording)
      ensures (State(), r) == DropMapping(old(State()), id, now)
    {
      var removed := runtime.RemoveMapping(id);
      if removed.Err? { return Err(CoreFailed(removed.error)); }
      PushMarker(MappingRemoved(now, id));
      return Ok(());
    }

    method SetMappingLock(id: Uuid, lock: bool, now: nat) returns (r: Answer)
      modifies Repr()
      ensures recording == old(recording)
      ensures (State(), r) == LockMapping(old(State()), id, lock, now)
    {
      var outcome := runtime.SetMappingLock(id, lock);
      if outcome.Err? { return Err(CoreFailed(outcome.error)); }
      PushMarker(MappingLockSet(now, id, lock));
      return Ok(());
    }

    // ----- Ingest and recording -----

    /** The second routing pass, over the state after the batch. */
    method FrameAttributes(d: Uuid, updates: seq<AttributeUpdate>)
      returns (r: Result<seq<RecordedAttribute>, ServerError>)
      requires runtime.activeScene.Some?
      ensures r == RecordAll(runtime.State(), runtime.activeScene.value, d, updates)
    {
      var scene := runtime.activeScene.value;
      var attrs: seq<RecordedAttribute> := [];
      ghost var rt := runtime.State();
      PrependNone(RecordAll(rt, scene, d, updates));
      assert updates[0..] == updates;
      for i := 0 to |updates|
        invariant RecordAll(rt, scene, d, updates) == Prepend(attrs, RecordAll(rt, scene, d, updates[i..]))
      {
        assert updates[i..][1..] == updates[i + 1..];
        var k := RouteOf(runtime.mappings, scene, d, updates[i].output);
        if k == |runtime.mappings| { return Err(CoreFailed(MappingDenied(NoActiveMapping(updates[i].output)))); }
        var a := runtime.mappings[k].target;
        var attr := GetAttr(runtime.scenes, a);
        if attr.Err? { return Err(CoreFailed(AttributeNotFound(a.attribute))); }
        var entry := RecordedAttribute(a.obj, a.attribute, attr.value.current);
        PrependTwice(attrs, entry, RecordAll(rt, scene, d, updates[i + 1..]));
        attrs := attrs + [entry];
      }
      assert attrs + [] == attrs;
      return Ok(attrs);
    }

    method IngestMotionSamples(d: Uuid, updates: seq<AttributeUpdate>, now: nat) returns (r: Answer)
      modifies Repr()
      ensures recording == old(recording)
      ensures (State(), r) == Ingest(old(State()), d, updates, now)
    {
      var applied := runtime.ApplyUpdates(d, updates, now);
      if applied.Err? { return Err(CoreFailed(applied.error)); }
      if recording != null {
        if runtime.activeScene.None? { return Err(CoreFailed(MappingDenied(NoActiveScene))); }
        var attrs := FrameAttributes(d, updates);
        if attrs.Err? { return Err(attrs.error); }
        recording.PushFrame(Frame(now, runtime.mode, attrs.value));
      }
      return Ok(());
    }

    /** A writer holding the start marker and one marker per Active mapping. */
    method SeededWriter(recordingId: Uuid, scene: Uuid, start: Marker, snapshot: seq<Mapping>, now: nat)
      returns (writer: RecordingWriter)
      ensures fresh(writer)
      ensures writer.State()
              == StartWriter(recordingId, scene, now, V2).(markers := [start] + SeedMarkers(snapshot, now))
    {
      writer := new RecordingWriter.Start(recordingId, scene, now, V2);
      writer.PushMarker(start);
      for i := 0 to |snapshot|
        modifies writer
        invariant writer.State()
                  == StartWriter(recordingId, scene, now, V2).(markers := [start] + SeedMarkers(snapshot[..i], now))
      {
        var m := snapshot[i];
        assert snapshot[..i + 1][..i] == snapshot[..i];
        if m.state == MappingState.Active { writer.PushMarker(MappingCreated(now, m.id, WiringOf(m))); }
      }
      assert snapshot[..|snapshot|] == snapshot;
    }

    method StartRecording(recordingId: Uuid, now: nat) returns (r: Result<Uuid, ServerError>)
      modifies Repr()
      ensures fresh(Repr() - old(Repr()))
      ensures (State(), r) == ServerSpec.StartRecording(old(State()), recordingId, now)
    {
      var fromMode := runtime.mode;
      if fromMode == Idle {
        var toLive := runtime.SetMode(Mode.Live);
        fromMode := Mode.Live;
      }
      var toRecording := runtime.SetMode(Recording);
      if runtime.activeScene.None? { return Err(NoSceneToRecord); }
      recording := SeededWriter(recordingId, runtime.activeScene.value, ModeTransition(now, fromMode, Recording),
                                runtime.mappings, now);
      return Ok(recordingId);
    }

    /** `io` is the outcome of the file system; on success the file holds the finished writer. */
    method StopRecording(cs: Codecs, now: nat, io: bool) returns (r: Result<Manifest, ServerError>, file: File?)
      modifies Repr()
      ensures var (t, outcome) := ServerSpec.StopRecording(old(State()), now, io);
              && State() == t
              && (outcome.Err? ==> r == Err(outcome.error))
              && (outcome.Ok? ==> r == Ok(outcome.value.manifest))
              && (outcome.Ok? ==> file != null && file.bytes == FileOf(cs, outcome.value))
    {
      file := null;
      if recording == null { return Err(NoActiveRecording), null; }
      var writer := recording;
      recording := null;
      writer.PushMarker(ModeTransition(now, Recording, Mode.Live));
      if !io { return Err(RecordingIo), null; }
      var manifest;
      file, manifest := writer.Finish(cs);
      var back := runtime.SetMode(Mode.Live);
      return Ok(manifest), file;
    }

    // ----- Signalling -----

    method PushSignalingMessage(m: Signal) returns (r: Answer)
      modifies Repr()
      ensures recording == old(recording)
      ensures (State(), r) == PushSignal(old(State()), m)
    {
      if m.fromDevice !in sessions { return Err(SessionNotFound(m.fromDevice)); }
      if m.toDevice !in sessions { return Err(SessionNotFound(m.toDevice)); }
      if sessions[m.fromDevice].state != SessionState.Active || sessions[m.toDevice].state != SessionState.Active {
        return Err(SignalingInactive);
      }
      signaling.Enqueue(m);
      return Ok(());
    }

    method DrainSignalingMessages(d: Uuid) returns (r: Result<seq<Signal>, ServerError>)
      modifies Repr()
      ensures recording == old(recording)
      ensures (State(), r) == DrainSignals(old(State()), d)
    {
      if d !in sessions { return Err(SessionNotFound(d)); }
      var drained := signaling.DrainFor(d);
      return Ok(drained);
    }
  }

  /** What entries collected so far add to the outcome of recording the rest. */
  ghost function Prepend(attrs: seq<RecordedAttribute>, rest: Result<seq<RecordedAttribute>, ServerError>)
    : Result<seq<RecordedAttribute>, ServerError>
  {
    if rest.Ok? then Ok(attrs + rest.value) else rest
  }

  lemma PrependNone(rest: Result<seq<RecordedAttribute>, ServerError>)
    ensures Prepend([], rest) == rest
  {
    if rest.Ok? { assert [] + rest.value == rest.value; }
  }

  lemma PrependTwice(attrs: seq<RecordedAttribute>, entry: RecordedAttribute,
                     rest: Result<seq<RecordedAttribute>, ServerError>)
    ensures Prepend(attrs, Prepend([entry], rest)) == Prepend(attrs + [entry], rest)
  {
    if rest.Ok? { assert attrs + ([entry] + rest.value) == attrs + [entry] + rest.value; }
  }
}
