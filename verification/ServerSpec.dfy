/** The server as a state machine on values: sessions, the runtime, the active recording and the
    signalling queues, one function per `ServerHandle` call. */
module ServerSpec {
  import opened Model
  import opened RuntimeSpec
  import opened Container

  // ----- Sessions -----

  datatype SessionState =
    | Discovered | TransportConnected | HelloExchanged | Authenticated
    | Registered | SceneSynced | Active | Closed

  predicate CanTransition(from: SessionState, to: SessionState) {
    match (from, to)
    case (Discovered, TransportConnected) => true
    case (TransportConnected, HelloExchanged) => true
    case (HelloExchanged, Authenticated) => true
    case (Authenticated, Registered) => true
    case (Registered, SceneSynced) => true
    case (SceneSynced, Active) => true
    case (Active, Closed) => true
    case (Authenticated, Closed) => true
    case (Registered, Closed) => true
    case (SceneSynced, Closed) => true
    case (TransportConnected, Closed) => true
    case (HelloExchanged, Closed) => true
    case _ => false
  }

  /** How far a session has come; Closed is the end. */
  function Rank(state: SessionState): nat {
    match state
    case Discovered => 0
    case TransportConnected => 1
    case HelloExchanged => 2
    case Authenticated => 3
    case Registered => 4
    case SceneSynced => 5
    case Active => 6
    case Closed => 7
  }

  /** The permitted transitions are exactly: one step up, or from any connected state to Closed. */
  lemma TransitionsExactly(from: SessionState, to: SessionState)
    ensures CanTransition(from, to) <==>
            if to == Closed then 0 < Rank(from) < 7 else Rank(to) == Rank(from) + 1
  {
  }

  datatype ProtocolVersion = ProtocolVersion(major: nat, minor: nat)

  datatype VersionError = UnsupportedMajor | ClientTooNew

  /** `negotiate_version`: the version both sides will speak. */
  function NegotiateVersion(server: ProtocolVersion, client: ProtocolVersion): Result<ProtocolVersion, VersionError> {
    if server.major != client.major then Err(UnsupportedMajor)
    else if client.minor > server.minor then Err(ClientTooNew)
    else Ok(ProtocolVersion(server.major, client.minor))
  }

  /** Negotiation settles on the client's own version, and whoever is accepted, every older minor
      version of the same major is accepted too. */
  lemma NegotiationIsBackwardCompatible(server: ProtocolVersion, client: ProtocolVersion, older: nat)
    requires NegotiateVersion(server, client).Ok? && older <= client.minor
    ensures NegotiateVersion(server, client).value == client
    ensures NegotiateVersion(server, client.(minor := older)) == Ok(client.(minor := older))
  {
  }

  datatype ClientRole = MotionSource | CameraController | VideoSink | Operator

  /** Features are only compared with each other; each is identified by its name. */
  type Feature = string

  datatype SessionInfo = SessionInfo(
    name: string,
    sessionId: Option<Uuid>,
    roles: seq<ClientRole>,
    features: seq<Feature>,
    advertised: seq<string>,
    state: SessionState)

  datatype Hello = Hello(version: ProtocolVersion, device: Uuid, roles: seq<ClientRole>, features: seq<Feature>,
                         advertised: seq<string>)

  const PROTOCOL_VERSION := ProtocolVersion(1, 3)

  datatype RejectCode = NoCommonFeature | AuthFailed | RoleDenied | CapacityExceeded

  datatype ServerError =
    | SessionNotFound(device: Uuid)
    | InvalidTransition(from: SessionState, to: SessionState)
    | VersionRefused(why: VersionError)
    | RegisterRejected(code: RejectCode)
    | CoreFailed(core: CoreError)
    | SignalingInactive
    | NoActiveRecording
    | NoSceneToRecord
    | RecordingIo

  /** The payload, SDP or ICE text, is carried along unread. */
  datatype Signal = Signal(fromDevice: Uuid, toDevice: Uuid, payload: string)

  datatype Server = Server(
    runtime: Runtime,
    sessions: map<Uuid, SessionInfo>,
    maxSessions: nat,
    supported: seq<Feature>,
    recording: Option<Writer>,
    signaling: map<Uuid, seq<Signal>>)

  function InitialServer(lease: LeaseConfig, root: real -> real, maxSessions: nat, supported: seq<Feature>): Server {
    Server(Initial(lease, root), map[], maxSessions, supported, None, map[])
  }

  type Answer = Result<(), ServerError>

  function ChangeState(s: Server, d: Uuid, next: SessionState): (Server, Answer) {
    if d !in s.sessions then (s, Err(SessionNotFound(d)))
    else if !CanTransition(s.sessions[d].state, next) then (s, Err(InvalidTransition(s.sessions[d].state, next)))
    else (s.(sessions := s.sessions[d := s.sessions[d].(state := next)]), Ok(()))
  }

  function LiveSessions(sessions: map<Uuid, SessionInfo>): set<Uuid> {
    set d | d in sessions && sessions[d].state != Closed
  }

  /** The characters `str::trim` removes. */
  predicate IsWhitespace(c: char) {
    var n := c as int;
    || 0x9 <= n <= 0xd || n == 0x20 || n == 0x85 || n == 0xa0 || n == 0x1680 || 0x2000 <= n <= 0x200a
    || n == 0x2028 || n == 0x2029 || n == 0x202f || n == 0x205f || n == 0x3000
  }

  function TrimStart(s: string): string {
    if s != [] && IsWhitespace(s[0]) then TrimStart(s[1..]) else s
  }

  function TrimEnd(s: string): string {
    if s != [] && IsWhitespace(s[|s| - 1]) then TrimEnd(s[..|s| - 1]) else s
  }

  function Trim(s: string): string {
    TrimEnd(TrimStart(s))
  }

  lemma {:induction false} TrimEndMeaning(s: string)
    ensures TrimEnd(s) <= s
    ensures TrimEnd(s) == s <==> s == [] || !IsWhitespace(s[|s| - 1])
    ensures TrimEnd(s) != [] ==> !IsWhitespace(TrimEnd(s)[|TrimEnd(s)| - 1])
    decreases s
  {
    if s != [] && IsWhitespace(s[|s| - 1]) { TrimEndMeaning(s[..|s| - 1]); }
  }

  lemma {:induction false} TrimStartMeaning(s: string)
    ensures |TrimStart(s)| <= |s|
    ensures TrimStart(s) == s <==> s == [] || !IsWhitespace(s[0])
    ensures TrimStart(s) != [] ==> !IsWhitespace(TrimStart(s)[0])
    decreases s
  {
    if s != [] && IsWhitespace(s[0]) { TrimStartMeaning(s[1..]); }
  }

  /** A name is trimmed exactly when it neither starts nor ends with whitespace; trimming makes it so. */
  lemma TrimmedExactly(s: string)
    ensures Trim(s) == s <==> s == [] || (!IsWhitespace(s[0]) && !IsWhitespace(s[|s| - 1]))
    ensures Trim(Trim(s)) == Trim(s)
  {
    var t := TrimStart(s);
    TrimStartMeaning(s);
    TrimEndMeaning(t);
    var r := Trim(s);
    if r != [] { assert r[0] == t[0]; }
    TrimStartMeaning(r);
    TrimEndMeaning(r);
  }

  /** A live session that has been given a session id. */
  predicate Holder(sessions: map<Uuid, SessionInfo>, d: Uuid) {
    d in sessions && sessions[d].state != Closed && sessions[d].sessionId.Some?
  }

  /** `enforce_unique_device_name`: stored names are compared untrimmed with the trimmed new one. */
  predicate NameTaken(sessions: map<Uuid, SessionInfo>, d: Uuid, name: string) {
    exists e :: e in sessions && e != d && Holder(sessions, e) && sessions[e].name == Trim(name)
  }

  function Discover(s: Server, d: Uuid, name: string): (Server, Answer) {
    if d !in s.sessions && |LiveSessions(s.sessions)| >= s.maxSessions then (s, Err(RegisterRejected(CapacityExceeded)))
    else (s.(sessions := s.sessions[d := SessionInfo(name, None, [], [], [], Discovered)]), Ok(()))
  }

  function ExchangeHello(s: Server, h: Hello): (Server, Answer) {
    var version := NegotiateVersion(PROTOCOL_VERSION, h.version);
    if version.Err? then (s, Err(VersionRefused(version.error)))
    else if h.features == [] then (s, Err(RegisterRejected(NoCommonFeature)))
    else if h.roles == [] then (s, Err(RegisterRejected(RoleDenied)))
    else if MotionSource in h.roles && h.advertised == [] then (s, Err(RegisterRejected(RoleDenied)))
    else if h.device !in s.sessions then (s, Err(SessionNotFound(h.device)))
    else
      var info := s.sessions[h.device].(roles := h.roles, features := h.features, advertised := h.advertised);
      ChangeState(s.(sessions := s.sessions[h.device := info]), h.device, HelloExchanged)
  }

  /** The features of a session the server also supports. */
  function Negotiated(features: seq<Feature>, supported: seq<Feature>): (r: seq<Feature>)
    ensures forall f :: f in r <==> f in features && f in supported
  {
    if features == [] then []
    else (if features[0] in supported then [features[0]] else []) + Negotiated(features[1..], supported)
  }

  lemma {:induction false} NegotiatedConcat(a: seq<Feature>, b: seq<Feature>, supported: seq<Feature>)
    ensures Negotiated(a + b, supported) == Negotiated(a, supported) + Negotiated(b, supported)
    decreases a
  {
    if a == [] {
      assert a + b == b;
    } else {
      assert (a + b)[1..] == a[1..] + b;
      NegotiatedConcat(a[1..], b, supported);
    }
  }

  /** It drops the others and neither reorders nor merges: these two equations determine it. */
  lemma NegotiatedIsFilter(a: seq<Feature>, b: seq<Feature>, f: Feature, supported: seq<Feature>)
    ensures Negotiated([f], supported) == if f in supported then [f] else []
    ensures Negotiated(a + b, supported) == Negotiated(a, supported) + Negotiated(b, supported)
  {
    NegotiatedConcat(a, b, supported);
    assert [f][1..] == [];
  }

  /** The session id is stored before the state change is attempted, and stays if that fails. */
  function Register(s: Server, d: Uuid, authorized: bool, sessionId: Uuid): (Server, Answer) {
    if !authorized then (s, Err(RegisterRejected(AuthFailed)))
    else if d !in s.sessions then (s, Err(SessionNotFound(d)))
    else if Trim(s.sessions[d].name) == "" then (s, Err(RegisterRejected(RoleDenied)))
    else if NameTaken(s.sessions, d, s.sessions[d].name) then (s, Err(RegisterRejected(RoleDenied)))
    else if Negotiated(s.sessions[d].features, s.supported) == [] then (s, Err(RegisterRejected(NoCommonFeature)))
    else
      ChangeState(s.(sessions := s.sessions[d := s.sessions[d].(sessionId := Some(sessionId))]), d, Registered)
  }

  function Activate(s: Server, d: Uuid): (Server, Answer) {
    ChangeState(s.(runtime := Connect(s.runtime, d)), d, SessionState.Active)
  }

  function CloseSession(s: Server, d: Uuid, now: nat): (Server, Answer) {
    ChangeState(s.(runtime := Disconnect(s.runtime, d, now)), d, Closed)
  }

  // ----- Runtime calls, and the markers they leave -----

  /** Appends a marker to the active recording, if there is one. */
  function Log(s: Server, marker: Marker): Server {
    if s.recording.Some? then s.(recording := Some(PushMarker(s.recording.value, marker))) else s
  }

  function Lift<T>(r: Result<T, CoreError>): Result<T, ServerError> {
    if r.Ok? then Ok(r.value) else Err(CoreFailed(r.error))
  }

  function WiringOf(m: Mapping): Wiring {
    Wiring(m.sourceDevice, m.sourceOutput, m.target, m.mask)
  }

  function ChangeMode(s: Server, mode: Mode, now: nat): (Server, Answer) {
    var (rt, r) := SetMode(s.runtime, mode);
    if r.Err? then (s, Lift(r)) else (Log(s.(runtime := rt), ModeTransition(now, s.runtime.mode, mode)), Ok(()))
  }

  ghost function AddMapping(s: Server, id: Uuid, req: MappingRequest, now: nat): (Server, Result<Uuid, ServerError>) {
    var (rt, r) := CreateMapping(s.runtime, id, req, now);
    var i := IndexOf(rt.mappings, id);
    if r.Err? then (s, Lift(r))
    else if i == |rt.mappings| then (s.(runtime := rt), Ok(id))
    else (Log(s.(runtime := rt), MappingCreated(now, id, WiringOf(rt.mappings[i]))), Ok(id))
  }

  ghost function RedirectMapping(s: Server, id: Uuid, req: MappingRequest, now: nat): (Server, Answer) {
    var (rt, r) := UpdateMapping(s.runtime, id, req, now);
    var i := IndexOf(rt.mappings, id);
    if r.Err? then (s, Lift(r))
    else if i == |rt.mappings| then (s.(runtime := rt), Ok(()))
    else (Log(s.(runtime := rt), MappingUpdated(now, id, WiringOf(rt.mappings[i]))), Ok(()))
  }

  function DropMapping(s: Server, id: Uuid, now: nat): (Server, Answer) {
    var (rt, r) := RemoveMapping(s.runtime, id);
    if r.Err? then (s, Lift(r)) else (Log(s.(runtime := rt), MappingRemoved(now, id)), Ok(()))
  }

  function LockMapping(s: Server, id: Uuid, lock: bool, now: nat): (Server, Answer) {
    var (rt, r) := SetMappingLock(s.runtime, id, lock);
    if r.Err? then (s, Lift(r)) else (Log(s.(runtime := rt), MappingLockSet(now, id, lock)), Ok(()))
  }

  function ResolveScene(s: Server, id: Option<Uuid>): Result<Uuid, ServerError> {
    if id.Some? then Ok(id.value)
    else if s.runtime.activeScene.Some? then Ok(s.runtime.activeScene.value)
    else Err(CoreFailed(MappingDenied(NoActiveScene)))
  }

  function RebaseSceneOf(s: Server, id: Option<Uuid>, dir: Direction): (Server, Result<nat, ServerError>) {
    var scene := ResolveScene(s, id);
    if scene.Err? then (s, Err(scene.error))
    else
      var (rt, r) := RebaseScene(s.runtime, scene.value, dir);
      (s.(runtime := rt), Lift(r))
  }

  function CommitObjectOf(s: Server, id: Option<Uuid>, obj: Uuid): (Server, Result<nat, ServerError>) {
    var scene := ResolveScene(s, id);
    if scene.Err? then (s, Err(scene.error))
    else
      var (rt, r) := CommitObject(s.runtime, scene.value, obj);
      (s.(runtime := rt), Lift(r))
  }

  // ----- Ingest -----

  /** One entry of a recorded frame: a second routing pass, and the value after the whole batch. */
  function RecordOne(rt: Runtime, scene: Uuid, d: Uuid, u: AttributeUpdate): Result<RecordedAttribute, ServerError> {
    var i := RouteOf(rt.mappings, scene, d, u.output);
    if i == |rt.mappings| then Err(CoreFailed(MappingDenied(NoActiveMapping(u.output))))
    else
      var a := rt.mappings[i].target;
      if GetAttr(rt.scenes, a).Err? then Err(CoreFailed(AttributeNotFound(a.attribute)))
      else Ok(RecordedAttribute(a.obj, a.attribute, GetAttr(rt.scenes, a).value.current))
  }

  function RecordAll(rt: Runtime, scene: Uuid, d: Uuid,
                     us: seq<AttributeUpdate>): Result<seq<RecordedAttribute>, ServerError>
    decreases us
  {
    if us == [] then Ok([])
    else
      var first :- RecordOne(rt, scene, d, us[0]);
      var rest :- RecordAll(rt, scene, d, us[1..]);
      Ok([first] + rest)
  }

  function Ingest(s: Server, d: Uuid, us: seq<AttributeUpdate>, now: nat): (Server, Answer) {
    var (rt, r) := ApplyUpdates(s.runtime, d, us, now);
    var s1 := s.(runtime := rt);
    if r.Err? then (s1, Err(CoreFailed(r.error)))
    else if s.recording.None? then (s1, Ok(()))
    else if rt.activeScene.None? then (s1, Err(CoreFailed(MappingDenied(NoActiveScene))))
    else
      var attrs := RecordAll(rt, rt.activeScene.value, d, us);
      if attrs.Err? then (s1, Err(attrs.error))
      else (s1.(recording := Some(PushFrame(s.recording.value, Frame(now, rt.mode, attrs.value)))), Ok(()))
  }

  // ----- Recording -----

  /** The markers `start_recording` seeds: one per Active mapping, in table order. */
  function SeedMarkers(ms: seq<Mapping>, now: nat): seq<Marker> {
    if ms == [] then []
    else
      var m := ms[|ms| - 1];
      SeedMarkers(ms[..|ms| - 1], now)
      + if m.state == MappingState.Active then [MappingCreated(now, m.id, WiringOf(m))] else []
  }

  /** The mode is forced to Recording before the active scene is looked for. */
  function StartRecording(s: Server, recordingId: Uuid, now: nat): (Server, Result<Uuid, ServerError>) {
    var from := if s.runtime.mode == Idle then Mode.Live else s.runtime.mode;
    var s1 := s.(runtime := s.runtime.(mode := Recording));
    if s.runtime.activeScene.None? then (s1, Err(NoSceneToRecord))
    else
      var w := StartWriter(recordingId, s.runtime.activeScene.value, now, V2);
      var seeded := w.(markers := [ModeTransition(now, from, Recording)] + SeedMarkers(s.runtime.mappings, now));
      (s1.(recording := Some(seeded)), Ok(recordingId))
  }

  /** Gives the writer that `finish` turns into a file; `io` says whether writing it succeeded.  The
      recording is gone either way, and the mode only changes on success. */
  function StopRecording(s: Server, now: nat, io: bool): (Server, Result<Writer, ServerError>) {
    if s.recording.None? then (s, Err(NoActiveRecording))
    else
      var w := PushMarker(s.recording.value, ModeTransition(now, Recording, Mode.Live));
      if !io then (s.(recording := None), Err(RecordingIo))
      else (s.(recording := None, runtime := SetMode(s.runtime, Mode.Live).0), Ok(w))
  }

  // ----- Signalling -----

  function QueueOf(signaling: map<Uuid, seq<Signal>>, d: Uuid): seq<Signal> {
    if d in signaling then signaling[d] else []
  }

  function Enqueue(signaling: map<Uuid, seq<Signal>>, m: Signal): map<Uuid, seq<Signal>> {
    signaling[m.toDevice := QueueOf(signaling, m.toDevice) + [m]]
  }

  function PushSignal(s: Server, m: Signal): (Server, Answer) {
    if m.fromDevice !in s.sessions then (s, Err(SessionNotFound(m.fromDevice)))
    else if m.toDevice !in s.sessions then (s, Err(SessionNotFound(m.toDevice)))
    else if s.sessions[m.fromDevice].state != SessionState.Active then (s, Err(SignalingInactive))
    else if s.sessions[m.toDevice].state != SessionState.Active then (s, Err(SignalingInactive))
    else (s.(signaling := Enqueue(s.signaling, m)), Ok(()))
  }

  function DrainSignals(s: Server, d: Uuid): (Server, Result<seq<Signal>, ServerError>) {
    if d !in s.sessions then (s, Err(SessionNotFound(d)))
    else (s.(signaling := s.signaling - {d}), Ok(QueueOf(s.signaling, d)))
  }

  // ----- Runs -----

  datatype Call =
    | CallDiscover(device: Uuid, name: string)
    | CallTransportConnected(device: Uuid)
    | CallHello(hello: Hello)
    | CallAuthenticate(device: Uuid)
    | CallRegister(device: Uuid, authorized: bool, sessionId: Uuid)
    | CallSceneSynced(device: Uuid)
    | CallActivate(device: Uuid)
    | CallClose(device: Uuid, now: nat)
    | CallLoadScene(scene: Scene)
    | CallSetActiveScene(id: Uuid)
    | CallSetMode(mode: Mode, now: nat)
    | CallRebase(sceneId: Option<Uuid>, dir: Direction)
    | CallCommitObject(sceneId: Option<Uuid>, obj: Uuid)
    | CallCreate(id: Uuid, req: MappingRequest, now: nat)
    | CallUpdate(id: Uuid, req: MappingRequest, now: nat)
    | CallRemove(id: Uuid, now: nat)
    | CallSetLock(id: Uuid, lock: bool, now: nat)
    | CallIngest(device: Uuid, updates: seq<AttributeUpdate>, now: nat)
    | CallTick(now: nat)
    | CallStart(id: Uuid, now: nat)
    | CallStop(now: nat, io: bool)
    | CallPush(signal: Signal)
    | CallDrain(device: Uuid)

  ghost function Perform(s: Server, call: Call): Server {
    match call
    case CallDiscover(d, name) => Discover(s, d, name).0
    case CallTransportConnected(d) => ChangeState(s, d, TransportConnected).0
    case CallHello(h) => ExchangeHello(s, h).0
    case CallAuthenticate(d) => ChangeState(s, d, Authenticated).0
    case CallRegister(d, ok, id) => Register(s, d, ok, id).0
    case CallSceneSynced(d) => ChangeState(s, d, SceneSynced).0
    case CallActivate(d) => Activate(s, d).0
    case CallClose(d, now) => CloseSession(s, d, now).0
    case CallLoadScene(scene) => s.(runtime := LoadScene(s.runtime, scene))
    case CallSetActiveScene(id) => s.(runtime := SetActiveScene(s.runtime, id).0)
    case CallSetMode(mode, now) => ChangeMode(s, mode, now).0
    case CallRebase(id, dir) => RebaseSceneOf(s, id, dir).0
    case CallCommitObject(id, obj) => CommitObjectOf(s, id, obj).0
    case CallCreate(id, req, now) => AddMapping(s, id, req, now).0
    case CallUpdate(id, req, now) => RedirectMapping(s, id, req, now).0
    case CallRemove(id, now) => DropMapping(s, id, now).0
    case CallSetLock(id, lock, now) => LockMapping(s, id, lock, now).0
    case CallIngest(d, us, now) => Ingest(s, d, us, now).0
    case CallTick(now) => s.(runtime := SchedulerTick(s.runtime, now))
    case CallStart(id, now) => StartRecording(s, id, now).0
    case CallStop(now, io) => StopRecording(s, now, io).0
    case CallPush(m) => PushSignal(s, m).0
    case CallDrain(d) => DrainSignals(s, d).0
  }

  ghost function PerformAll(s: Server, calls: seq<Call>): Server
    decreases calls
  {
    if calls == [] then s else PerformAll(Perform(s, calls[0]), calls[1..])
  }

  lemma PerformTwo(s: Server, a: Call, b: Call)
    ensures PerformAll(s, [a, b]) == Perform(Perform(s, a), b)
  {
    assert [a, b][1..] == [b] && [b][1..] == [];
    assert PerformAll(Perform(s, a), [b]) == Perform(Perform(s, a), b);
  }

  lemma PerformThree(s: Server, a: Call, b: Call, c: Call)
    ensures PerformAll(s, [a, b, c]) == Perform(Perform(Perform(s, a), b), c)
  {
    assert [a, b, c][1..] == [b, c] && [b, c][1..] == [c] && [c][1..] == [];
    assert PerformAll(Perform(s, a), [b, c]) == PerformAll(Perform(Perform(s, a), b), [c]);
  }

  lemma {:induction false} PerformConcat(s: Server, a: seq<Call>, b: seq<Call>)
    ensures PerformAll(s, a + b) == PerformAll(PerformAll(s, a), b)
    decreases a
  {
    if a == [] {
      assert a + b == b;
    } else {
      assert (a + b)[1..] == a[1..] + b;
      PerformConcat(Perform(s, a[0]), a[1..], b);
    }
  }

  /** The runtime steps behind a call: every law of runtime runs holds of server runs through this. */
  function RuntimeOps(s: Server, call: Call): seq<Op> {
    match call
    case CallActivate(d) => [OpConnect(d)]
    case CallClose(d, now) => [OpDisconnect(d, now)]
    case CallLoadScene(scene) => [OpLoadScene(scene)]
    case CallSetActiveScene(id) => [OpSetActiveScene(id)]
    case CallSetMode(mode, now) => [OpSetMode(mode)]
    case CallRebase(id, dir) => if ResolveScene(s, id).Ok? then [OpRebase(ResolveScene(s, id).value, dir)] else []
    case CallCommitObject(id, obj) =>
      if ResolveScene(s, id).Ok? then [OpCommitObject(ResolveScene(s, id).value, obj)] else []
    case CallCreate(id, req, now) => [OpCreate(id, req, now)]
    case CallUpdate(id, req, now) => [OpUpdate(id, req, now)]
    case CallRemove(id, now) => [OpRemove(id)]
    case CallSetLock(id, lock, now) => [OpSetLock(id, lock)]
    case CallIngest(d, us, now) => [OpApply(d, us, now)]
    case CallTick(now) => [OpTick(now)]
    case CallStart(id, now) =>
      if s.runtime.mode == Idle then [OpSetMode(Mode.Live), OpSetMode(Recording)] else [OpSetMode(Recording)]
    case CallStop(now, io) => if s.recording.Some? && io then [OpSetMode(Mode.Live)] else []
    case _ => []
  }

  lemma RunSingle(s: Runtime, op: Op)
    ensures Run(s, [op]) == Step(s, op)
  {
    assert [op][1..] == [];
    assert Run(s, [op]) == Run(Step(s, op), []);
  }

  lemma StartIsTwoModes(s: Runtime)
    ensures Run(s, [OpSetMode(Mode.Live), OpSetMode(Recording)]) == s.(mode := Recording)
  {
    var ops := [OpSetMode(Mode.Live), OpSetMode(Recording)];
    assert ops[1..] == [OpSetMode(Recording)];
    RunSingle(Step(s, ops[0]), OpSetMode(Recording));
  }

  // ----- What a call does, part by part -----

  /** The runtime after a call: that after the step behind it, or after the two of a start from Idle. */
  ghost function RuntimeAfter(s: Server, call: Call): Runtime {
    var ops := RuntimeOps(s, call);
    if call.CallStart? then s.runtime.(mode := Recording) else if ops == [] then s.runtime else Step(s.runtime, ops[0])
  }

  function SessionsAfter(s: Server, call: Call): map<Uuid, SessionInfo> {
    match call
    case CallDiscover(d, name) => Discover(s, d, name).0.sessions
    case CallTransportConnected(d) => ChangeState(s, d, TransportConnected).0.sessions
    case CallHello(h) => ExchangeHello(s, h).0.sessions
    case CallAuthenticate(d) => ChangeState(s, d, Authenticated).0.sessions
    case CallRegister(d, ok, id) => Register(s, d, ok, id).0.sessions
    case CallSceneSynced(d) => ChangeState(s, d, SceneSynced).0.sessions
    case CallActivate(d) => ChangeState(s, d, SessionState.Active).0.sessions
    case CallClose(d, now) => ChangeState(s, d, Closed).0.sessions
    case _ => s.sessions
  }

  function SignalingAfter(s: Server, call: Call): map<Uuid, seq<Signal>> {
    match call
    case CallPush(m) => PushSignal(s, m).0.signaling
    case CallDrain(d) => DrainSignals(s, d).0.signaling
    case _ => s.signaling
  }

  /** t differs from s as the call says, and perhaps in its recording. */
  ghost predicate Parts(s: Server, call: Call, t: Server) {
    t == s.(runtime := RuntimeAfter(s, call), sessions := SessionsAfter(s, call),
            signaling := SignalingAfter(s, call), recording := t.recording)
  }

  /** Only the runtime, which becomes rt, and perhaps the recording differ. */
  ghost predicate Moved(s: Server, t: Server, rt: Runtime) {
    t == s.(runtime := rt, recording := t.recording)
  }

  lemma AddMoves(s: Server, id: Uuid, req: MappingRequest, now: nat)
    ensures Moved(s, AddMapping(s, id, req, now).0, CreateMapping(s.runtime, id, req, now).0)
  {
  }

  lemma RedirectMoves(s: Server, id: Uuid, req: MappingRequest, now: nat)
    ensures Moved(s, RedirectMapping(s, id, req, now).0, UpdateMapping(s.runtime, id, req, now).0)
  {
  }

  lemma DropMoves(s: Server, id: Uuid, now: nat)
    ensures Moved(s, DropMapping(s, id, now).0, RemoveMapping(s.runtime, id).0)
  {
  }

  lemma LockMoves(s: Server, id: Uuid, lock: bool, now: nat)
    ensures Moved(s, LockMapping(s, id, lock, now).0, SetMappingLock(s.runtime, id, lock).0)
  {
  }

  lemma IngestMoves(s: Server, d: Uuid, us: seq<AttributeUpdate>, now: nat)
    ensures Moved(s, Ingest(s, d, us, now).0, ApplyUpdates(s.runtime, d, us, now).0)
  {
  }

  lemma ModeMoves(s: Server, mode: Mode, now: nat)
    ensures Moved(s, ChangeMode(s, mode, now).0, SetMode(s.runtime, mode).0)
  {
  }

  predicate SessionCall(call: Call) {
    call.CallDiscover? || call.CallTransportConnected? || call.CallHello? || call.CallAuthenticate?
    || call.CallRegister? || call.CallSceneSynced? || call.CallPush? || call.CallDrain?
  }

  lemma NegotiationParts(s: Server, call: Call)
    requires call.CallHello? || call.CallRegister?
    ensures Parts(s, call, Perform(s, call))
  {
  }

  lemma SessionParts(s: Server, call: Call)
    requires SessionCall(call)
    ensures Parts(s, call, Perform(s, call))
  {
    if call.CallHello? || call.CallRegister? { NegotiationParts(s, call); }
  }

  predicate MappingCall(call: Call) {
    call.CallCreate? || call.CallUpdate? || call.CallRemove? || call.CallSetLock? || call.CallIngest?
      || call.CallSetMode?
  }

  lemma CreateParts(s: Server, call: Call)
    requires call.CallCreate?
    ensures Parts(s, call, Perform(s, call))
  {
    AddMoves(s, call.id, call.req, call.now);
  }

  lemma UpdateParts(s: Server, call: Call)
    requires call.CallUpdate?
    ensures Parts(s, call, Perform(s, call))
  {
    RedirectMoves(s, call.id, call.req, call.now);
  }

  lemma RemoveParts(s: Server, call: Call)
    requires call.CallRemove?
    ensures Parts(s, call, Perform(s, call))
  {
    DropMoves(s, call.id, call.now);
  }

  lemma SetLockParts(s: Server, call: Call)
    requires call.CallSetLock?
    ensures Parts(s, call, Perform(s, call))
  {
    LockMoves(s, call.id, call.lock, call.now);
  }

  lemma IngestParts(s: Server, call: Call)
    requires call.CallIngest?
    ensures Parts(s, call, Perform(s, call))
  {
    IngestMoves(s, call.device, call.updates, call.now);
  }

  lemma SetModeParts(s: Server, call: Call)
    requires call.CallSetMode?
    ensures Parts(s, call, Perform(s, call))
  {
    ModeMoves(s, call.mode, call.now);
  }

  lemma MappingParts(s: Server, call: Call)
    requires MappingCall(call)
    ensures Parts(s, call, Perform(s, call))
  {
    match call
    case CallCreate(_, _, _) => CreateParts(s, call);
    case CallUpdate(_, _, _) => UpdateParts(s, call);
    case CallRemove(_, _) => RemoveParts(s, call);
    case CallSetLock(_, _, _) => SetLockParts(s, call);
    case CallIngest(_, _, _) => IngestParts(s, call);
    case CallSetMode(_, _) => SetModeParts(s, call);
  }

  lemma RebaseParts(s: Server, call: Call)
    requires call.CallRebase? || call.CallCommitObject?
    ensures Parts(s, call, Perform(s, call))
  {
  }

  lemma RecordingParts(s: Server, call: Call)
    requires call.CallStart? || call.CallStop?
    ensures Parts(s, call, Perform(s, call))
  {
  }

  lemma OtherParts(s: Server, call: Call)
    requires !SessionCall(call) && !MappingCall(call)
    ensures Parts(s, call, Perform(s, call))
  {
    if call.CallRebase? || call.CallCommitObject? { RebaseParts(s, call); }
    else if call.CallStart? || call.CallStop? { RecordingParts(s, call); }
  }

  lemma PerformParts(s: Server, call: Call)
    ensures Parts(s, call, Perform(s, call))
  {
    if SessionCall(call) {
      SessionParts(s, call);
    } else if MappingCall(call) {
      MappingParts(s, call);
    } else {
      OtherParts(s, call);
    }
  }

  /** The runtime after a call is that of the steps behind it. */
  lemma PartIsRun(s: Server, call: Call)
    ensures RuntimeAfter(s, call) == Run(s.runtime, RuntimeOps(s, call))
  {
    var ops := RuntimeOps(s, call);
    if call.CallStart? && s.runtime.mode == Idle {
      StartIsTwoModes(s.runtime);
    } else if ops != [] {
      assert ops == [ops[0]];
      RunSingle(s.runtime, ops[0]);
    }
  }

  lemma CallIsRuntimeOps(s: Server, call: Call)
    ensures Perform(s, call).runtime == Run(s.runtime, RuntimeOps(s, call))
  {
    PerformParts(s, call);
    PartIsRun(s, call);
  }

  ghost function AllRuntimeOps(s: Server, calls: seq<Call>): seq<Op>
    decreases calls
  {
    if calls == [] then [] else RuntimeOps(s, calls[0]) + AllRuntimeOps(Perform(s, calls[0]), calls[1..])
  }

  lemma {:induction false} RunConcat(s: Runtime, a: seq<Op>, b: seq<Op>)
    ensures Run(s, a + b) == Run(Run(s, a), b)
    decreases a
  {
    if a == [] {
      assert a + b == b;
    } else {
      assert (a + b)[1..] == a[1..] + b;
      RunConcat(Step(s, a[0]), a[1..], b);
    }
  }

  /** Every server run is a runtime run underneath. */
  lemma {:induction false} ServerRunIsRuntimeRun(s: Server, calls: seq<Call>)
    ensures PerformAll(s, calls).runtime == Run(s.runtime, AllRuntimeOps(s, calls))
    decreases calls
  {
    if calls != [] {
      CallIsRuntimeOps(s, calls[0]);
      ServerRunIsRuntimeRun(Perform(s, calls[0]), calls[1..]);
      RunConcat(s.runtime, RuntimeOps(s, calls[0]), AllRuntimeOps(Perform(s, calls[0]), calls[1..]));
    }
  }
}
