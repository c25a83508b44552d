/** The session table and the signalling queues over whole server runs. */
module Sessions {
  import opened Model
  import opened RuntimeSpec
  import opened ServerSpec

  // ----- Lifecycle: sessions only move forward -----

  /** d stays in the table, where it was or one permitted transition on. */
  ghost predicate MovesOn(before: map<Uuid, SessionInfo>, after: map<Uuid, SessionInfo>, d: Uuid)
    requires d in before
  {
    && d in after
    && var from, to := before[d].state, after[d].state;
       to == from || CanTransition(from, to)
  }

  lemma NegotiationMoves(s: Server, call: Call, d: Uuid)
    requires d in s.sessions && (call.CallHello? || call.CallRegister?)
    ensures MovesOn(s.sessions, SessionsAfter(s, call), d)
  {
  }

  lemma TableMoves(s: Server, call: Call, d: Uuid)
    requires d in s.sessions && !(call.CallDiscover? && call.device == d)
    ensures MovesOn(s.sessions, SessionsAfter(s, call), d)
  {
    if call.CallHello? || call.CallRegister? { NegotiationMoves(s, call, d); }
  }

  /** A call other than a rediscovery leaves a session where it is or takes one permitted transition. */
  lemma CallMovesSession(s: Server, call: Call, d: Uuid)
    requires d in s.sessions && !(call.CallDiscover? && call.device == d)
    ensures MovesOn(s.sessions, Perform(s, call).sessions, d)
  {
    PerformParts(s, call);
    TableMoves(s, call, d);
  }

  /** Until it is rediscovered a session never falls back, and once Closed it stays Closed. */
  lemma {:induction false} SessionsMoveForward(s: Server, calls: seq<Call>, d: Uuid)
    requires d in s.sessions && forall i :: 0 <= i < |calls| ==> !(calls[i].CallDiscover? && calls[i].device == d)
    ensures d in PerformAll(s, calls).sessions
    ensures Rank(s.sessions[d].state) <= Rank(PerformAll(s, calls).sessions[d].state)
    decreases calls
  {
    if calls != [] {
      CallMovesSession(s, calls[0], d);
      TransitionsExactly(s.sessions[d].state, Perform(s, calls[0]).sessions[d].state);
      SessionsMoveForward(Perform(s, calls[0]), calls[1..], d);
    }
  }

  // ----- Lifecycle: Active implies connected and registered -----

  predicate PastRegistration(state: SessionState) {
    state == Registered || state == SceneSynced || state == SessionState.Active
  }

  ghost predicate SessionSound(sessions: map<Uuid, SessionInfo>, connected: set<Uuid>, d: Uuid) {
    d in sessions ==>
      && (PastRegistration(sessions[d].state) ==> sessions[d].sessionId.Some?)
      && (sessions[d].state == SessionState.Active ==> d in connected)
  }

  ghost predicate TableSound(s: Server) {
    forall d :: SessionSound(s.sessions, s.runtime.connected, d)
  }

  lemma ConnectedAfter(s: Server, call: Call)
    ensures RuntimeAfter(s, call).connected ==
            match call
            case CallActivate(d) => s.runtime.connected + {d}
            case CallClose(d, _) => s.runtime.connected - {d}
            case _ => s.runtime.connected
  {
    if RuntimeOps(s, call) != [] { StepConnected(s.runtime, RuntimeOps(s, call)[0]); }
  }

  lemma ActivatedSound(s: Server, call: Call, d: Uuid)
    requires SessionSound(s.sessions, s.runtime.connected, d) && call.CallActivate?
    ensures SessionSound(SessionsAfter(s, call), s.runtime.connected + {call.device}, d)
  {
  }

  lemma ClosedSound(s: Server, call: Call, d: Uuid)
    requires SessionSound(s.sessions, s.runtime.connected, d) && call.CallClose?
    ensures SessionSound(SessionsAfter(s, call), s.runtime.connected - {call.device}, d)
  {
  }

  lemma RegisteredSound(s: Server, call: Call, d: Uuid)
    requires SessionSound(s.sessions, s.runtime.connected, d) && call.CallRegister?
    ensures SessionSound(SessionsAfter(s, call), s.runtime.connected, d)
  {
  }

  lemma OtherSound(s: Server, call: Call, d: Uuid)
    requires SessionSound(s.sessions, s.runtime.connected, d) && !call.CallActivate? && !call.CallClose?
             && !call.CallRegister?
    ensures SessionSound(SessionsAfter(s, call), s.runtime.connected, d)
  {
  }

  lemma SessionStaysSound(s: Server, call: Call, d: Uuid)
    requires SessionSound(s.sessions, s.runtime.connected, d)
    ensures SessionSound(SessionsAfter(s, call), RuntimeAfter(s, call).connected, d)
  {
    ConnectedAfter(s, call);
    if call.CallActivate? { ActivatedSound(s, call, d); }
    else if call.CallClose? { ClosedSound(s, call, d); }
    else if call.CallRegister? { RegisteredSound(s, call, d); }
    else { OtherSound(s, call, d); }
  }

  lemma CallSound(s: Server, call: Call)
    requires TableSound(s)
    ensures TableSound(Perform(s, call))
  {
    PerformParts(s, call);
    forall d
      ensures SessionSound(SessionsAfter(s, call), RuntimeAfter(s, call).connected, d)
    {
      SessionStaysSound(s, call, d);
    }
  }

  /** In every reachable state an Active session's device is connected and holds a session id. */
  lemma {:induction false} TableSoundRun(s: Server, calls: seq<Call>)
    requires TableSound(s)
    ensures TableSound(PerformAll(s, calls))
    decreases calls
  {
    if calls != [] {
      CallSound(s, calls[0]);
      TableSoundRun(Perform(s, calls[0]), calls[1..]);
    }
  }

  // ----- Names -----

  ghost predicate DistinctNames(sessions: map<Uuid, SessionInfo>) {
    forall d, e :: d != e && Holder(sessions, d) && Holder(sessions, e) ==> sessions[d].name != sessions[e].name
  }

  /** Nobody else that is live and registered stores exactly this name. */
  ghost predicate NameFree(sessions: map<Uuid, SessionInfo>, d: Uuid, name: string) {
    forall e :: e != d && Holder(sessions, e) ==> sessions[e].name != name
  }

  /** The call hands d a session id: all the checks of `register` pass. */
  ghost predicate Granted(s: Server, d: Uuid, authorized: bool) {
    && authorized && d in s.sessions && Trim(s.sessions[d].name) != "" && !NameTaken(s.sessions, d, s.sessions[d].name)
    && Negotiated(s.sessions[d].features, s.supported) != []
  }

  lemma GrantedTable(s: Server, d: Uuid, authorized: bool, id: Uuid)
    requires Granted(s, d, authorized)
    ensures var t := Register(s, d, authorized, id).0;
            && t.sessions.Keys == s.sessions.Keys
            && t.sessions[d] == s.sessions[d].(sessionId := Some(id), state := t.sessions[d].state)
            && (t.sessions[d].state != s.sessions[d].state ==>
                s.sessions[d].state == Authenticated && t.sessions[d].state == Registered)
            && forall e :: e in s.sessions && e != d ==> t.sessions[e] == s.sessions[e]
  {
  }

  /** Registering keeps live names distinct exactly when the session is closed or its stored, possibly
      untrimmed, name is free: the check looks for the trimmed one instead. */
  lemma RegisterDistinctExactly(s: Server, d: Uuid, authorized: bool, id: Uuid)
    requires DistinctNames(s.sessions) && Granted(s, d, authorized)
    ensures DistinctNames(Register(s, d, authorized, id).0.sessions)
       <==> s.sessions[d].state == Closed || NameFree(s.sessions, d, s.sessions[d].name)
  {
    var t := Register(s, d, authorized, id).0.sessions;
    GrantedTable(s, d, authorized, id);
    assert forall e :: e != d ==> Holder(t, e) == Holder(s.sessions, e);
    if s.sessions[d].state != Closed && !NameFree(s.sessions, d, s.sessions[d].name) {
      var e :| e != d && Holder(s.sessions, e) && s.sessions[e].name == s.sessions[d].name;
      assert Holder(t, d) && Holder(t, e);
    }
  }

  /** With trimmed names the check is the right one. */
  lemma TrimmedRegisterDistinct(s: Server, d: Uuid, authorized: bool, id: Uuid)
    requires DistinctNames(s.sessions) && Granted(s, d, authorized) && Trim(s.sessions[d].name) == s.sessions[d].name
    ensures DistinctNames(Register(s, d, authorized, id).0.sessions)
  {
    RegisterDistinctExactly(s, d, authorized, id);
  }

  /** The failing family: a second device with the same untrimmed name is let in. */
  lemma UntrimmedNamesClash(s: Server, d: Uuid, e: Uuid, id: Uuid)
    requires DistinctNames(s.sessions) && d != e && Holder(s.sessions, e)
    requires d in s.sessions && s.sessions[d].state == Authenticated && s.sessions[d].name == s.sessions[e].name
    requires Trim(s.sessions[d].name) != s.sessions[d].name && Trim(s.sessions[d].name) != ""
    requires NameFree(s.sessions, d, Trim(s.sessions[d].name)) && Negotiated(s.sessions[d].features, s.supported) != []
    ensures Register(s, d, true, id).1.Ok? && !DistinctNames(Register(s, d, true, id).0.sessions)
  {
    assert !NameTaken(s.sessions, d, s.sessions[d].name);
    RegisterDistinctExactly(s, d, true, id);
  }

  function GoodHello(d: Uuid, f: Feature): Hello {
    Hello(PROTOCOL_VERSION, d, [CameraController], [f], [])
  }

  /** How a device joins: from discovery to the hello, and then to a registered session. */
  function ArriveCalls(d: Uuid, name: string, f: Feature): seq<Call> {
    [CallDiscover(d, name), CallTransportConnected(d), CallHello(GoodHello(d, f))]
  }

  function EnterCalls(d: Uuid, id: Uuid): seq<Call> {
    [CallAuthenticate(d), CallRegister(d, true, id)]
  }

  function JoinCalls(d: Uuid, name: string, f: Feature, id: Uuid): seq<Call> {
    ArriveCalls(d, name, f) + EnterCalls(d, id)
  }

  function Arrived(name: string, f: Feature): SessionInfo {
    SessionInfo(name, None, [CameraController], [f], [], HelloExchanged)
  }

  function Joined(name: string, f: Feature, id: Uuid): SessionInfo {
    Arrived(name, f).(sessionId := Some(id), state := Registered)
  }

  lemma ArriveHandlers(s: Server, d: Uuid, name: string, f: Feature)
    requires |LiveSessions(s.sessions)| < s.maxSessions
    ensures ExchangeHello(ChangeState(Discover(s, d, name).0, d, TransportConnected).0, GoodHello(d, f)).0
         == s.(sessions := s.sessions[d := Arrived(name, f)])
  {
    var info := SessionInfo(name, None, [], [], [], Discovered);
    assert s.sessions[d := info][d := info.(state := TransportConnected)]
           == s.sessions[d := info.(state := TransportConnected)];
  }

  lemma Arrive(s: Server, d: Uuid, name: string, f: Feature)
    requires |LiveSessions(s.sessions)| < s.maxSessions
    ensures PerformAll(s, ArriveCalls(d, name, f)) == s.(sessions := s.sessions[d := Arrived(name, f)])
  {
    var calls := ArriveCalls(d, name, f);
    PerformThree(s, calls[0], calls[1], calls[2]);
    ArriveHandlers(s, d, name, f);
  }

  lemma EnterHandlers(s: Server, d: Uuid, name: string, f: Feature, id: Uuid)
    requires f in s.supported && Trim(name) != "" && NameFree(s.sessions, d, Trim(name))
    ensures var arrived := s.(sessions := s.sessions[d := Arrived(name, f)]);
            Register(ChangeState(arrived, d, Authenticated).0, d, true, id).0
              == s.(sessions := s.sessions[d := Joined(name, f, id)])
  {
    var arrived := s.(sessions := s.sessions[d := Arrived(name, f)]);
    var auth := ChangeState(arrived, d, Authenticated).0;
    assert forall e :: e != d ==> Holder(auth.sessions, e) == Holder(s.sessions, e);
    assert !NameTaken(auth.sessions, d, name);
    NegotiatedIsFilter([], [], f, s.supported);
    assert Register(auth, d, true, id).0.sessions == s.sessions[d := Joined(name, f, id)];
  }

  lemma Enter(s: Server, d: Uuid, name: string, f: Feature, id: Uuid)
    requires f in s.supported && Trim(name) != "" && NameFree(s.sessions, d, Trim(name))
    ensures PerformAll(s.(sessions := s.sessions[d := Arrived(name, f)]), EnterCalls(d, id))
         == s.(sessions := s.sessions[d := Joined(name, f, id)])
  {
    PerformTwo(s.(sessions := s.sessions[d := Arrived(name, f)]), CallAuthenticate(d), CallRegister(d, true, id));
    EnterHandlers(s, d, name, f, id);
  }

  lemma Join(s: Server, d: Uuid, name: string, f: Feature, id: Uuid)
    requires |LiveSessions(s.sessions)| < s.maxSessions && f in s.supported
    requires Trim(name) != "" && NameFree(s.sessions, d, Trim(name))
    ensures PerformAll(s, JoinCalls(d, name, f, id)) == s.(sessions := s.sessions[d := Joined(name, f, id)])
  {
    Arrive(s, d, name, f);
    Enter(s, d, name, f, id);
    PerformConcat(s, ArriveCalls(d, name, f), EnterCalls(d, id));
  }

  lemma RoomForSecond(d: Uuid, e: Uuid, name: string, f: Feature, id: Uuid)
    requires d != e && Trim(name) != name
    ensures var sessions := map[d := Joined(name, f, id)];
            |LiveSessions(sessions)| == 1 && NameFree(sessions, e, Trim(name))
  {
    assert LiveSessions(map[d := Joined(name, f, id)]) == {d};
  }

  /** A run that gets there: from a fresh server two devices join, in ten calls, under one name that is
      not trimmed, and both end up live, registered and of the same name. */
  lemma UntrimmedClashRun(lease: LeaseConfig, root: real -> real, max: nat, supported: seq<Feature>, f: Feature,
                          d: Uuid, e: Uuid, name: string, id1: Uuid, id2: Uuid)
    requires d != e && max >= 2 && f in supported && Trim(name) != "" && Trim(name) != name
    ensures var t := PerformAll(InitialServer(lease, root, max, supported),
                                JoinCalls(d, name, f, id1) + JoinCalls(e, name, f, id2));
            Holder(t.sessions, d) && Holder(t.sessions, e) && t.sessions[d].name == t.sessions[e].name == name
  {
    var s := InitialServer(lease, root, max, supported);
    assert LiveSessions(s.sessions) == {};
    Join(s, d, name, f, id1);
    var t := s.(sessions := map[d := Joined(name, f, id1)]);
    RoomForSecond(d, e, name, f, id1);
    Join(t, e, name, f, id2);
    PerformConcat(s, JoinCalls(d, name, f, id1), JoinCalls(e, name, f, id2));
  }

  ghost predicate TrimmedNames(sessions: map<Uuid, SessionInfo>) {
    forall d :: d in sessions ==> Trim(sessions[d].name) == sessions[d].name
  }

  /** Nobody becomes a live holder, and those that stay keep their names. */
  ghost predicate NoNewHolder(before: map<Uuid, SessionInfo>, after: map<Uuid, SessionInfo>) {
    forall d :: Holder(after, d) ==> Holder(before, d) && after[d].name == before[d].name
  }

  lemma NoNewHolderDistinct(before: map<Uuid, SessionInfo>, after: map<Uuid, SessionInfo>)
    requires DistinctNames(before) && NoNewHolder(before, after)
    ensures DistinctNames(after)
  {
    forall d, e | d != e && Holder(after, d) && Holder(after, e) ensures after[d].name != after[e].name {
      assert Holder(before, d) && Holder(before, e);
    }
  }

  lemma HolderBefore(s: Server, call: Call, d: Uuid)
    requires !call.CallRegister? && Holder(SessionsAfter(s, call), d)
    ensures Holder(s.sessions, d) && SessionsAfter(s, call)[d].name == s.sessions[d].name
  {
  }

  lemma PlainCallHolders(s: Server, call: Call)
    requires !call.CallRegister?
    ensures NoNewHolder(s.sessions, SessionsAfter(s, call))
  {
    forall d | Holder(SessionsAfter(s, call), d)
      ensures Holder(s.sessions, d) && SessionsAfter(s, call)[d].name == s.sessions[d].name
    {
      HolderBefore(s, call, d);
    }
  }

  lemma RegisterRefused(s: Server, d: Uuid, authorized: bool, id: Uuid)
    requires !Granted(s, d, authorized)
    ensures Register(s, d, authorized, id).0 == s
  {
  }

  /** A registration that is granted is of a closed session or of a free stored name. */
  ghost predicate NameCall(s: Server, call: Call) {
    call.CallRegister? && Granted(s, call.device, call.authorized) ==>
      s.sessions[call.device].state == Closed || NameFree(s.sessions, call.device, s.sessions[call.device].name)
  }

  lemma CallDistinctExactly(s: Server, call: Call)
    requires DistinctNames(s.sessions)
    ensures DistinctNames(SessionsAfter(s, call)) <==> NameCall(s, call)
  {
    if call.CallRegister? {
      if Granted(s, call.device, call.authorized) {
        RegisterDistinctExactly(s, call.device, call.authorized, call.sessionId);
      }
      else { RegisterRefused(s, call.device, call.authorized, call.sessionId); }
    } else {
      PlainCallHolders(s, call);
      NoNewHolderDistinct(s.sessions, SessionsAfter(s, call));
    }
  }

  ghost predicate NameRun(s: Server, calls: seq<Call>)
    decreases calls
  {
    calls != [] ==> NameCall(s, calls[0]) && NameRun(Perform(s, calls[0]), calls[1..])
  }

  ghost predicate DistinctThroughout(s: Server, calls: seq<Call>)
    decreases calls
  {
    DistinctNames(s.sessions) && (calls != [] ==> DistinctThroughout(Perform(s, calls[0]), calls[1..]))
  }

  /** Live names stay distinct throughout a run exactly when every registration it grants is of a closed
      session or of a stored name that is free. */
  lemma {:induction false} DistinctRunExactly(s: Server, calls: seq<Call>)
    requires DistinctNames(s.sessions)
    ensures DistinctThroughout(s, calls) <==> NameRun(s, calls)
    decreases calls
  {
    if calls != [] {
      PerformParts(s, calls[0]);
      CallDistinctExactly(s, calls[0]);
      if NameCall(s, calls[0]) { DistinctRunExactly(Perform(s, calls[0]), calls[1..]); }
    }
  }

  ghost predicate TrimmedCall(call: Call) {
    call.CallDiscover? ==> Trim(call.name) == call.name
  }

  lemma CallDistinct(s: Server, call: Call)
    requires DistinctNames(s.sessions) && TrimmedNames(s.sessions)
    ensures DistinctNames(SessionsAfter(s, call))
  {
    CallDistinctExactly(s, call);
    if call.CallRegister? && Granted(s, call.device, call.authorized) {
      TrimmedRegisterDistinct(s, call.device, call.authorized, call.sessionId);
      RegisterDistinctExactly(s, call.device, call.authorized, call.sessionId);
    }
  }

  /** Names come from discoveries alone. */
  lemma NameAfter(s: Server, call: Call, d: Uuid)
    requires d in SessionsAfter(s, call)
    ensures (call.CallDiscover? && call.device == d && SessionsAfter(s, call)[d].name == call.name)
            || (d in s.sessions && SessionsAfter(s, call)[d].name == s.sessions[d].name)
  {
  }

  lemma CallTrimmed(s: Server, call: Call)
    requires TrimmedNames(s.sessions) && TrimmedCall(call)
    ensures TrimmedNames(SessionsAfter(s, call))
  {
    forall d | d in SessionsAfter(s, call)
      ensures Trim(SessionsAfter(s, call)[d].name) == SessionsAfter(s, call)[d].name
    {
      NameAfter(s, call, d);
    }
  }

  /** Live sessions that hold a session id have pairwise distinct names in every run whose devices
      are discovered under trimmed names. */
  lemma {:induction false} DistinctNamesRun(s: Server, calls: seq<Call>)
    requires DistinctNames(s.sessions) && TrimmedNames(s.sessions)
    requires forall i :: 0 <= i < |calls| ==> TrimmedCall(calls[i])
    ensures DistinctNames(PerformAll(s, calls).sessions)
    decreases calls
  {
    if calls != [] {
      PerformParts(s, calls[0]);
      CallDistinct(s, calls[0]);
      CallTrimmed(s, calls[0]);
      DistinctNamesRun(Perform(s, calls[0]), calls[1..]);
    }
  }

  // ----- Capacity -----

  /** A discovery keeps the live sessions within the limit exactly when it is not of a Closed device
      at a full table: for a device already in the table the limit is not checked. */
  lemma DiscoverWithinExactly(s: Server, d: Uuid, name: string)
    requires |LiveSessions(s.sessions)| <= s.maxSessions && Discover(s, d, name).1.Ok?
    ensures |LiveSessions(Discover(s, d, name).0.sessions)| <= s.maxSessions
       <==> !(d in s.sessions && s.sessions[d].state == Closed && |LiveSessions(s.sessions)| == s.maxSessions)
  {
    assert LiveSessions(Discover(s, d, name).0.sessions) == LiveSessions(s.sessions) + {d};
  }

  /** Not the rediscovery of a Closed device at a full table. */
  ghost predicate WithinCall(s: Server, call: Call) {
    call.CallDiscover? ==>
      !(&& call.device in s.sessions && s.sessions[call.device].state == Closed
        && |LiveSessions(s.sessions)| == s.maxSessions)
  }

  lemma SubsetCount(a: set<Uuid>, b: set<Uuid>)
    requires a <= b
    ensures |a| <= |b|
  {
    assert b == a + (b - a);
  }

  lemma LiveAfter(s: Server, call: Call, d: Uuid)
    requires !call.CallDiscover? && d in SessionsAfter(s, call) && SessionsAfter(s, call)[d].state != Closed
    ensures d in LiveSessions(s.sessions)
  {
  }

  lemma CallWithin(s: Server, call: Call)
    requires |LiveSessions(s.sessions)| <= s.maxSessions && WithinCall(s, call)
    ensures |LiveSessions(SessionsAfter(s, call))| <= s.maxSessions
  {
    if call.CallDiscover? {
      if Discover(s, call.device, call.name).1.Ok? { DiscoverWithinExactly(s, call.device, call.name); }
    } else {
      forall d | d in LiveSessions(SessionsAfter(s, call))
        ensures d in LiveSessions(s.sessions)
      {
        LiveAfter(s, call, d);
      }
      SubsetCount(LiveSessions(SessionsAfter(s, call)), LiveSessions(s.sessions));
    }
  }

  lemma CallWithinExactly(s: Server, call: Call)
    requires |LiveSessions(s.sessions)| <= s.maxSessions
    ensures |LiveSessions(SessionsAfter(s, call))| <= s.maxSessions <==> WithinCall(s, call)
  {
    if WithinCall(s, call) { CallWithin(s, call); } else { DiscoverWithinExactly(s, call.device, call.name); }
  }

  ghost predicate WithinRun(s: Server, calls: seq<Call>)
    decreases calls
  {
    calls != [] ==> WithinCall(s, calls[0]) && WithinRun(Perform(s, calls[0]), calls[1..])
  }

  lemma {:induction false} CapacityRun(s: Server, calls: seq<Call>)
    requires |LiveSessions(s.sessions)| <= s.maxSessions && WithinRun(s, calls)
    ensures |LiveSessions(PerformAll(s, calls).sessions)| <= s.maxSessions
    decreases calls
  {
    if calls != [] {
      PerformParts(s, calls[0]);
      CallWithin(s, calls[0]);
      CapacityRun(Perform(s, calls[0]), calls[1..]);
    }
  }

  /** Within the limit at the start and after every call of the run. */
  ghost predicate WithinThroughout(s: Server, calls: seq<Call>)
    decreases calls
  {
    |LiveSessions(s.sessions)| <= s.maxSessions && (calls != [] ==> WithinThroughout(Perform(s, calls[0]), calls[1..]))
  }

  /** The limit holds throughout a run exactly when no call rediscovers a Closed device at a full table. */
  lemma {:induction false} CapacityRunExactly(s: Server, calls: seq<Call>)
    requires |LiveSessions(s.sessions)| <= s.maxSessions
    ensures WithinThroughout(s, calls) <==> WithinRun(s, calls)
    decreases calls
  {
    if calls != [] {
      PerformParts(s, calls[0]);
      CallWithinExactly(s, calls[0]);
      if WithinCall(s, calls[0]) { CapacityRunExactly(Perform(s, calls[0]), calls[1..]); }
    }
  }

  function VisitCalls(a: Uuid, name: string): seq<Call> {
    [CallDiscover(a, name), CallTransportConnected(a), CallClose(a, 0)]
  }

  lemma Visit(s: Server, a: Uuid, name: string)
    requires |LiveSessions(s.sessions)| < s.maxSessions
    ensures var t := PerformAll(s, VisitCalls(a, name));
            t.sessions == s.sessions[a := SessionInfo(name, None, [], [], [], Closed)] && t.maxSessions == s.maxSessions
  {
    PerformThree(s, CallDiscover(a, name), CallTransportConnected(a), CallClose(a, 0));
    var info := SessionInfo(name, None, [], [], [], Discovered);
    assert s.sessions[a := info][a := info.(state := TransportConnected)][a := info.(state := Closed)]
           == s.sessions[a := info.(state := Closed)];
  }

  /** The limit is exceeded by discovering a, closing it, discovering b, and rediscovering a. */
  lemma RediscoveryExceeds(lease: LeaseConfig, root: real -> real, a: Uuid, b: Uuid, name: string)
    requires a != b
    ensures var t := PerformAll(InitialServer(lease, root, 1, []),
                                VisitCalls(a, name) + [CallDiscover(b, name), CallDiscover(a, name)]);
            |LiveSessions(t.sessions)| == 2 && t.maxSessions == 1
  {
    var s := InitialServer(lease, root, 1, []);
    assert LiveSessions(s.sessions) == {};
    Visit(s, a, name);
    var visited := PerformAll(s, VisitCalls(a, name));
    assert LiveSessions(visited.sessions) == {};
    PerformConcat(s, VisitCalls(a, name), [CallDiscover(b, name), CallDiscover(a, name)]);
    PerformTwo(visited, CallDiscover(b, name), CallDiscover(a, name));
    assert LiveSessions(Discover(Discover(visited, b, name).0, a, name).0.sessions) == {a, b};
  }

  // ----- Signalling -----

  /** Both ends are in the table and Active. */
  predicate MaySignal(s: Server, m: Signal) {
    && m.fromDevice in s.sessions && s.sessions[m.fromDevice].state == SessionState.Active
    && m.toDevice in s.sessions && s.sessions[m.toDevice].state == SessionState.Active
  }

  /** An unknown sender is reported before an unknown recipient. */
  function PushRefusal(s: Server, m: Signal): ServerError {
    if m.fromDevice !in s.sessions then SessionNotFound(m.fromDevice)
    else if m.toDevice !in s.sessions then SessionNotFound(m.toDevice)
    else SignalingInactive
  }

  /** A push succeeds exactly between two Active sessions; the message then waits last in its recipient's
      queue, and no other queue is touched. */
  lemma PushExactly(s: Server, m: Signal)
    ensures var (t, r) := PushSignal(s, m);
            && (r.Ok? <==> MaySignal(s, m))
            && (r.Ok? ==> QueueOf(t.signaling, m.toDevice) == QueueOf(s.signaling, m.toDevice) + [m])
            && (r.Ok? ==> forall d :: d != m.toDevice ==> QueueOf(t.signaling, d) == QueueOf(s.signaling, d))
            && (r.Ok? ==> t == s.(signaling := t.signaling))
            && (r.Err? ==> t == s)
            && (!MaySignal(s, m) ==> r == Err(PushRefusal(s, m)))
  {
  }

  /** Draining asks only that the session exists, and empties that one queue. */
  lemma DrainExactly(s: Server, d: Uuid)
    ensures var (t, r) := DrainSignals(s, d);
            if d !in s.sessions then t == s && r == Err(SessionNotFound(d))
            else
              && r == Ok(QueueOf(s.signaling, d)) && QueueOf(t.signaling, d) == []
              && (forall e :: e != d ==> QueueOf(t.signaling, e) == QueueOf(s.signaling, e))
              && t == s.(signaling := t.signaling)
  {
  }

  /** What a call adds to the messages accepted for d: a push to it between Active sessions. */
  function AcceptedBy(s: Server, call: Call, d: Uuid): seq<Signal> {
    if call.CallPush? && call.signal.toDevice == d && MaySignal(s, call.signal) then [call.signal] else []
  }

  /** What a call hands out to d, which must be in the table: all that waits for it. */
  function DrainedBy(s: Server, call: Call, d: Uuid): seq<Signal> {
    if call == CallDrain(d) && d in s.sessions then QueueOf(s.signaling, d) else []
  }

  ghost function Accepted(s: Server, calls: seq<Call>, d: Uuid): seq<Signal>
    decreases calls
  {
    if calls == [] then [] else AcceptedBy(s, calls[0], d) + Accepted(Perform(s, calls[0]), calls[1..], d)
  }

  ghost function Drained(s: Server, calls: seq<Call>, d: Uuid): seq<Signal>
    decreases calls
  {
    if calls == [] then [] else DrainedBy(s, calls[0], d) + Drained(Perform(s, calls[0]), calls[1..], d)
  }

  lemma CallConserves(s: Server, call: Call, d: Uuid)
    ensures QueueOf(s.signaling, d) + AcceptedBy(s, call, d)
            == DrainedBy(s, call, d) + QueueOf(SignalingAfter(s, call), d)
  {
  }

  lemma ConserveNext(q: seq<Signal>, a: seq<Signal>, a': seq<Signal>, d: seq<Signal>, d': seq<Signal>, q1: seq<Signal>,
                     q2: seq<Signal>)
    requires q + a == d + q1 && q1 + a' == d' + q2
    ensures q + (a + a') == (d + d') + q2
  {
    assert q + (a + a') == (q + a) + a';
    assert (d + q1) + a' == d + (q1 + a');
    assert d + (d' + q2) == (d + d') + q2;
  }

  /** First in, first out and nothing lost: over any run, what d was handed followed by what is still
      queued is what was queued followed by what was accepted for d, in order. */
  lemma {:induction false} SignalsConserved(s: Server, calls: seq<Call>, d: Uuid)
    ensures QueueOf(s.signaling, d) + Accepted(s, calls, d)
            == Drained(s, calls, d) + QueueOf(PerformAll(s, calls).signaling, d)
    decreases calls
  {
    if calls == [] {
      assert QueueOf(s.signaling, d) + [] == [] + QueueOf(s.signaling, d);
    } else {
      var t := Perform(s, calls[0]);
      PerformParts(s, calls[0]);
      CallConserves(s, calls[0], d);
      SignalsConserved(t, calls[1..], d);
      ConserveNext(QueueOf(s.signaling, d), AcceptedBy(s, calls[0], d), Accepted(t, calls[1..], d),
                   DrainedBy(s, calls[0], d), Drained(t, calls[1..], d), QueueOf(t.signaling, d),
                   QueueOf(PerformAll(s, calls).signaling, d));
    }
  }
}
