/** Who is let in, and whose messages are carried, said of the session table field by field. */
module Admission {
  import opened Model
  import opened ServerSpec
  import opened Sessions

  // ----- Versions and names -----

  /** A client is accepted exactly when it speaks the server's major version and no newer minor one. */
  lemma NegotiateExactly(server: ProtocolVersion, client: ProtocolVersion)
    ensures var r := NegotiateVersion(server, client);
            && (r.Ok? <==> client.major == server.major && client.minor <= server.minor)
            && (r.Ok? ==> r.value == client)
            && (r == Err(UnsupportedMajor) <==> client.major != server.major)
            && (r == Err(ClientTooNew) <==> client.major == server.major && client.minor > server.minor)
  {
  }

  /** The code points that trimming removes. */
  const BLANKS: set<int> := {9, 10, 11, 12, 13, 32, 133, 160, 5760, 8192, 8193, 8194, 8195, 8196, 8197, 8198, 8199,
                             8200, 8201, 8202, 8232, 8233, 8239, 8287, 12288}

  predicate Blank(s: string) {
    forall i :: 0 <= i < |s| ==> s[i] as int in BLANKS
  }

  lemma WhitespaceIsBlank(c: char)
    ensures IsWhitespace(c) <==> c as int in BLANKS
  {
  }

  lemma {:induction false} TrimStartSplits(s: string)
    ensures exists pre :: s == pre + TrimStart(s) && Blank(pre)
    decreases s
  {
    if s != [] && IsWhitespace(s[0]) {
      TrimStartSplits(s[1..]);
      var pre :| s[1..] == pre + TrimStart(s) && Blank(pre);
      WhitespaceIsBlank(s[0]);
      assert s == ([s[0]] + pre) + TrimStart(s);
      assert Blank([s[0]] + pre);
    } else {
      assert s == "" + TrimStart(s) && Blank("");
    }
  }

  lemma {:induction false} TrimEndSplits(s: string)
    ensures exists post :: s == TrimEnd(s) + post && Blank(post)
    decreases s
  {
    if s != [] && IsWhitespace(s[|s| - 1]) {
      var last := s[|s| - 1];
      TrimEndSplits(s[..|s| - 1]);
      var post :| s[..|s| - 1] == TrimEnd(s) + post && Blank(post);
      WhitespaceIsBlank(last);
      assert s == TrimEnd(s) + (post + [last]);
      assert Blank(post + [last]);
    } else {
      assert s == TrimEnd(s) + "" && Blank("");
    }
  }

  /** Trimming takes blanks off both ends, all of them and nothing else. */
  lemma TrimExactly(s: string)
    ensures exists pre, post :: s == pre + Trim(s) + post && Blank(pre) && Blank(post)
    ensures Trim(s) != "" ==> Trim(s)[0] as int !in BLANKS && Trim(s)[|Trim(s)| - 1] as int !in BLANKS
  {
    TrimStartSplits(s);
    TrimEndSplits(TrimStart(s));
    var pre :| s == pre + TrimStart(s) && Blank(pre);
    var post :| TrimStart(s) == Trim(s) + post && Blank(post);
    assert s == pre + Trim(s) + post;
    TrimmedExactly(Trim(s));
    TrimmedExactly(s);
    if Trim(s) != "" {
      WhitespaceIsBlank(Trim(s)[0]);
      WhitespaceIsBlank(Trim(s)[|Trim(s)| - 1]);
    }
  }

  // ----- The steps of a session -----

  /** One step up, or from any connected state to Closed. */
  predicate Follows(from: SessionState, to: SessionState) {
    if to == Closed then 0 < Rank(from) < 7 else Rank(to) == Rank(from) + 1
  }

  lemma CanIsFollows(from: SessionState, to: SessionState)
    ensures CanTransition(from, to) <==> Follows(from, to)
  {
    TransitionsExactly(from, to);
  }

  /** The session of d goes to `next` if that is a step from where it is, and is otherwise left alone. */
  predicate Steps(before: map<Uuid, SessionInfo>, after: map<Uuid, SessionInfo>, d: Uuid, next: SessionState,
                  r: Answer)
  {
    if d !in before then after == before && r == Err(SessionNotFound(d))
    else if Follows(before[d].state, next) then after == before[d := before[d].(state := next)] && r == Ok(())
    else after == before && r == Err(InvalidTransition(before[d].state, next))
  }

  lemma ChangeExactly(s: Server, d: Uuid, next: SessionState)
    ensures var (t, r) := ChangeState(s, d, next);
            Steps(s.sessions, t.sessions, d, next, r) && t == s.(sessions := t.sessions)
  {
    if d in s.sessions { CanIsFollows(s.sessions[d].state, next); }
  }

  /** A device is taken in unless it is unknown and as many live sessions as allowed are there; it starts
      anew, whatever it was before. */
  lemma DiscoverExactly(s: Server, d: Uuid, name: string)
    ensures var (t, r) := Discover(s, d, name);
            var live := set e | e in s.sessions && s.sessions[e].state != Closed;
            if d !in s.sessions && |live| >= s.maxSessions then t == s && r == Err(RegisterRejected(CapacityExceeded))
            else
              && r == Ok(()) && t == s.(sessions := t.sessions)
              && t.sessions == s.sessions[d := SessionInfo(name, None, [], [], [], Discovered)]
  {
    assert LiveSessions(s.sessions) == set e | e in s.sessions && s.sessions[e].state != Closed;
  }

  /** Why a hello is refused before its session is looked up; the first reason counts. */
  function HelloRefusal(h: Hello): Option<ServerError> {
    if h.version.major != 1 then Some(VersionRefused(UnsupportedMajor))
    else if h.version.minor > 3 then Some(VersionRefused(ClientTooNew))
    else if h.features == [] then Some(RegisterRejected(NoCommonFeature))
    else if h.roles == [] || (MotionSource in h.roles && h.advertised == []) then Some(RegisterRejected(RoleDenied))
    else None
  }

  /** What a hello says is kept even when it comes out of turn. */
  lemma HelloExactly(s: Server, h: Hello)
    ensures var (t, r) := ExchangeHello(s, h);
            if HelloRefusal(h).Some? then t == s && r == Err(HelloRefusal(h).value)
            else if h.device !in s.sessions then t == s && r == Err(SessionNotFound(h.device))
            else
              var said := s.sessions[h.device].(roles := h.roles, features := h.features, advertised := h.advertised);
              && Steps(s.sessions[h.device := said], t.sessions, h.device, HelloExchanged, r)
              && t == s.(sessions := t.sessions)
  {
    NegotiateExactly(PROTOCOL_VERSION, h.version);
    if HelloRefusal(h).None? && h.device in s.sessions {
      CanIsFollows(s.sessions[h.device].state, HelloExchanged);
    }
  }

  /** Another live session that has been given an id bears this name. */
  predicate NameBorne(sessions: map<Uuid, SessionInfo>, d: Uuid, name: string) {
    exists e :: e in sessions && e != d && sessions[e].state != Closed && sessions[e].sessionId != None
      && sessions[e].name == name
  }

  /** Why a registration is refused before the step; the first reason counts. */
  function RegisterRefusal(s: Server, d: Uuid, authorized: bool): Option<ServerError> {
    if !authorized then Some(RegisterRejected(AuthFailed))
    else if d !in s.sessions then Some(SessionNotFound(d))
    else if Blank(s.sessions[d].name) || NameBorne(s.sessions, d, Trim(s.sessions[d].name))
    then Some(RegisterRejected(RoleDenied))
    else if forall f :: f in s.sessions[d].features ==> f !in s.supported then Some(RegisterRejected(NoCommonFeature))
    else None
  }

  lemma BlankIsTrimmedAway(s: string)
    ensures Trim(s) == "" <==> Blank(s)
  {
    TrimExactly(s);
    var pre, post :| s == pre + Trim(s) + post && Blank(pre) && Blank(post);
    if Trim(s) != "" {
      assert s[|pre|] == Trim(s)[0];
    } else {
      assert s == pre + post;
    }
  }

  lemma BorneIsTaken(sessions: map<Uuid, SessionInfo>, d: Uuid, name: string)
    ensures NameTaken(sessions, d, name) <==> NameBorne(sessions, d, Trim(name))
  {
    if NameBorne(sessions, d, Trim(name)) {
      var e :| e in sessions && e != d && sessions[e].state != Closed && sessions[e].sessionId != None
        && sessions[e].name == Trim(name);
      assert Holder(sessions, e);
    }
  }

  lemma NoneInCommon(features: seq<Feature>, supported: seq<Feature>)
    ensures Negotiated(features, supported) == [] <==> forall f :: f in features ==> f !in supported
  {
    if Negotiated(features, supported) != [] { assert Negotiated(features, supported)[0] in features; }
  }

  /** The session id is kept even when the registration comes out of turn. */
  lemma RegisterExactly(s: Server, d: Uuid, authorized: bool, id: Uuid)
    ensures var (t, r) := Register(s, d, authorized, id);
            if RegisterRefusal(s, d, authorized).Some?
            then t == s && r == Err(RegisterRefusal(s, d, authorized).value)
            else
              var given := s.sessions[d].(sessionId := Some(id));
              Steps(s.sessions[d := given], t.sessions, d, Registered, r) && t == s.(sessions := t.sessions)
  {
    if d in s.sessions {
      BlankIsTrimmedAway(s.sessions[d].name);
      BorneIsTaken(s.sessions, d, s.sessions[d].name);
      NoneInCommon(s.sessions[d].features, s.supported);
      CanIsFollows(s.sessions[d].state, Registered);
    }
  }

  // ----- Sessions over runs -----

  /** The session a call is about and the state it asks for, unless it is refused before it is tried. */
  function Asks(s: Server, call: Call): Option<(Uuid, SessionState)> {
    match call
    case CallTransportConnected(d) => Some((d, TransportConnected))
    case CallHello(h) => if HelloRefusal(h).None? then Some((h.device, HelloExchanged)) else None
    case CallAuthenticate(d) => Some((d, Authenticated))
    case CallRegister(d, ok, _) => if RegisterRefusal(s, d, ok).None? then Some((d, Registered)) else None
    case CallSceneSynced(d) => Some((d, SceneSynced))
    case CallActivate(d) => Some((d, SessionState.Active))
    case CallClose(d, _) => Some((d, Closed))
    case _ => None
  }

  /** The state of d after a call that is not its discovery: the one asked for, when that follows. */
  function StateNext(s: Server, call: Call, d: Uuid): SessionState
    requires d in s.sessions
  {
    var asked := Asks(s, call);
    if asked.Some? && asked.value.0 == d && Follows(s.sessions[d].state, asked.value.1) then asked.value.1
    else s.sessions[d].state
  }

  lemma HelloStates(s: Server, call: Call, d: Uuid)
    requires d in s.sessions && call.CallHello?
    ensures d in SessionsAfter(s, call) && SessionsAfter(s, call)[d].state == StateNext(s, call, d)
  {
    HelloExactly(s, call.hello);
  }

  lemma RegisterStates(s: Server, call: Call, d: Uuid)
    requires d in s.sessions && call.CallRegister?
    ensures d in SessionsAfter(s, call) && SessionsAfter(s, call)[d].state == StateNext(s, call, d)
  {
    RegisterExactly(s, call.device, call.authorized, call.sessionId);
  }

  lemma PlainStates(s: Server, call: Call, d: Uuid)
    requires d in s.sessions && !call.CallHello? && !call.CallRegister? && !call.CallDiscover?
    ensures d in SessionsAfter(s, call) && SessionsAfter(s, call)[d].state == StateNext(s, call, d)
  {
    var asked := Asks(s, call);
    if asked.Some? { ChangeExactly(s, asked.value.0, asked.value.1); }
  }

  /** Where every session stands after any call. */
  lemma StatesExactly(s: Server, call: Call, d: Uuid)
    requires d in s.sessions
    ensures d in Perform(s, call).sessions
    ensures Perform(s, call).sessions[d].state ==
            if call.CallDiscover? && call.device == d then Discovered else StateNext(s, call, d)
  {
    PerformParts(s, call);
    if call.CallHello? { HelloStates(s, call, d); }
    else if call.CallRegister? { RegisterStates(s, call, d); }
    else if call.CallDiscover? { DiscoverExactly(s, call.device, call.name); }
    else { PlainStates(s, call, d); }
  }

  /** Devices come into the table by being discovered, and connect and disconnect as they are activated and
      closed, whether or not the session's step is permitted. */
  lemma PresenceExactly(s: Server, call: Call, d: Uuid)
    ensures d in Perform(s, call).sessions <==>
            d in s.sessions || (call.CallDiscover? && call.device == d && Discover(s, d, call.name).1.Ok?)
    ensures d in Perform(s, call).runtime.connected <==>
            (d in s.runtime.connected && !(call.CallClose? && call.device == d)) || call == CallActivate(d)
  {
    PerformParts(s, call);
    ConnectedAfter(s, call);
    if d !in s.sessions { Newcomer(s, call, d); }
    else { StatesExactly(s, call, d); }
  }

  lemma Newcomer(s: Server, call: Call, d: Uuid)
    requires d !in s.sessions
    ensures d in SessionsAfter(s, call) <==>
            call.CallDiscover? && call.device == d && Discover(s, d, call.name).1.Ok?
  {
    if call.CallHello? { HelloExactly(s, call.hello); }
    else if call.CallRegister? { RegisterExactly(s, call.device, call.authorized, call.sessionId); }
  }
}
