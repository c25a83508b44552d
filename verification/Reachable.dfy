/** The run theorems put together for every state a server reaches from its start. */
module Reachable {
  import opened Model
  import opened RuntimeSpec
  import opened Ownership
  import opened Attributes
  import opened Batches
  import opened Container
  import opened ServerSpec
  import opened ServerLog
  import opened RecordingLog
  import opened Sessions
  import opened Requests
  import opened Contacts

  /** Fresh ids alone give: sound sessions, an unbroken mode log, and a mapping log that replays to
      the Active mappings. */
  lemma ReachableServer(lease: LeaseConfig, root: real -> real, max: nat, supported: seq<Feature>, calls: seq<Call>)
    requires FreshCalls({}, calls)
    ensures var s := InitialServer(lease, root, max, supported);
            var t := PerformAll(s, calls);
            && TableSound(t) && ModeLogged(t)
            && (t.recording.Some? ==>
                Agrees(Replay(t.recording.value.markers), t.runtime.mappings, LostAfterAll(s, {}, calls)))
  {
    var s := InitialServer(lease, root, max, supported);
    TableSoundRun(s, calls);
    ModeChain(s, calls);
    ReplayAgrees(s, calls, {}, {});
  }

  /** The codecs give back what a stop would write, and its blobs fit their headers. */
  predicate Written(cs: Codecs, t: Server, now: nat)
    requires t.recording.Some?
  {
    var w := StopRecording(t, now, true).1.value;
    AllLawful(cs, w) && Fits(cs, w)
  }

  /** The file that stopping a reachable server's recording writes: it reads back with the recorded
      frames and with a log that begins with the start marker, replays to the mappings Active at the
      stop and the stale ids, and is an unbroken chain exactly when the mode was still Recording. */
  lemma ReachableRecording(lease: LeaseConfig, root: real -> real, max: nat, supported: seq<Feature>, calls: seq<Call>,
                           cs: Codecs, now: nat)
    requires FreshCalls({}, calls)
    requires var t := PerformAll(InitialServer(lease, root, max, supported), calls);
             t.recording.Some? && Written(cs, t, now)
    ensures var s := InitialServer(lease, root, max, supported);
            var t := PerformAll(s, calls);
            var file := ReadRecording(cs, FileOf(cs, StopRecording(t, now, true).1.value));
            && file.Ok? && file.value.frames == t.recording.value.frames
            && file.value.manifest.frameCount == |file.value.frames|
            && Started(file.value.markers)
            && Agrees(Replay(file.value.markers), StopRecording(t, now, true).0.runtime.mappings,
                      LostAfterAll(s, {}, calls))
            && (Unbroken(file.value.markers) <==> t.runtime.mode == Recording)
  {
    var s := InitialServer(lease, root, max, supported);
    var t := PerformAll(s, calls);
    LogOkRun(s, calls, {}, {});
    WriterOkRun(s, calls);
    ModeChain(s, calls);
    StoppedFileTellsTheTruth(cs, t, now, UsedAll({}, calls), LostAfterAll(s, {}, calls));
    StopContinuesExactly(t, now);
  }

  /** Updates that pick free targets give exclusive ownership in every reachable server state. */
  lemma ReachableExclusive(lease: LeaseConfig, root: real -> real, max: nat, supported: seq<Feature>, calls: seq<Call>)
    requires var s := InitialServer(lease, root, max, supported);
             GuardedRun(s.runtime, AllRuntimeOps(s, calls))
    ensures Exclusive(PerformAll(InitialServer(lease, root, max, supported), calls).runtime.mappings)
  {
    var s := InitialServer(lease, root, max, supported);
    ServerRunIsRuntimeRun(s, calls);
    ExclusiveRun(s.runtime, AllRuntimeOps(s, calls));
  }

  /** So in every such state batches of different devices may be interleaved at will. */
  lemma ReachableInterleaving(lease: LeaseConfig, root: real -> real, max: nat, supported: seq<Feature>,
                              calls: seq<Call>, xs: seq<Batch>, ys: seq<Batch>)
    requires var s := InitialServer(lease, root, max, supported);
             GuardedRun(s.runtime, AllRuntimeOps(s, calls))
    requires SameOrders(xs, ys)
    ensures SameEffect(PerformAll(InitialServer(lease, root, max, supported), calls).runtime, xs, ys)
  {
    ReachableExclusive(lease, root, max, supported, calls);
    var t := PerformAll(InitialServer(lease, root, max, supported), calls);
    ExclusiveApart(t.runtime.mappings);
    InterleavingIndependence(t.runtime, xs, ys);
  }

  /** Well-typed loads give a well-typed runtime, and batches free of lookup and mask errors, in
      every reachable server state. */
  lemma ReachableErrorFree(lease: LeaseConfig, root: real -> real, max: nat, supported: seq<Feature>, calls: seq<Call>,
                           d: Uuid, us: seq<AttributeUpdate>, now: nat)
    requires var s := InitialServer(lease, root, max, supported);
             GoodLoads(s.runtime, AllRuntimeOps(s, calls))
    ensures var t := PerformAll(InitialServer(lease, root, max, supported), calls);
            Typed(t.runtime)
              && (ApplyUpdates(t.runtime, d, us, now).1.Err? ==>
                  SourceError(ApplyUpdates(t.runtime, d, us, now).1.error))
  {
    var s := InitialServer(lease, root, max, supported);
    ServerRunIsRuntimeRun(s, calls);
    TypedRun(s.runtime, AllRuntimeOps(s, calls));
    ErrorFreedom(s.runtime, AllRuntimeOps(s, calls), d, us, now);
  }

  /** Names and capacity over reachable states, under the provisos of their exact conditions. */
  lemma ReachableSessions(lease: LeaseConfig, root: real -> real, max: nat, supported: seq<Feature>, calls: seq<Call>)
    requires forall i :: 0 <= i < |calls| ==> TrimmedCall(calls[i])
    requires WithinRun(InitialServer(lease, root, max, supported), calls)
    ensures var t := PerformAll(InitialServer(lease, root, max, supported), calls);
            DistinctNames(t.sessions) && |LiveSessions(t.sessions)| <= max
  {
    var s := InitialServer(lease, root, max, supported);
    assert LiveSessions(s.sessions) == {};
    DistinctNamesRun(s, calls);
    CapacityRun(s, calls);
    LimitsKeptRun(s, calls);
  }

  lemma {:induction false} LimitsKeptRun(s: Server, calls: seq<Call>)
    ensures PerformAll(s, calls).maxSessions == s.maxSessions
    decreases calls
  {
    if calls != [] {
      PerformParts(s, calls[0]);
      LimitsKeptRun(Perform(s, calls[0]), calls[1..]);
    }
  }

  /** Mode, active scene, and connected devices of every state a runtime reaches, from the calls
      alone: it starts in Idle, with no scene and nobody connected. */
  lemma ReachableHistory(lease: LeaseConfig, root: real -> real, ops: seq<Op>, d: Uuid)
    ensures var s := Run(Initial(lease, root), ops);
            && s.mode == ModeAfter(Idle, ops)
            && s.activeScene == ActiveAfter(None, {}, ops)
            && (d in s.connected <==> Present(false, d, ops))
            && s.lease == lease
  {
    var s := Initial(lease, root);
    assert s.scenes.Keys == {};
    ModeRun(s, ops);
    ActiveSceneRun(s, ops);
    ConnectedRun(s, ops, d);
    LeaseKeptRun(s, ops);
  }

  lemma {:induction false} LeaseKeptRun(s: Runtime, ops: seq<Op>)
    ensures Run(s, ops).lease == s.lease
    decreases ops
  {
    if ops != [] {
      StepKeepsConfig(s, ops[0]);
      LeaseKeptRun(Step(s, ops[0]), ops[1..]);
    }
  }
}
