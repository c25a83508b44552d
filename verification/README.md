# MotionStage, verified

A Dafny model of the three parts of MotionStage that share one state, with proofs of what they
promise: the mapping, lease and transform runtime of `motionstage-core`; the session, signalling and
recording state machine of `motionstage-server`; and the CMTRK1/CMTRK2 container of
`motionstage-recording`.

`dafny verify dfyconfig.toml` checks the whole project.

## How it is laid out

| file | content |
|---|---|
| `Model.dfy` | the value and entity types |
| `Transform.dfy`, `Composition.dfy` | masked deltas and relative composition, and the value every update leaves |
| `Algebra.dfy`, `Quaternions.dfy`, `Rebasing.dfy` | the associativity that re-basing needs; when normalised products have it; the law type by type |
| `Filters.dfy` | the filter chain, what each filter does, compaction, and Clamp as an invariant |
| `RuntimeSpec.dfy`, `RuntimeCore.dfy` | the runtime as functions on states, and as the object that changes in place |
| `Requests.dfy`, `Routing.dfy`, `Baselines.dfy` | which calls the runtime grants, where an update goes, what reset and commit do: field by field |
| `Attributes.dfy`, `Pipeline.dfy` | one attribute over whole runs: types, ranges, drift, smoothing, re-basing |
| `Batches.dfy` | whole batches: splitting, failing part-way, interleaving between devices |
| `Ownership.dfy`, `Locks.dfy` | who owns a target, and what a lock protects |
| `Lease.dfy`, `Contacts.dfy` | how long a mapping is protected, by its fields and by the history of calls |
| `Container.dfy`, `FileFormat.dfy`, `RecordingFiles.dfy` | the file format as a value; as a grammar of bytes; writer, reader and indexer over a moving cursor |
| `ServerSpec.dfy`, `ServerState.dfy` | the server as functions on states, and as the locked object |
| `ServerLog.dfy`, `RecordingLog.dfy`, `Markers.dfy` | a recording against the state it records and the calls it was told of: markers, frames, the file |
| `Admission.dfy`, `Sessions.dfy`, `Reachable.dfy` | who is let in; the session table and signalling over runs; all of it for reachable states |

Every method of a class that changes state ensures that the new state and the result are those of one
function on the old state. The theorems named `...Exactly` say what those functions do without naming
their helpers: guards, fields, errors and what stays. The other laws are mostly over arbitrary runs of
calls. A run is any sequence of calls; each `ServerHandle` call runs under one write lock and is one
step.

Modelling conventions. f32 and f64 are reals, i32 is a bounded integer that saturates where the code
saturates, u64 timestamps are naturals with saturating subtraction. The square root is a function
supplied to the runtime; only the quaternion laws ask anything of it. Mapping tables are sequences in insertion order. A Uuid is its printed text. Ids drawn by a call are
parameters, assumed new where a theorem says so. The clock, the outcome of writing a file and the
outcome of the authentication policy are parameters. A Rust device or scene map is a map.

## Where the code and its documentation differ

The model follows the code.

- `docs/concepts-workflow.md` and `docs/design-architecture.md` promise one active owner per target.
  `update_mapping` does not check it: `Ownership.SharedTarget` reaches two owners, and
  `Ownership.ExclusiveRunExactly` says exactly when exclusivity survives a run.
- The reclaim grace is said to protect against short disconnects. It holds off reclaiming by
  `create_mapping` but not the scheduler: `Lease.LostInsideGrace`, `Lease.LostInsideGraceRun`.
- Locked mappings are said not to be modifiable until unlocked. `remove_mapping` does not look at the
  lock: `Locks.LockedRemoved`. `Locks.LockedRunExactly` says what a lock does protect against.
- `start_recording` is said to ensure an active scene first. It changes the mode before it looks:
  `RecordingLog.FailedStartLeavesRecordingMode`.
- Capacity is said to be checked at registration. It is checked at discovery, and not for a device
  already in the table: `Sessions.CapacityRunExactly`, `Sessions.RediscoveryExceeds`.
- Names are compared trimmed against untrimmed: `Sessions.DistinctRunExactly`,
  `Sessions.UntrimmedNamesClash`, `Sessions.UntrimmedClashRun`.
- The final mode marker of a recording says Recording to Live whatever the mode was:
  `RecordingLog.StopContinuesExactly`, `RecordingLog.LiveBeforeStop`.

## Model

The theorems come first. The rows after `Sessions.SignalsConserved` are the loops and lookups, and
the methods of the classes: each of these has the result and the new state of one function on the old
state, which ties the theorems to objects that change in place.

| member | source | states |
|---|---|---|
| `Reachable.ReachableServer` | crates/motionstage-server/src/lib.rs:274-291 | over every run from a fresh server with fresh mapping ids: Active sessions are connected and registered, the mode markers lead unbroken from the start marker to the runtime mode, and replaying the mapping markers of an active recording gives the Active mappings plus exactly the ids lost unlogged |
| `Reachable.ReachableRecording` | crates/motionstage-server/src/lib.rs:1054-1079 | over every such run, when the codecs decode what is written to itself, the file that a successful stop writes reads back with the recorded frames, as many as its manifest counts, and a log that begins with the start marker, replays to the Active mappings plus exactly the lost ids, and is an unbroken chain if and only if the mode was still Recording |
| `Reachable.ReachableExclusive` | crates/motionstage-core/src/runtime.rs:519-534 | over every server run whose redirections pick free targets, at most one Active mapping per target |
| `Reachable.ReachableInterleaving` | crates/motionstage-core/src/runtime.rs:287-366 | in every state of such a run, interleavings that keep the order of each device have the same effect |
| `Reachable.ReachableErrorFree` | crates/motionstage-core/src/runtime.rs:325-357 | over every server run with well-typed loads, no batch reports a missing scene, object or attribute or an invalid mask |
| `Reachable.ReachableSessions` | crates/motionstage-server/src/lib.rs:195-236 | over every run with trimmed names and no rediscovery of a Closed device at a full table, names of live holders are distinct and live sessions stay within the limit |
| `Reachable.ReachableHistory` | crates/motionstage-core/src/runtime.rs:70-138 | mode, active scene and connected devices of every reachable runtime, from the calls alone: the mode last asked for save Recording from Idle, the scene last chosen among those loaded or else the first loaded, the devices whose last connect or disconnect was a connect |
| `Batches.InterleavingIndependence` | crates/motionstage-core/src/runtime.rs:287-366 | while no two devices own one target, any two interleavings that keep the order of each device reach the same runtime and give every device the same answers, failing batches included |
| `Pipeline.SharedTargetRaces` | crates/motionstage-core/src/runtime.rs:301-362 | when two devices do own one target, with a memoryless chain the order of their updates matters if and only if they ask for different values |
| `Batches.BatchesCommute` | crates/motionstage-core/src/runtime.rs:287-366 | while no two devices own one target, batches of two devices commute: same state in both orders, each with the answer it gets when it goes first |
| `Batches.BatchSplit` | crates/motionstage-core/src/runtime.rs:300-366 | outside Idle, us ++ vs is us and then vs at the same time up to one tick count, and is us alone when us fails |
| `Batches.PrefixFailure` | crates/motionstage-core/src/runtime.rs:301-366 | a failing batch has an index before which everything went through; the state is that prefix's, uncounted, and the error is that update's |
| `Batches.BatchFrame` | crates/motionstage-core/src/runtime.rs:325-362 | a batch changes only current values, and only at targets of its own device's Active mappings |
| `Routing.RouteIsCarrier` | crates/motionstage-core/src/runtime.rs:303-315 | the route of an output is the first Active mapping of the device into the active scene whose output is equal to it, or one is the other behind the device id and a dot; there is none exactly when no mapping is such |
| `Routing.UpdateRouted` | crates/motionstage-core/src/runtime.rs:301-362 | outside Idle an update is answered "no active mapping" if and only if no such mapping exists; otherwise it is delivered to the target of the first, where the attribute gets the new value, and nowhere else, or is answered with the error and changes nothing |
| `Routing.BatchRouted` | crates/motionstage-core/src/runtime.rs:301-362 | a batch, failing or not, changes an attribute only when some update of it has it as the target of its first such mapping |
| `Routing.BatchGuards` | crates/motionstage-core/src/runtime.rs:287-300 | in Idle a batch is accepted and only renews leases; without an active scene it is refused |
| `Ownership.ExclusiveRun` | crates/motionstage-core/src/runtime.rs:162-216 | exclusive ownership is kept by every run whose updates of Active mappings pick a target with no other owner |
| `Ownership.ExclusiveRunExactly` | crates/motionstage-core/src/runtime.rs:162-271 | ownership is exclusive at the start and after every step of a run if and only if every successful update of an Active mapping picks a target with no other owner |
| `Ownership.UpdateExclusiveExactly` | crates/motionstage-core/src/runtime.rs:239-271 | redirecting keeps ownership exclusive if and only if the mapping is Released or no other mapping owns the new target; the code does not check this |
| `Ownership.CreateExclusive` | crates/motionstage-core/src/runtime.rs:179-195 | creating keeps ownership exclusive: the one evicted mapping was the target's only owner |
| `Ownership.SharedTarget` | crates/motionstage-core/src/runtime.rs:239-271 | after loading any scene with two attributes, two creates and one update put two Active mappings on one target |
| `Ownership.RecordingFreezes` | crates/motionstage-core/src/runtime.rs:218-271 | along any run that stays in Recording the mapping ids, order, sources, targets, masks and locks are constant and states only go from Active to Released |
| `Ownership.ReleaseIsAbsorbing` | crates/motionstage-core/src/runtime.rs:153-160 | over every run with fresh ids, an id once Released or removed is never Active again, by heartbeat, update or create |
| `Requests.CheckExactly` | crates/motionstage-core/src/runtime.rs:162-178 | a request is acceptable if and only if the mode is not Recording, its target exists and its mask suits the value there; otherwise the first reason is the answer |
| `Requests.CreateExactly` | crates/motionstage-core/src/runtime.rs:179-216 | a create is granted if and only if the request is acceptable and the target unowned or owned by an unlocked mapping whose grace or timeout has passed; that one goes and an unlocked Active mapping with exactly the device, output, target and mask of the request comes last |
| `Requests.UpdateExactly` | crates/motionstage-core/src/runtime.rs:239-271 | an update is granted if and only if the request is acceptable and the mapping is there and unlocked; it then has exactly the device, output, target and mask of the request, its old id, lock and state, and nothing else changes |
| `Requests.SetLockExactly` | crates/motionstage-core/src/runtime.rs:218-227 | outside Recording the one lock of an existing mapping is set, and nothing else |
| `Requests.RemoveExactly` | crates/motionstage-core/src/runtime.rs:229-237 | outside Recording the one mapping is taken out, whatever its lock, and the others keep their order |
| `Requests.LookupExactly` | crates/motionstage-core/src/runtime.rs:325-341 | an address is looked up scene, object, attribute, and the first that is missing is the error |
| `Requests.SetActiveExactly` | crates/motionstage-core/src/runtime.rs:107-113 | only a loaded scene can be made active, and nothing else changes |
| `Requests.SetModeExactly` | crates/motionstage-core/src/runtime.rs:115-138 | a mode change is refused if and only if it is from Idle to Recording |
| `Requests.ModeRun` | crates/motionstage-core/src/runtime.rs:115-138 | over every run the mode is the one last asked for, save that Recording is not entered from Idle |
| `Requests.ActiveSceneRun` | crates/motionstage-core/src/runtime.rs:98-113 | over every run the active scene is the one last chosen among those loaded, and before any choice the first loaded |
| `Locks.LockedKeptExactly` | crates/motionstage-core/src/runtime.rs:179-271 | a step keeps a locked mapping with its id, source, target, mask and lock if and only if it is neither the removal nor the unlocking of that id outside Recording: creates never evict it, updates are refused |
| `Locks.LockedRunExactly` | crates/motionstage-core/src/runtime.rs:162-285 | over every run with fresh ids a locked mapping is in the table throughout if and only if no call of the run unlocks or removes it |
| `Locks.LockedRemoved` | crates/motionstage-core/src/runtime.rs:229-237 | the documented guarantee fails: load any scene, create a mapping, lock it, and remove_mapping takes the locked Active mapping away |
| `Lease.LeaseProtected` | crates/motionstage-core/src/runtime.rs:144-160 | on runs with non-decreasing times no step before min(heartbeat + timeout, disconnect + grace) takes an Active mapping away except its removal |
| `Lease.FullTimeoutProtected` | crates/motionstage-core/src/runtime.rs:536-544 | with timeout <= grace the whole timeout is protected, whenever the device disconnects |
| `Lease.LostExactly` | crates/motionstage-core/src/runtime.rs:273-285 | an Active mapping is lost in a step if and only if it is removed outside Recording, a tick finds its device disconnected past the timeout, or a create that passes its checks finds it the unlocked, reclaimable owner |
| `Lease.TickReleasesExactly` | crates/motionstage-core/src/runtime.rs:273-285 | a tick releases an Active mapping if and only if its device is disconnected and the timeout has passed since its heartbeat |
| `Lease.LostInsideGrace` | crates/motionstage-core/src/runtime.rs:273-285 | a disconnect followed by a tick inside the reclaim grace but past the timeout loses the mapping |
| `Lease.LostInsideGraceRun` | crates/motionstage-core/src/runtime.rs:273-285 | a run from the initial runtime that does so: load any scene, connect, create, disconnect, tick, for every lease and times with the tick past the timeout and inside the grace |
| `Lease.ClockedRun` | crates/motionstage-core/src/runtime.rs:140-160 | on runs with non-decreasing times heartbeats and disconnects lie in the past, a disconnect never before the last heartbeat |
| `Contacts.ContactRun` | crates/motionstage-core/src/runtime.rs:140-271 | over every run with fresh ids the lease fields of a mapping still Active are its history: the device and time of the last create, update, heartbeat or batch that reached it, and the time of the disconnect since |
| `Contacts.LostExactlyByContact` | crates/motionstage-core/src/runtime.rs:162-285 | how an Active mapping is lost, said of that history: removed; at a tick, device gone and timeout passed since it was reached; to a create on its target, unlocked, and the grace passed since the disconnect or the timeout since it was reached |
| `Contacts.ReachingProtects` | crates/motionstage-core/src/runtime.rs:153-160 | a heartbeat or batch at h protects its device's Active mappings: on every run with non-decreasing times before h + timeout and before the next disconnect + grace, none is lost but by being removed or updated |
| `Contacts.ContactProtects` | crates/motionstage-core/src/runtime.rs:140-285 | the same when the mapping is reached again on the way: no step that comes in time after the last contact loses it |
| `Contacts.ConnectedRun` | crates/motionstage-core/src/runtime.rs:140-151 | over every run a device is connected if and only if its last connect or disconnect was a connect |
| `Contacts.CreatedInTouch` | crates/motionstage-core/src/runtime.rs:196-216 | a granted create starts the history of its mapping at the time of the call |
| `Attributes.ClampRun` | crates/motionstage-core/src/runtime.rs:998-1008 | once current value and baseline lie in the last Clamp's range, every run of updates, resets and commits stays in it, even with Ema or Deadband after the Clamp |
| `Attributes.TypedRun` | crates/motionstage-core/src/runtime.rs:429-496 | over every run with well-typed loads, default and current types stay equal, every mapping's target exists and its mask fits |
| `Attributes.ErrorFreedom` | crates/motionstage-core/src/runtime.rs:325-357 | in every such state a batch only fails for want of a route or because a value does not suit its target |
| `Attributes.ShapeRun` | crates/motionstage-core/src/runtime.rs:287-427 | name, live flag and filter chain of an attribute are constant over every run that does not reload its scene |
| `Attributes.RebaseSettles` | crates/motionstage-core/src/runtime.rs:372-404 | after a reset or commit nothing is off its baseline, and repeating either changes nothing and reports zero |
| `Baselines.RebaseExactly` | crates/motionstage-core/src/runtime.rs:372-404 | after a reset every attribute of the scene has current and baseline equal to its old baseline, after a commit equal to its old current value; names, live flags, chains, other scenes and the rest of the state are unchanged, and the answer counts the attributes that changed |
| `Baselines.CommitObjectExactly` | crates/motionstage-core/src/runtime.rs:406-427 | committing an object does the same to its attributes and to no others |
| `Baselines.BaselineRun` | crates/motionstage-core/src/runtime.rs:287-427 | a baseline is constant over every run that neither commits it nor reloads its scene |
| `Baselines.ResetUndoes` | crates/motionstage-core/src/runtime.rs:372-387 | a reset after any such run brings the attribute back to the baseline it started with |
| `Transform.TransformedSound` | crates/motionstage-core/src/runtime.rs:647-806 | with a mask that fits, a transform keeps the target's type, fails only for reasons of the source value, and composition never sees two types |
| `Transform.WriteMaskedMeaning` | crates/motionstage-core/src/runtime.rs:670-699 | after the mask loop the masked components are the source's and the others those of the start value |
| `Composition.PlainUpdateExactly` | crates/motionstage-core/src/runtime.rs:342-357 | an unmasked update through a Passthrough chain gives baseline plus source, clipped for integers, and for quaternions and matrices source first and then baseline; a flag or trigger takes the source; it is refused if and only if the types differ |
| `Composition.RunAdds` | crates/motionstage-core/src/runtime.rs:342-357 | over every run of updates whose last accepted one was unmasked, the value is the baseline plus its source, whatever came before |
| `Composition.ComposeAdds` | crates/motionstage-core/src/runtime.rs:829-868 | composition type by type in numbers: sums, clipped sums, and the matrix that acts on every column vector as the delta and then the baseline |
| `Composition.Bilinear` | crates/motionstage-core/src/runtime.rs:870-878 | the quaternion product distributes over sums on both sides and lets factors through; with the unit rules this determines it |
| `Composition.ForwardRule` | crates/motionstage-core/src/runtime.rs:870-878 | the units multiply round: ij = k, jk = i, ki = j |
| `Composition.BackwardRule` | crates/motionstage-core/src/runtime.rs:870-878 | the other way round with the sign changed |
| `Composition.SquareRule` | crates/motionstage-core/src/runtime.rs:870-878 | the square of each unit is minus one |
| `Composition.OneRule` | crates/motionstage-core/src/runtime.rs:870-878 | one times a quaternion on either side is the quaternion |
| `Composition.MaskedVectorExactly` | crates/motionstage-core/src/runtime.rs:701-792 | a masked update of a vector is refused if and only if the mask is empty or names a component that target or source lacks; otherwise each component is the baseline's plus, where the mask names it, the source's |
| `Composition.MaskedTurnExactly` | crates/motionstage-core/src/runtime.rs:701-806 | a masked update of a quaternion turns the baseline by the identity with the masked components of the source written over it |
| `Composition.MaskedNumberExactly` | crates/motionstage-core/src/runtime.rs:701-792 | a masked update of a number adds the one component named, rounded to the nearest integer and clipped for integers; every refusal is given |
| `Composition.MaskRefused` | crates/motionstage-core/src/runtime.rs:701-792 | a matrix takes no mask, with the error |
| `Composition.MaskedOverCurrent` | crates/motionstage-core/src/runtime.rs:647-699 | under a flag or trigger baseline a masked update writes the named components over the current vector, with the same refusals |
| `Composition.MaskedNumberOverCurrent` | crates/motionstage-core/src/runtime.rs:647-699 | and over a current number the one component named, rounded and clipped for integers; every other type is refused |
| `Composition.WriteMaskedFails` | crates/motionstage-core/src/runtime.rs:670-699 | the first component a mask cannot read gives the error, a lack in the source before one in the target |
| `Composition.ChainOverPlain` | crates/motionstage-core/src/runtime.rs:342-361 | the chain acts on the value the update would leave without it, against the value before the update |
| `Rebasing.ComposeAssociative` | crates/motionstage-core/src/runtime.rs:829-868 | composing d1 and then d2 equals composing d1 composed with d2: always for floats, vectors and matrices, for saturating integers and for quaternions if and only if their conditions below hold |
| `Rebasing.IntRebaseExactly` | crates/motionstage-core/src/runtime.rs:834-836 | saturating addition re-bases if and only if no intermediate sum saturates against an operand of the opposite sign |
| `Algebra.QuatRebase` | crates/motionstage-core/src/runtime.rs:870-889 | normalised quaternion products re-base whenever none of the four products falls back to its base; the root need only be right at those four norms |
| `Quaternions.QuatRebaseExactly` | crates/motionstage-core/src/runtime.rs:870-889 | for all quaternions: composing d1 and then d2 is composing their composition if and only if the magnitudes say that no product falls back, or that what a fallback leaves out is no rotation or is left out on both sides |
| `Quaternions.ProductExactly` | crates/motionstage-core/src/runtime.rs:870-889 | the normalised product is the base when the magnitudes multiply to at most epsilon, and otherwise the unit product of the two directions |
| `Quaternions.ZeroDeltaForgets` | crates/motionstage-core/src/runtime.rs:879-889 | a failing input: with a zero first delta the composed delta forgets the second |
| `Algebra.UnitRegular` | crates/motionstage-core/src/runtime.rs:870-889 | for unit quaternions the product has norm one and the fallback to the base is unreachable |
| `Rebasing.UnitAssociative` | crates/motionstage-core/src/runtime.rs:870-889 | unit quaternions always re-base, with nothing asked of the root but root(1) = 1 |
| `Algebra.MatAssociative` | crates/motionstage-core/src/runtime.rs:891-899 | matrix composition is associative |
| `Algebra.HamiltonAssociative` | crates/motionstage-core/src/runtime.rs:870-878 | the product written out in the code is associative |
| `Algebra.NormMultiplicative` | crates/motionstage-core/src/runtime.rs:870-879 | the four-square identity: the norm of a product is the product of the norms |
| `Pipeline.RebaseLaw` | crates/motionstage-core/src/runtime.rs:342-357 | with no mask and a Passthrough chain: d1, commit, d2 gives what the composed delta gives on the original baseline, if and only if the three values are re-basable; for quaternions the supplied root must be a square root |
| `Pipeline.RebaseRun` | crates/motionstage-core/src/runtime.rs:389-404 | the same if and only if as a run of the runtime: update, commit the scene baseline, update, against one update |
| `Pipeline.UnitRebaseRun` | crates/motionstage-core/src/runtime.rs:389-404 | the run re-bases for unit quaternions without further condition |
| `Pipeline.NoDrift` | crates/motionstage-core/src/runtime.rs:342-357 | with only Passthrough and Clamp filters, the value after any run of updates is what the last accepted update alone gives on the baseline |
| `Pipeline.RunIsFeeds` | crates/motionstage-core/src/runtime.rs:301-362 | between reloads, resets and commits an attribute is the fold of the values routed to it, in order |
| `Pipeline.UnmaskedReturnsToBaseline` | crates/motionstage-core/src/runtime.rs:732-768 | on vector targets unmasked components return to the baseline and masked ones are baseline plus source |
| `Pipeline.MaskedRotation` | crates/motionstage-core/src/runtime.rs:732-768 | on quaternion targets the delta has the source in the masked components and the identity in the others, and the result is the baseline turned by it |
| `Pipeline.EmaConverges` | crates/motionstage-core/src/runtime.rs:944-961 | n updates with one input through a single Ema give x + (1 - alpha)^n (v - x) in every filterable component |
| `Pipeline.EmaConvergesRun` | crates/motionstage-core/src/runtime.rs:301-362 | the same for the attribute after any run in which all that is routed to it is one input, n times |
| `Filters.CompactPreserves` | crates/motionstage-core/src/runtime.rs:919-942 | dropping Passthrough and fusing neighbours of one kind leaves the chain's effect unchanged for every previous and incoming value |
| `Filters.CompactNormal` | crates/motionstage-core/src/runtime.rs:919-942 | the compacted chain has no Passthrough and no two neighbours of one kind, and is no longer |
| `Filters.FuseSound` | crates/motionstage-core/src/runtime.rs:944-1008 | a fused filter acts as its two halves in turn: product of clamped alphas, larger threshold, image of one range in the other |
| `Filters.LastClampHolds` | crates/motionstage-core/src/runtime.rs:998-1008 | a chain keeps a previous value in its last Clamp's range whatever comes in and whatever smoothing follows |
| `Filters.ClampMeaning` | crates/motionstage-core/src/runtime.rs:998-1008 | a Clamp takes every number to the nearest one between its bounds, in whichever order they are given, and leaves other types alone |
| `Filters.EmaMeaning` | crates/motionstage-core/src/runtime.rs:944-966 | an Ema moves every number the fraction alpha of the way from the previous value, alpha taken into the unit interval, and passes other types and unlike pairs |
| `Filters.DeadbandMeaning` | crates/motionstage-core/src/runtime.rs:968-996 | a Deadband keeps the previous value if and only if the numbers lie less than the threshold away on average |
| `Filters.ChainMeaning` | crates/motionstage-core/src/runtime.rs:919-942 | the chain runs from first to last, every filter against the value before the update |
| `RuntimeSpec.OutputMatchesMeaning` | crates/motionstage-core/src/runtime.rs:901-917 | names match if and only if they are equal or one is the other behind the device's prefix; the relation is symmetric |
| `Container.RoundTrip` | crates/motionstage-recording/src/lib.rs:132-148 | what finish wrote reads back as the same manifest, markers, frames and version if and only if the codecs decode each value written to itself; the manifest counts the frames |
| `Container.LawfulCodecs` | crates/motionstage-recording/src/lib.rs:132-148 | every recording has codecs that decode what it writes to itself, so the hypothesis of the laws can be met; they fit when the frames number below 2^32 |
| `Container.TruncatedRead` | crates/motionstage-recording/src/lib.rs:166-194 | a file cut anywhere after the header reads back as its whole frames if and only if the codecs decode the header and those frames to themselves |
| `Container.CutHeader` | crates/motionstage-recording/src/lib.rs:166-176 | a file cut inside the header is an error and never an empty recording: an unexpected end of file, or an encoding error when the manifest is whole and does not decode |
| `Container.CutDivides` | crates/motionstage-recording/src/lib.rs:178-186 | the cut is that many whole frames and then too little for another |
| `Container.IndexAgreesExactly` | crates/motionstage-recording/src/lib.rs:196-229 | on a cut file that decodes, the indexer reports one frame more than the reader if and only if the cut leaves a whole length header of a frame |
| `Container.TruncatedIndex` | crates/motionstage-recording/src/lib.rs:213-222 | on any file cut after the header, decodable or not, the indexer gives one offset, the start of the frame, per frame whose length header is whole |
| `Container.IndexLocatesFrames` | crates/motionstage-recording/src/lib.rs:196-229 | on a complete file there is one offset per frame, and at offset i lies the blob of frame i |
| `Container.BlobReadsBackExactly` | crates/motionstage-recording/src/lib.rs:243-258 | a blob reads back if and only if its length fits 32 bits; the length is truncated on writing |
| `Container.CutBlob` | crates/motionstage-recording/src/lib.rs:251-266 | a blob cut short is not read, but is skipped once its header is complete |
| `Container.WriterStaysValid` | crates/motionstage-recording/src/lib.rs:119-130 | the manifest counts the frames, and a V1 writer has no markers |
| `FileFormat.ReaderExactly` | crates/motionstage-recording/src/lib.rs:166-194 | on any bytes the reader answers with a recording if and only if the file is CMTRK1 or CMTRK2 followed by little-endian length-prefixed blobs that decode to its manifest, for version 2 its markers, and its frames, up to where no whole blob follows |
| `FileFormat.RefusalExactly` | crates/motionstage-recording/src/lib.rs:166-241 | which of the three errors a refused file gets: bad magic, a header cut short, or a part that does not decode |
| `FileFormat.FileExactly` | crates/motionstage-recording/src/lib.rs:131-148 | a written file is its magic and then the blobs of manifest, markers for version 2, and frames |
| `FileFormat.BlobExactly` | crates/motionstage-recording/src/lib.rs:243-249 | a blob is the length modulo 2^32 in four bytes, least significant first, and then the payload |
| `ServerLog.ReplayAgrees` | crates/motionstage-server/src/lib.rs:791-867 | at every point of every run with fresh ids, the fold of an active recording's mapping markers gives every Active mapping its current source, target and mask, and has exactly the lost ids besides |
| `ServerLog.CallLosesExactly` | crates/motionstage-server/src/lib.rs:791-867 | a call takes an Active id away if and only if it is a tick past the timeout of its disconnected device, a create that evicts it, or its own removal; only the last leaves a marker |
| `ServerLog.LostAfterExactly` | crates/motionstage-server/src/lib.rs:791-867 | the lost ids after a call are those it loses unlogged and the earlier ones it does not forget, by removing them or by starting a new recording |
| `ServerLog.StaleExactly` | crates/motionstage-server/src/lib.rs:791-867 | over every run with fresh ids an id is lost at the end if and only if some tick or eviction of the run loses it and no later call forgets it |
| `ServerLog.ReplayExact` | crates/motionstage-server/src/lib.rs:1033-1048 | over every run with fresh ids the log of an active recording replays to an id if and only if it is Active or stale in that sense, and never both |
| `ServerLog.ReplayExactUnlessLost` | crates/motionstage-server/src/lib.rs:1033-1048 | along a run in which no tick finds an expired mapping and no create evicts one, nothing is lost and the log replays to exactly the Active mappings |
| `ServerLog.SeedAgrees` | crates/motionstage-server/src/lib.rs:1033-1048 | the seed markers of a start replay to exactly the Active mappings |
| `RecordingLog.ModeChain` | crates/motionstage-server/src/lib.rs:702-716 | over every run the mode markers of an active recording form an unbroken chain from the start marker, which ends at Recording, to the mode of the runtime |
| `RecordingLog.StopContinuesExactly` | crates/motionstage-server/src/lib.rs:1054-1079 | the final marker continues the chain if and only if the mode is still Recording; the mode ends at Live |
| `RecordingLog.LiveBeforeStop` | crates/motionstage-server/src/lib.rs:1054-1079 | a run of three calls from a fresh server (load a scene, start, set Live) after which a stop writes a broken chain |
| `RecordingLog.FailedStartLeavesRecordingMode` | crates/motionstage-server/src/lib.rs:991-1016 | a start fails if and only if there is no active scene, and then changes the mode to Recording and nothing else |
| `RecordingLog.FrameAgrees` | crates/motionstage-server/src/lib.rs:891-967 | recording and not Idle, an accepted batch is recorded without fail: one entry per update, naming the target it was routed to and that target's value after the whole batch |
| `RecordingLog.FramesRun` | crates/motionstage-server/src/lib.rs:891-967 | over every run without a start or stop the frames of an active recording are those it had and then, in order, one per batch that succeeded, with the routed targets and their values after the batch |
| `RecordingLog.FramesSinceStart` | crates/motionstage-server/src/lib.rs:991-1052 | from its start on a recording holds exactly the frames of the batches that succeeded since |
| `RecordingLog.RecordingFailsExactly` | crates/motionstage-server/src/lib.rs:905-945 | an accepted batch fails to be recorded if and only if the mode is Idle and, before the call, there is no active scene or some update has no Active mapping or no target |
| `RecordingLog.RecordAllExactly` | crates/motionstage-server/src/lib.rs:911-945 | the second pass succeeds if and only if it can record every update, and entry k is update k's |
| `RecordingLog.RecordAllFails` | crates/motionstage-server/src/lib.rs:911-945 | otherwise it fails with the error of the first update it cannot record |
| `RecordingLog.StoppedFileTellsTheTruth` | crates/motionstage-server/src/lib.rs:1054-1079 | when the codecs decode what is written to itself, the file a successful stop writes reads back with the recorded frames, as many as its manifest counts, and a log that replays to the mappings Active at the stop and, besides, exactly the lost ids |
| `Markers.CallTells` | crates/motionstage-server/src/lib.rs:702-889 | every call but a batch, start or stop adds exactly its marker to the active recording, when it is granted, and changes nothing else of it; a mapping marker carries the device, output, target and mask of the request |
| `Markers.IngestTells` | crates/motionstage-server/src/lib.rs:891-967 | a recorded batch moves the end of the manifest to its time and raises the frame count by one; any other leaves the recording alone |
| `Markers.MarkersRun` | crates/motionstage-server/src/lib.rs:702-967 | over every run with fresh ids the markers of an active recording are those it had and then, in order, exactly what the granted calls tell; its id, scene and start never change and its end is the time of the last recorded batch |
| `Markers.RecordingExactly` | crates/motionstage-server/src/lib.rs:991-1079 | from start to stop: markers of the start, of the calls since and of the stop, with the id, scene and start of the start |
| `Markers.StartExactly` | crates/motionstage-server/src/lib.rs:991-1052 | a start begins an empty version 2 recording of the active scene with a marker from Live, or from Recording if that was the mode, and one seed per Active mapping |
| `Markers.SeedsExactly` | crates/motionstage-server/src/lib.rs:1031-1048 | two equations that determine the seeds: one marker with its wiring per Active mapping, in table order |
| `Markers.StopExactly` | crates/motionstage-server/src/lib.rs:1054-1079 | a stop adds the final marker, ends the recording and sets the mode to Live; when the file cannot be written the recording is gone and the mode stays |
| `Markers.IngestAnswers` | crates/motionstage-server/src/lib.rs:891-945 | what a batch is answered in every case, the first update that cannot be recorded included |
| `Markers.RebaseMeans` | crates/motionstage-server/src/lib.rs:718-754 | a reset or commit without a scene is of the active one, and is refused when there is none |
| `Markers.CommitMeans` | crates/motionstage-server/src/lib.rs:718-770 | the same of committing an object |
| `Markers.RequestAnswersPass` | crates/motionstage-server/src/lib.rs:791-850 | the caller of a create or update is told what the runtime answered |
| `Markers.ChangeAnswersPass` | crates/motionstage-server/src/lib.rs:702-716 | so is the caller of a mode change, a lock or a removal |
| `ServerSpec.ServerRunIsRuntimeRun` | crates/motionstage-server/src/lib.rs:674-716 | every server run is a runtime run underneath, so the laws of runtime runs hold of it |
| `ServerSpec.TrimmedExactly` | crates/motionstage-server/src/lib.rs:215-215 | a name is trimmed if and only if it neither starts nor ends with whitespace; trimming is idempotent |
| `ServerSpec.Negotiated` | crates/motionstage-server/src/lib.rs:640-645 | keeps a feature if and only if the session has it and the server supports it |
| `ServerSpec.NegotiatedIsFilter` | crates/motionstage-server/src/lib.rs:640-645 | order and repetition are kept: the list of a feature is itself or empty, and concatenation is preserved |
| `Sessions.SessionsMoveForward` | crates/motionstage-server/src/lib.rs:138-157 | over every run without a rediscovery a session never falls back in its lifecycle, and once Closed it stays Closed |
| `ServerSpec.TransitionsExactly` | crates/motionstage-protocol/src/lib.rs:65-83 | the permitted transitions are exactly one step up, or from any connected state to Closed |
| `ServerSpec.NegotiationIsBackwardCompatible` | crates/motionstage-protocol/src/lib.rs:230-246 | negotiation settles on the client's version, and accepts every older minor version of one it accepts |
| `Sessions.TableSoundRun` | crates/motionstage-server/src/lib.rs:138-157 | over every run an Active session's device is connected and every session past registration holds a session id |
| `Sessions.DistinctNamesRun` | crates/motionstage-server/src/lib.rs:210-236 | over every run that discovers devices under trimmed names, live sessions with a session id have distinct names |
| `Sessions.DistinctRunExactly` | crates/motionstage-server/src/lib.rs:210-236 | live names stay distinct throughout a run, whatever the names, if and only if every registration it grants is of a Closed session or of a stored name that is free |
| `Sessions.RegisterDistinctExactly` | crates/motionstage-server/src/lib.rs:210-236 | a granted registration keeps live names distinct if and only if the session is Closed or its stored, untrimmed name is free |
| `Sessions.UntrimmedNamesClash` | crates/motionstage-server/src/lib.rs:210-236 | a second device under the same untrimmed name is registered, whenever the trimmed name is free |
| `Sessions.UntrimmedClashRun` | crates/motionstage-server/src/lib.rs:210-236 | a run of ten calls from a fresh server by which two devices join under one untrimmed name and both end up live and registered |
| `Sessions.CapacityRun` | crates/motionstage-server/src/lib.rs:195-208 | over every run without such a rediscovery the live sessions stay within the limit |
| `Sessions.CapacityRunExactly` | crates/motionstage-server/src/lib.rs:195-208 | the limit holds throughout a run if and only if no call rediscovers a Closed device at a full table |
| `Sessions.DiscoverWithinExactly` | crates/motionstage-server/src/lib.rs:520-544 | a discovery keeps the live sessions within the limit if and only if it is not of a Closed device at a full table |
| `Sessions.RediscoveryExceeds` | crates/motionstage-server/src/lib.rs:520-544 | a run of five calls that ends with two live sessions under a limit of one |
| `Admission.NegotiateExactly` | crates/motionstage-protocol/src/lib.rs:230-246 | a client is accepted if and only if it has the server's major version and no newer minor one, with the error of each other case |
| `Admission.TrimExactly` | crates/motionstage-server/src/lib.rs:215-215 | trimming takes off the whitespace at both ends, all of it and nothing else |
| `Admission.DiscoverExactly` | crates/motionstage-server/src/lib.rs:520-544 | a device is taken in, and starts anew, unless it is unknown and the live sessions are at the limit |
| `Admission.HelloExactly` | crates/motionstage-server/src/lib.rs:565-602 | the refusals of a hello in their order; what it says is stored even when the step is not permitted |
| `Admission.RegisterExactly` | crates/motionstage-server/src/lib.rs:609-667 | the refusals of a registration in their order: not authorised, unknown, blank or borne name, no feature in common; the session id is stored even when the step is not permitted |
| `Admission.StatesExactly` | crates/motionstage-server/src/lib.rs:138-157 | where every session stands after any call: at the state asked for if that is one step up or a permitted closing and nothing was refused before, and otherwise where it was |
| `Admission.PresenceExactly` | crates/motionstage-server/src/lib.rs:674-687 | devices enter the table by discovery alone, and connect and disconnect as they are activated and closed, permitted or not |
| `Sessions.PushExactly` | crates/motionstage-server/src/lib.rs:1210-1232 | a push succeeds if and only if both sessions exist and both are Active, and then the message waits last in its recipient's queue alone; the error of each other case is given |
| `Sessions.DrainExactly` | crates/motionstage-server/src/lib.rs:1234-1243 | draining asks only that the session exists, and empties that one queue |
| `Sessions.SignalsConserved` | crates/motionstage-server/src/lib.rs:1210-1243 | over every run, for every device: drained then queued messages are the ones first queued and then those pushed to it while both ends were Active, in order |
| `Transform.WriteComponents` | crates/motionstage-core/src/runtime.rs:740-768 | the mask loop, equal to its specification |
| `Transform.ValidateComponentMask` | crates/motionstage-core/src/runtime.rs:449-496 | accepts exactly the masks that fit: non-empty, not for matrices, in range and without repetition on vectors, single on scalars |
| `Transform.Mat4Multiply` | crates/motionstage-core/src/runtime.rs:891-899 | the loops over rows, columns and terms compute the matrix product |
| `Transform.ComputeTransformed` | crates/motionstage-core/src/runtime.rs:342-355 | the loop-running form of the transform agrees with its specification in every branch and error |
| `Filters.RunFilters` | crates/motionstage-core/src/runtime.rs:919-929 | the filter loop, equal to its specification |
| `RuntimeSpec.IndexOf` | crates/motionstage-core/src/runtime.rs:222-224 | the first mapping with the id, or the end of the table |
| `RuntimeSpec.OwnerOf` | crates/motionstage-core/src/runtime.rs:519-534 | the first Active mapping on the target, or the end of the table |
| `RuntimeSpec.RouteOf` | crates/motionstage-core/src/runtime.rs:303-315 | the first Active mapping that carries the output into the active scene, or the end of the table |
| `Core.RuntimeCore.constructor` | crates/motionstage-core/src/runtime.rs:70-83 | a new runtime is the initial state |
| `Core.RuntimeCore.LoadScene` | crates/motionstage-core/src/runtime.rs:98-105 | whole new state: the scene replaces one with its id, and becomes active if none was |
| `Core.RuntimeCore.SetActiveScene` | crates/motionstage-core/src/runtime.rs:107-113 | whole new state and result |
| `Core.RuntimeCore.SetMode` | crates/motionstage-core/src/runtime.rs:115-138 | every change but Idle to Recording succeeds; nothing else changes |
| `Core.RuntimeCore.RegisterDeviceConnected` | crates/motionstage-core/src/runtime.rs:140-142 | the device is connected; nothing else changes |
| `Core.RuntimeCore.RegisterDeviceDisconnected` | crates/motionstage-core/src/runtime.rs:144-151 | the loop stamps exactly the device's Active mappings |
| `Core.RuntimeCore.Heartbeat` | crates/motionstage-core/src/runtime.rs:153-160 | the loop renews exactly the device's Active mappings |
| `Core.RuntimeCore.CreateMapping` | crates/motionstage-core/src/runtime.rs:162-216 | whole new state and result of every branch: blocked, missing target, bad mask, locked, owned, evicting, appending |
| `Core.RuntimeCore.SetMappingLock` | crates/motionstage-core/src/runtime.rs:218-227 | whole new state and result |
| `Core.RuntimeCore.RemoveMapping` | crates/motionstage-core/src/runtime.rs:229-237 | whole new state and result; order is kept |
| `Core.RuntimeCore.UpdateMapping` | crates/motionstage-core/src/runtime.rs:239-271 | whole new state and result of every branch; state and lock are kept |
| `Core.RuntimeCore.SchedulerTick` | crates/motionstage-core/src/runtime.rs:273-285 | the loop releases exactly the expired mappings |
| `Core.RuntimeCore.ApplyUpdates` | crates/motionstage-core/src/runtime.rs:287-366 | the loop applies updates until the first error, keeps what was written, and counts a tick only on success |
| `Core.RuntimeCore.ApplyUpdate` | crates/motionstage-core/src/runtime.rs:302-362 | one iteration: first matching route, transform, compose, filter, write |
| `Core.RuntimeCore.RebaseScene` | crates/motionstage-core/src/runtime.rs:372-404 | reset and commit of a scene, with the number of attributes that changed |
| `Core.RuntimeCore.CommitObject` | crates/motionstage-core/src/runtime.rs:406-427 | commit of one object, with the number of attributes that changed |
| `Core.RebaseAttributes` | crates/motionstage-core/src/runtime.rs:378-386 | the inner loop rebases every attribute and counts exactly the dirty ones |
| `Core.RebaseObjects` | crates/motionstage-core/src/runtime.rs:377-386 | the outer loop rebases every object and counts exactly the dirty attributes of the scene |
| `RecordingFiles.File.ReadBlob` | crates/motionstage-recording/src/lib.rs:251-258 | reads exactly the blob at the cursor and moves past it, or reports the end of the file |
| `RecordingFiles.File.SkipBlob` | crates/motionstage-recording/src/lib.rs:260-266 | moves past the blob at the cursor without looking at the end of the file |
| `RecordingFiles.File.WriteBlob` | crates/motionstage-recording/src/lib.rs:243-249 | appends the length header and the payload |
| `RecordingFiles.File.TakeMagic` | crates/motionstage-recording/src/lib.rs:231-241 | tells the versions apart and rejects everything else |
| `RecordingFiles.RecordingWriter.PushFrame` | crates/motionstage-recording/src/lib.rs:119-123 | whole new state of the writer |
| `RecordingFiles.RecordingWriter.PushMarker` | crates/motionstage-recording/src/lib.rs:125-129 | whole new state of the writer; V1 drops markers |
| `RecordingFiles.RecordingWriter.Finish` | crates/motionstage-recording/src/lib.rs:131-148 | the loop leaves exactly the container's bytes |
| `RecordingFiles.ReadAllFrames` | crates/motionstage-recording/src/lib.rs:178-186 | the reader's loop, equal to its specification on any bytes |
| `RecordingFiles.SkipAllFrames` | crates/motionstage-recording/src/lib.rs:213-222 | the indexer's loop, equal to its specification on any bytes |
| `RecordingFiles.ReadRecordingFile` | crates/motionstage-recording/src/lib.rs:166-194 | the reader, equal to its specification on any bytes |
| `RecordingFiles.BuildIndexFile` | crates/motionstage-recording/src/lib.rs:196-229 | the indexer, equal to its specification on any bytes |
| `ServerStates.ServerState.ChangeSessionState` | crates/motionstage-server/src/lib.rs:138-157 | whole new state and result: missing session, forbidden transition, or the one change |
| `ServerStates.ServerState.Discovered` | crates/motionstage-server/src/lib.rs:520-544 | whole new state and result; the capacity check is skipped for a known device |
| `ServerStates.ServerState.HelloExchanged` | crates/motionstage-server/src/lib.rs:565-602 | whole new state and result of every check, in order |
| `ServerStates.ServerState.Register` | crates/motionstage-server/src/lib.rs:609-667 | whole new state and result of every check; the session id stays when the transition fails |
| `ServerStates.ServerState.Activate` | crates/motionstage-server/src/lib.rs:674-678 | whole new state: the device is connected even when the transition fails |
| `ServerStates.ServerState.CloseSession` | crates/motionstage-server/src/lib.rs:680-687 | whole new state: the device is disconnected even when the transition fails |
| `ServerStates.ServerState.SetMode` | crates/motionstage-server/src/lib.rs:702-716 | whole new state, with the mode marker in the active recording |
| `ServerStates.ServerState.CreateMapping` | crates/motionstage-server/src/lib.rs:791-819 | whole new state, with the marker carrying the stored mapping |
| `ServerStates.ServerState.UpdateMapping` | crates/motionstage-server/src/lib.rs:821-850 | whole new state, with the marker carrying the stored mapping |
| `ServerStates.ServerState.RemoveMapping` | crates/motionstage-server/src/lib.rs:852-867 | whole new state, with the marker |
| `ServerStates.ServerState.SetMappingLock` | crates/motionstage-server/src/lib.rs:869-889 | whole new state, with the marker |
| `ServerStates.ServerState.IngestMotionSamples` | crates/motionstage-server/src/lib.rs:891-967 | whole new state and result: apply, then record the frame of the second routing pass |
| `ServerStates.ServerState.FrameAttributes` | crates/motionstage-server/src/lib.rs:911-945 | the loop of the second pass, equal to its specification |
| `ServerStates.ServerState.SeededWriter` | crates/motionstage-server/src/lib.rs:1015-1048 | the loop seeds the start marker and one marker per Active mapping, in table order |
| `ServerStates.ServerState.StartRecording` | crates/motionstage-server/src/lib.rs:991-1052 | whole new state and result, the failing start included |
| `ServerStates.ServerState.StopRecording` | crates/motionstage-server/src/lib.rs:1054-1079 | whole new state and result; on success the file holds the finished recording |
| `ServerStates.ServerState.PushSignalingMessage` | crates/motionstage-server/src/lib.rs:1210-1232 | whole new state and result of every check |
| `ServerStates.ServerState.DrainSignalingMessages` | crates/motionstage-server/src/lib.rs:1234-1243 | whole new state and the drained messages |
| `ServerStates.SignalingHub.Enqueue` | crates/motionstage-media/src/lib.rs:142-147 | appends to the recipient's queue only |
| `ServerStates.SignalingHub.DrainFor` | crates/motionstage-media/src/lib.rs:149-151 | hands out and forgets the device's queue only |

## Left out

- IEEE rounding, NaN and infinities: the Clamp, Ema, equality and re-basing laws are about reals.
- The existence of square roots: a supplied root is used; the quaternion laws other than those of unit quaternions ask that it be one.
- Ownership.SharedTarget: takes updates without a mask; masks do not matter to ownership.
- The bincode encoding: any codec, of which the laws ask that it decode the values written to themselves; bincode does that for values an f32 or f64 holds. The framing is what is proved.
- Overflow of the u32 change count and of the u64 frame and tick counters.
- I/O errors other than an unexpected end of file when reading, and the choice of paths; writing a file succeeds or fails as a parameter.
- `ensure_auth`: its outcome is the parameter `authorized`.
- Server metrics, the published snapshot and the running flag: counters and copies beside the state.
- `ServerHandle` calls that only pass a call on to the runtime (load scene, active scene, baselines, scheduler tick) are steps of the server model but have no method on its object.
- The video methods, stream negotiation, WebRTC peers, QUIC transport, mDNS discovery and the message pump of a peer.
- `record_enabled`: nothing in the runtime or the recording reads it.
- Error message texts: errors carry their kind and the values they name.
- The USD and CHAN exporters, the command line, the Python and Swift packages and the legacy crates.
