# Spotter: a verified model of the delivery pipeline

Spotter copies the instances that Kubernetes and Consul know into a remote registry, Nacos. The
registry has no compare-and-swap, so everything that keeps a stale or partial view from overwriting
a newer one has to happen inside Spotter. This project models that part and proves what it keeps:

- **The ordered write gate** (`OrderedGate`, `GateMachine`, `GateTheorems`, `KeyOrder`). Each sink sits
  behind a ledger of revisions and tombstones, an exclusive gate for full pushes and sorted per-identity
  locks for incremental ones. `OrderedGate` is the code of the gate as a class; `GateMachine` runs any
  number of callers, with check, push and commit as separate steps.
- **The retry queue and the worker** (`RetryQueue`, `RetryMachine`, `Worker`, `Errors`). A cycle works on a
  snapshot while new failures arrive, and deletes by comparison.
- **The Nacos sink** (`Batches`, `NacosSink`, `NacosTheorems`, `Wire`, `EndToEnd`). Batches, prune, wire
  identities, and the round trip from an instance to a registered host and back. Every remote call is an
  arbitrary answer: done, rejected, or lost after taking effect.
- **The two source queues** (`OverflowQueue`, `CoalescingQueue`).
- **The sources and the server** (`Consul`, `ThreeWay`, `Server`): empty-catalog confirmation, monotonic
  merge and diff, three-way comparison, and the start and stop of providers under changing leadership.

Code that updates fields in place is a class whose methods are proved against functions on values;
concurrent code is a state machine (`State`, `Action`, `Enabled`, `Do`) with an inductive invariant, and
its theorems quantify over every `Trace`. `Instances` holds the instance record and the identity key.

Revisions, sequences and times are unbounded integers. A clock reading, a random order, or the result
of a remote call is a parameter or a nondeterministic step; the group of the Nacos sink is an arbitrary
constant. JSON, zlib, base64 and SHA-256 are taken as injective in what they are given and not spelled
out; the fields that the serialised form of an instance leaves out are left out of the model's digest too.

## Results where the code does less than one might expect

Where a law fails, an input shows it, and the exact condition under which it holds is proved.

- An incremental batch is checked against the ledger, not against itself: `RepeatedIdentityGoesBack`. The
  ledger covers whatever is delivered of a request exactly when the last item of each identity is its
  newest (`BatchIsCovered`).
- A revalidated second attempt that fails partly stale and partly not is dropped whole:
  `MixedSecondAttemptIsLost`; `QueuedExactly` says for every outcome which sinks get a retry.
- The recovery buffer of the event queue may hold one key twice; the older event is then handed out and
  the newer one skipped: `RecordedTwiceHandsOutOlder`. The comment beside the code says the queued event is
  at least as new. An offer keeps the buffer free of that exactly under the guard of `OfferKeepsDistinct`,
  and then the newest event is always handed out (`NewestIsHandedOut`); `RecordedTwiceIsLost` is the
  converse.
- The Consul provider publishes a new identity as online, enabled and running, whatever it read, and
  watch reads do not correct it while the catalog stays the same: `UnhealthyNewcomer`. The next full push
  does (`NewcomerIsHealed`). An identity without a provider prefix or source path may be taken for the
  wire id of another: `AddGoesOutAsUpdate`, `MissedDelete`. The events keep a registry mirroring the cache
  exactly when neither happens (`ReplayMirrors`, `SyncsMirror`).
- The batches of a scope run in the order in which they were opened, so a later removal may be overtaken
  by an earlier registration of the same location: `LaterRemovalIsOvertaken`, with `SerialDecides` as the
  exact rule.
- A scoped operation prunes by wire cluster, and the gate retires by scope: an identity that an incremental
  push recorded is pruned and stays live, `PrunedButLive`, with `PrunedStaysLiveExactly` as the exact rule.
- A retry compares full snapshots by a serialised form without source key and source cluster:
  `SourceClusterIsNotCompared`.
- The prune compares the ids the registry lists, not locations: a host listed under a foreign id, or none,
  is removed although it is wanted (`MissingIdPrunesWanted`); `WantedIsPruned` is the exact condition.
- A remote instance may be reported neither as remote-only nor as matched: `SwallowedInstance`, with the
  exact condition in `RemoteOnlyIsUnmatched`; or be matched twice: `SharedInstance`, with the exact
  condition in `SharedPartner`.
- A registered host reads back as the same instance exactly when the instance has a first port, and a
  provider unless its wire cluster is empty (`RoundTrip`); without ports it never comes to rest
  (`PortlessIsNotAtRest`).
- The lock table's reference count includes callers that have unlocked their keys and not yet
  unregistered, so it is holders plus waiters plus those (`ReferenceCounts`).
- A trusted full push without a scope retires every live identity it omits, whatever scope recorded it
  (`RetiredExactly`).

## Model

| member | source | states |
|---|---|---|
| `Instances.SourceIsIdentity` | internal/domain/instance/identity.go:12-26 | a source key, in the field or else in the label, is the identity |
| `Instances.BareIdentities` | internal/domain/instance/identity.go:12-26 | without one, two instances share an identity iff provider and wire id agree, or a bare wire id spells out the other's provider and id |
| `KeyOrder.IdentityKeys` | pkg/worker/fanout.go:344-360 | the distinct identities of a batch in strictly ascending order, none missing |
| `OrderedGate.OrderedSink.Scan` | pkg/worker/fanout.go:407-438 | one pass yields the fresh items in order, their marks, the identities seen and whether anything was stale, or finds a repeated identity of a full push |
| `OrderedGate.OrderedSink.CoversLedger` | pkg/worker/fanout.go:445-455 | true iff the snapshot names every identity that is live in the ledger |
| `OrderedGate.OrderedSink.Admit` | pkg/worker/fanout.go:407-467 | the verdict on a request is the declarative admission rule: refuse, skip, or forward exactly the fresh items |
| `OrderedGate.OrderedSink.Commit` | pkg/worker/fanout.go:484-506 | the new ledger and scope table after an acknowledged push: carried identities recorded, omitted live ones of a trusted snapshot retired within their scope, all else unchanged |
| `OrderedGate.OrderedSink.RunLocked` | pkg/worker/fanout.go:396-508 | a whole push on a held gate equals the specification `Run`, including the unchanged state when the sink fails |
| `OrderedGate.OrderedSink.Invoke` | pkg/worker/fanout.go:265-342 | each entry point behaves as `Run` on the request it asks for, given field by field: the call's own snapshot or the revalidated one, its trigger, trust and scope; it ends without a push when revalidation fails or an empty snapshot of a scope is not confirmed |
| `OrderedGate.OrderedSink.Shut` | pkg/worker/fanout.go:510-528 | closing empties the ledger once and stays closed |
| `OrderedGate.FullForwardIsExact` | pkg/worker/fanout.go:407-483 | a full push that gets through carries its whole snapshot, distinct and not stale; an untrusted one names every live identity |
| `OrderedGate.ForwardAdvances` | pkg/worker/fanout.go:411-438 | forwarded marks never fall below the ledger and leave a tombstone only by a larger revision or by healing |
| `OrderedGate.PushAdmits` | pkg/worker/fanout.go:407-467 | an incremental push is never refused, and skipped iff it has items and none is in time: new, of a larger revision, or of the recorded one of a live identity |
| `OrderedGate.PushDelivers` | pkg/worker/fanout.go:411-438 | it delivers exactly the items that are in time, at increasing positions of the request |
| `OrderedGate.FullAdmits` | pkg/worker/fanout.go:407-467 | when a full push is refused as duplicate, refused as stale, skipped or forwarded, each as an iff over ledger and item fields |
| `OrderedGate.LastIsRecorded` | pkg/worker/fanout.go:422-437 | what is recorded of an identity is the revision of its last item, or the trigger, as a removal iff that item is offline |
| `OrderedGate.FullIsRedelivered` | pkg/worker/fanout.go:407-506 | an acknowledged full push without offline items is delivered again whole when repeated, and the repetition changes nothing |
| `OrderedGate.PushIsRedelivered` | pkg/worker/fanout.go:407-506 | a repeated incremental push delivers exactly its items that are not older than the last of their identity, all of them when identities are distinct |
| `OrderedGate.ResolveIsExact` | pkg/worker/fanout.go:265-342 | the request a call resolves to is the one it asks for, field by field, and there is one iff the call may push |
| `GateMachine.KeepsInv` | pkg/worker/fanout.go:326-508 | every step of every caller keeps the gate, the lock table, and that an in-flight push would still be admitted unchanged |
| `GateTheorems.RevisionNeverDecreases` | pkg/worker/fanout.go:396-508 | in every interleaving, before Close an identity's recorded revision never decreases and is never forgotten |
| `GateTheorems.NoResurrection` | pkg/worker/fanout.go:411-438 | a tombstoned identity is live later only at a larger revision, or healed at the equal one by a trusted revalidated full push in between |
| `GateTheorems.LedgerChangesOnlyByCommit` | pkg/worker/fanout.go:468-483 | nothing but an acknowledged push or Close changes ledger and scopes; a failed push leaves both |
| `GateTheorems.Linearizable` | pkg/worker/fanout.go:330-508 | each acknowledged push acts as if check, push and commit were one step at its commit, and all other steps but Close leave the gate alone |
| `GateTheorems.CheckDecides` | pkg/worker/fanout.go:275-324 | the check lets a full call push iff the gate is open, the request it asks for stands, and the ledger forwards it |
| `GateTheorems.PushesWhatItAsked` | pkg/worker/fanout.go:275-324 | in every interleaving, a full push in flight carries the snapshot, trigger, trust and scope its call asked for with the answer given at its check; an invalidated snapshot is never pushed |
| `GateTheorems.EveryPushWasAsked` | pkg/worker/fanout.go:265-342 | every push in flight, incremental or full, goes back to such a check |
| `GateTheorems.FullPushIsComplete` | pkg/worker/fanout.go:407-483 | at every moment of a full push's flight its payload is the whole resolved snapshot, distinct, not stale against the current ledger, and covering when untrusted |
| `GateTheorems.PlainPushAllNamesEveryLiveIdentity` | pkg/worker/fanout.go:439-455 | a plain PushAll in flight never omits an identity that is live at that moment |
| `GateTheorems.OneWriterPerIdentity` | pkg/worker/fanout.go:336-394 | two pushes in flight never carry the same identity |
| `GateTheorems.ReferenceCounts` | pkg/worker/fanout.go:362-394 | a lock entry exists iff somebody uses it, has at most one holder, and counts exactly its users |
| `GateTheorems.NoWaitCycle` | pkg/worker/fanout.go:344-394 | sorted acquisition makes the waits-for relation acyclic along every path |
| `GateTheorems.Progress` | pkg/worker/fanout.go:330-394 | while any caller has not returned, some step other than a new arrival is possible: no deadlock |
| `GateTheorems.ScopeProvenance` | pkg/worker/fanout.go:484-506 | the recorded scope of an identity is that of the last scoped push that carried it |
| `GateTheorems.ScopedRetirement` | pkg/worker/fanout.go:294-324 | a scoped operation tombstones only what it carries as offline, or omits and was last recorded under the same scope |
| `GateTheorems.RetiredExactly` | pkg/worker/fanout.go:484-506 | a trusted snapshot retires an omitted live identity iff it has no scope or the last scoped push of the identity had that scope |
| `GateTheorems.UnconfirmedNeverPushesEmpty` | pkg/worker/fanout.go:294-324 | in every interleaving, a scoped operation nobody confirmed to be empty is never outstanding at the sink with an empty snapshot, its own or a revalidated one |
| `GateTheorems.UnconfirmedEmptyIsNoOp` | pkg/worker/fanout.go:294-324 | from the check of an empty unconfirmed scoped snapshot on, also one emptied by revalidation, the call never reaches the sink and none of its steps changes a record |
| `GateTheorems.BatchIsCovered` | pkg/worker/fanout.go:411-438 | whatever the ledger, the record of an admitted incremental batch covers all it delivers iff per identity the last item of the request is its newest |
| `GateTheorems.RepeatedIdentityGoesBack` | pkg/worker/fanout.go:411-438 | a newer item before an older one of the same identity is delivered whole, and the recorded revision is the older one's |
| `Errors.LeavesDecide` | internal/ports/errors.go:7-35 | an error tree is permanent iff every non-nil leaf is classified permanent |
| `Errors.NonStaleSinksElements` | pkg/worker/fanout.go:71-87 | the queued sink names are exactly those with a failure that is not a stale full push |
| `Errors.StaleIsMet` | pkg/worker/worker.go:140-151 | an error is stale iff the sentinel occurs anywhere in its tree |
| `Errors.FindsFirst` | pkg/worker/fanout.go:71-87 | the fan-out error that counts is the first one of a depth-first walk |
| `Errors.RetriedSinks` | pkg/worker/fanout.go:71-87 | after an error, the sinks retried are those its first fan-out error names with a failure that is not stale, and every known sink without one |
| `RetryQueue.UnsyncedService.Add` | pkg/worker/unsynced_service.go:278-313 | the store after adding items for sinks, item by item, keeping the higher revision per key |
| `RetryQueue.AddKeepsHighest` | pkg/worker/unsynced_service.go:278-313 | adding lowers no entry, raises each added key to at least the item's revision, keeps first triggers, and touches nothing else |
| `RetryQueue.UnsyncedService.AddFullWithMeta` | pkg/worker/unsynced_service.go:83-121 | one entry per target sink and scope, ordered by its sequence or else its trigger, unless a later one is queued; nothing without scope and batch id; all else unchanged |
| `RetryQueue.UnsyncedService.DropGhostSinkKeys` | pkg/worker/unsynced_service.go:390-420 | removes exactly the snapshotted keys of unregistered sinks that are unchanged since the snapshot |
| `RetryQueue.UnsyncedService.RetryKeyed` | pkg/worker/unsynced_service.go:473-531 | removes the attempted key iff the attempt is over and the entry compares equal to the attempted one; no other key |
| `RetryQueue.SameMeans` | pkg/worker/unsynced_service.go:156-170 | entries compare equal iff they are the same instance object, or full operations of one scope, batch id and sequence whose batches hold, one to one in any order, instances alike but for their source |
| `RetryQueue.SourceClusterIsNotCompared` | pkg/worker/unsynced_service.go:156-170 | snapshots of one sequence and batch that differ only in a source cluster compare equal |
| `RetryMachine.KeepsInv` | pkg/worker/unsynced_service.go:358-378 | every interleaving of Adds with a cycle keeps: entries hold the highest rank asked since they were created, and the cycle's snapshot is never newer than the store |
| `RetryMachine.NoLostRetry` | pkg/worker/unsynced_service.go:278-531 | a retry asked for in a step is queued at its rank or higher in every later state, unless after that step an attempt with a snapshot at least as new was over, or its sink is not registered |
| `RetryMachine.EntryHoldsHighest` | pkg/worker/unsynced_service.go:278-313 | an entry carries exactly the highest revision or sequence asked for since it was created |
| `RetryMachine.SnapshotStays` | pkg/worker/unsynced_service.go:358-378 | until the cycle deals with it, a snapshotted key of either operation stays queued, and its entry is the snapshot's own raised by what is added for it meanwhile |
| `RetryMachine.CycleRemovesExactly` | pkg/worker/unsynced_service.go:358-531 | an attempted key, incremental or full, is gone after its attempt iff the attempt is over and since the cycle's snapshot nothing newer was added and, for a full key, the last snapshot added at the same sequence is the same batch and content; no other key moves |
| `RetryMachine.GhostsRemovedExactly` | pkg/worker/unsynced_service.go:390-420 | dropping the ghosts removes exactly the snapshotted keys of unregistered sinks that nothing replaced since the snapshot |
| `RetryMachine.CycleMoves` | pkg/worker/unsynced_service.go:358-378 | a cycle can begin whenever none runs, attempt any open key with any outcome, and finish when none is left |
| `Worker.CollectFailures` | pkg/worker/fanout.go:697-709 | the collected error names exactly the failing sinks in order, none when all succeed |
| `Worker.DefaultWorker.Sync` | pkg/worker/worker.go:51-65 | a failed incremental push is queued for the failed sinks only, a successful one leaves the queue |
| `Worker.DefaultWorker.SyncAll` | pkg/worker/worker.go:66-134 | the decision on a full push and the exact queue afterwards, including the unconfirmed empty snapshot |
| `Worker.CollectedClasses` | pkg/worker/worker.go:140-151 | whether a collected error counts as stale or non-stale says exactly which kinds of sink failures occurred |
| `Worker.RetriesFailedSinks` | pkg/worker/fanout.go:71-87 | when some sink failed for another reason than staleness, a sink is queued iff it is one of those |
| `Worker.QueuedExactly` | pkg/worker/worker.go:96-134 | for every pair of outcomes, a sink is queued iff it failed the deciding attempt without staleness, and no sink was stale in a second attempt |
| `Worker.MixedSecondAttemptIsLost` | pkg/worker/worker.go:103-119 | a second attempt with a stale and a timed-out sink is dropped, retry included |
| `Wire.SanitizeWireScope` | internal/domain/instance/identity.go:31-43 | the loop computes trim, replace, trim |
| `Wire.SanitizedShape` | internal/domain/instance/identity.go:28-43 | a sanitised scope has only wire-safe characters and no dash at either end |
| `Wire.SanitizedIs` | internal/domain/instance/identity.go:28-43 | a wire scope is the text from its first to its last letter, digit, underscore or dot, with a dash for every other character in between |
| `Wire.FiledUnder` | pkg/nacos/nacos.go:1285-1296 | which name an instance is filed under, for every combination of cluster, source cluster and provider |
| `Wire.SanitizedIdempotent` | internal/domain/instance/identity.go:28-43 | sanitising twice changes nothing |
| `Wire.ReconstructRegistered` | pkg/nacos/nacos.go:1410-1473 | what reading back a registered host changes in the canonical payload, field by field, for both transports |
| `Wire.RoundTrip` | pkg/nacos/nacos.go:1356-1492 | a registered host reads back canonically equal iff the instance is wire-complete |
| `Wire.DriftIsSeen` | pkg/nacos/nacos.go:1410-1492 | over the SDK, a host with the instance's metadata differs for reconcile iff its address, its port modulo 2^32 or its enabled bit drifted |
| `Wire.DriftSeenOverHttp` | pkg/nacos/nacos.go:1486-1492 | the same for the HTTP transport, where an unhealthy instance's enabled bit is not compared |
| `Wire.PortlessIsNotAtRest` | pkg/nacos/nacos.go:1418-1431 | an instance without ports always differs from its own registration |
| `Wire.ReconstructedCluster` | pkg/nacos/nacos.go:1285-1296 | with a provider, the read-back instance is filed under the same wire cluster |
| `Wire.PayloadWins` | pkg/nacos/nacos.go:1410-1445 | a readable payload decides every field but the location, the first port, and the enabled bit of an instance that is not unhealthy |
| `Wire.OtherPayloadIsNotRead` | internal/domain/instance/metadata.go:84-95 | a payload of another version is as good as none |
| `Wire.ScalarsReadBack` | pkg/nacos/nacos.go:1446-1473 | without a readable payload the scalar entries of a registration give every compared field back; the rest is the host's or empty |
| `Wire.StatusOfUnreadable` | pkg/nacos/nacos.go:1494-1507 | the status entry decides, and without one the enabled bit |
| `Wire.OtherSchemaIsRepublished` | pkg/nacos/nacos.go:1446-1455 | a host without the current schema marker differs from every instance that has a revision |
| `Wire.CompositeIdInjective` | pkg/nacos/nacos.go:1333-1339 | addresses and clusters without '#' make the composite id an identity of service, cluster, address and port |
| `Wire.SanitizedHasNoHash` | internal/domain/instance/identity.go:31-43 | every sanitised cluster meets that condition |
| `Batches.SplitPersistentBatches` | pkg/nacos/batch.go:90-130 | the batches partition the admitted positions: per key in order, one to a hundred items and not more than asked for, all but a key's last full, counts exact, in the order in which they were opened |
| `Batches.PartitionPlacesOnce` | pkg/nacos/batch.go:90-130 | every admitted position is in some batch, and every batch position is admitted under the batch's key |
| `Batches.PartitionIsInjective` | pkg/nacos/batch.go:90-130 | no position is in two places |
| `Batches.PartitionByStatus` | pkg/nacos/batch.go:132-141 | a position is in a register batch iff its instance is online or unhealthy, in a deregister batch iff it is offline, always of its own service and cluster |
| `Batches.Account` | pkg/nacos/batch.go:213-230 | each counter is the number of positions it stands for: registered without an address, failed for good, failed otherwise, or succeeded; attempted and skipped are the admitted ones, and no count underflows, for every pattern of answers |
| `NacosSink.ValidateWireIdentitySet` | pkg/nacos/nacos.go:465-494 | accepts iff any two participants of one composite id share their source cluster, or have none and share their identity, and each agrees with the recorded owner |
| `NacosSink.OwnerIsSource` | pkg/nacos/nacos.go:580-588 | owner names agree iff the sources do; the two forms never coincide |
| `NacosSink.CollectFailedScopes` | pkg/nacos/batch.go:191-197 | the scopes kept from the prune are those of participants with an address whose call did not simply succeed |
| `NacosSink.Sink.Survey` | pkg/nacos/nacos.go:712-743 | the wanted composite ids per pair and the clusters the push speaks for |
| `NacosSink.Sink.Prune` | pkg/nacos/nacos.go:706-896 | deregisters exactly the declaratively described targets, remembers the pushed pairs, and reports success iff discovery, the read session, every listing of a swept pair and every deregistration succeeded |
| `NacosSink.Sink.PushAll` | pkg/nacos/nacos.go:650-674 | refuses a colliding set untouched; otherwise the catalog is the applied calls minus the acknowledged targets outside failed scopes; success iff no collision, no failed item and every prune call succeeded |
| `NacosSink.Sink.PushAllOperation` | pkg/nacos/nacos.go:342-354 | an empty unconfirmed snapshot is a no-op, a confirmed one prunes its scope, a non-empty one is PushAll, each with its exact success |
| `NacosTheorems.BatchesGiveSchedules` | pkg/nacos/batch.go:205-390 | the schedules a push is proved for are the rearrangements of the batches it was split into, so its real call orders are among them |
| `NacosTheorems.PruneSafety` | pkg/nacos/nacos.go:706-896 | whatever calls fail, a pruned host is owned, listed under an id nobody wants, in a named cluster and in no failed scope; listed under its own composite id, it is wanted by no instance |
| `NacosTheorems.WantedIsPruned` | pkg/nacos/nacos.go:851-862 | a wanted location is pruned iff the registry lists an owned host there under an id the snapshot does not want, which is then not the location's own |
| `NacosTheorems.MissingIdPrunesWanted` | pkg/nacos/nacos.go:855-857 | a registry that lists without ids makes the prune remove a wanted instance |
| `NacosTheorems.DesiredSurvives` | pkg/nacos/nacos.go:650-674 | an online or unhealthy instance whose registration took effect, or that was there, is there afterwards whatever else fails, unless the registry lists it under a foreign id |
| `NacosTheorems.RemovedOnly` | pkg/nacos/nacos.go:650-896 | what disappears was offline in the snapshot, or satisfies every prune condition |
| `NacosTheorems.RegisteredIsLegible` | pkg/nacos/nacos.go:1410-1473 | the prune recognises a registered host under its own location iff the instance keeps its cluster on the way back |
| `NacosTheorems.Converges` | pkg/nacos/nacos.go:650-674 | without failures the owned entries of every pushed cluster are exactly those left by the calls whose composite id is wanted; when no location is both wanted and removed and ids tell locations apart, exactly the online and unhealthy instances with an address; other clusters and foreign entries are unchanged |
| `NacosTheorems.SerialDecides` | pkg/nacos/batch.go:256-345 | with the batches of a scope run one after the other, the last batch that names a location decides what is there |
| `NacosTheorems.ConvergesSerially` | pkg/nacos/batch.go:200-345 | so an owned entry stays iff the last batch naming it registers, or none names it and its id is wanted, also where a location is both wanted and removed |
| `NacosTheorems.LaterRemovalIsOvertaken` | pkg/nacos/batch.go:104-128 | a removal that comes after a registration in the snapshot but joins a batch opened before it does not last |
| `NacosTheorems.FinalCatalogOk` | pkg/nacos/nacos.go:650-674 | the catalog a push leaves is one a push may start from iff every registration it holds keeps its cluster on the way back |
| `NacosTheorems.HashFreeTellsApart` | pkg/nacos/nacos.go:1329-1339 | composite ids tell locations apart when addresses and clusters are free of '#' |
| `NacosTheorems.SecondPushPrunesNothing` | pkg/nacos/nacos.go:706-896 | pushing the same snapshot again prunes nothing |
| `EndToEnd.PlainPushAllPrunesNoLiveIdentity` | pkg/worker/fanout.go:439-483 | through the gate, a plain PushAll reaches the prune with every live identity, and prunes none of them that it wants, unless the registry lists it under a foreign id |
| `EndToEnd.PrunedByScope` | pkg/nacos/nacos.go:342-354 | what a scoped operation prunes lies in a cluster its snapshot names, or in the scope itself when the snapshot is empty, and no item wants it there unless the registry lists it under a foreign id |
| `EndToEnd.PrunedStaysLiveExactly` | pkg/worker/fanout.go:484-506 | of the live identities whose hosts a scoped operation prunes, confirmed-empty ones included, exactly those stay live at its commit that it carries as not offline, and then not wanted there, or that it does not carry and no push of its scope recorded last |
| `PruneWitness.PrunedButLive` | pkg/worker/fanout.go:500-505 | a run: an identity that only an incremental push recorded is pruned by a confirmed empty operation of its cluster and stays live in the ledger |
| `OverflowQueue.Overflow.Offer` | pkg/providers/overflow.go:71-103 | refuses only a nil task, a closed queue or a new key at capacity; otherwise the newest task replaces the key's, and a token is sent |
| `OverflowQueue.Overflow.Next` | pkg/providers/overflow.go:172-187 | takes the first retained key that is not in flight |
| `OverflowQueue.Overflow.Finish` | pkg/providers/overflow.go:189-211 | only the very task that was submitted leaves; otherwise the key is eligible again and a token is sent |
| `OverflowMachine.KeepsInv` | pkg/providers/overflow.go:71-211 | every step of producers and dispatcher keeps order, flight, log and wakeup invariants |
| `OverflowMachine.OrderIsExact` | pkg/providers/overflow.go:172-211 | in every reachable state the order is exactly the retained keys not in flight, each once, within the bound |
| `OverflowMachine.AcceptedIsKept` | pkg/providers/overflow.go:71-103 | an accepted task is superseded by a later one of its key, retained, or accepted by the pool |
| `OverflowMachine.SubmissionsFollowOffers` | pkg/providers/overflow.go:140-211 | the pool accepts tasks of one key in offer order and none twice |
| `OverflowMachine.NoLostWakeup` | pkg/providers/overflow.go:133-170 | a dispatcher that sleeps with work waiting has a token, or an Offer about to send one |
| `OverflowMachine.TurnComes` | pkg/providers/overflow.go:140-187 | a key at position p is submitted by the dispatcher's turn p + 1, whatever is offered or refused meanwhile |
| `OverflowMachine.OneTokenPerOffer` | pkg/providers/overflow.go:71-103 | every offer that is taken sends exactly one token |
| `OverflowMachine.SignalMeansWork` | pkg/providers/overflow.go:189-211 | the dispatcher wakes itself only when a key waits |
| `OverflowMachine.RefusalPauses` | pkg/providers/overflow.go:140-170 | after a refusal by the pool nothing is taken or submitted before the retry timer elapses |
| `OverflowMachine.DispatcherMoves` | pkg/providers/overflow.go:133-170 | the dispatcher is never stuck, and can be stopped while it waits for a token or the timer |
| `CoalescingQueue.EventQueue.Offer` | pkg/k8srobot/k8srobot.go:548-577 | index and list stay one structure; the shared entry is superseded in place, or the item is queued, recorded or dropped |
| `CoalescingQueue.EventQueue.Pop` | pkg/k8srobot/k8srobot.go:596-615 | hands out the front and re-admits records while there is room, skipping queued keys |
| `CoalescingQueue.EventQueue.Depth` | pkg/k8srobot/k8srobot.go:617-623 | the number of queued keys, read off the index, is the length of the queue |
| `CoalescingQueue.IdsTellApart` | pkg/k8srobot/k8srobot.go:97-102 | keys agree iff cluster, name and uid do, as long as none holds a NUL |
| `CoalescingTheorems.Reachable` | pkg/k8srobot/k8srobot.go:548-615 | in every run keys are distinct, both sizes within capacity, and a record waits only while the queue is full |
| `CoalescingTheorems.KeysKeepOrder` | pkg/k8srobot/k8srobot.go:548-615 | keys leave in admission order: offers move none, a pop moves the rest up by one |
| `CoalescingTheorems.HandsOutNewestWithEarliest` | pkg/k8srobot/k8srobot.go:548-577 | a popped object is the last event merged since admission with the earliest creation time among them |
| `CoalescingTheorems.WaitingIsHandedOut` | pkg/k8srobot/k8srobot.go:548-615 | a key recorded at position p is handed out within p + 1 + capacity pops, a queued one within its index + 1 |
| `CoalescingTheorems.PopIsFifo` | pkg/k8srobot/k8srobot.go:596-615 | while no key waits twice, queue and buffer together are one plain FIFO |
| `CoalescingTheorems.OfferKeepsDistinct` | pkg/k8srobot/k8srobot.go:548-577 | an offer keeps that iff it does not record a key that is recorded already |
| `CoalescingTheorems.NewestIsHandedOut` | pkg/k8srobot/k8srobot.go:548-615 | in a run without such an offer every pop hands out the newest event of its key that was not lost to the bound |
| `CoalescingTheorems.FirstIsHandedOut` | pkg/k8srobot/k8srobot.go:548-615 | the next hand-out of a key that is not offered again is its queued event, or else its oldest record |
| `CoalescingTheorems.RecordedTwiceIsLost` | pkg/k8srobot/k8srobot.go:560-612 | the converse: after an offer that records a key twice the next hand-out of the key, if it is not offered again, is the older record, not the newest event |
| `CoalescingTheorems.RecordedTwiceHandsOutOlder` | pkg/k8srobot/k8srobot.go:606-612 | a run in which the older of two records is handed out and the newer never is |
| `Consul.Fetch` | pkg/providers/cache.go:40-73 | lookup by identity, with the wire-id fallback only for a bare id that matches once |
| `Consul.MergeMonotonicInstances` | pkg/providers/consul/consul.go:624-640 | the read with every older projection replaced by the cached one |
| `Consul.ExtractDiff` | pkg/providers/consul/consul.go:764-819 | the three event lists, each in ascending key order: newcomers as online, enabled and running, changed instances as read, vanished ones as offline, disabled and terminated |
| `ConsulTheorems.GetFinds` | pkg/providers/cache.go:40-73 | a lookup finds the identity, or the only cached instance that carries a bare identity as its wire id |
| `ConsulTheorems.AddsElements` | pkg/providers/consul/consul.go:795-803 | the add events are the newcomers, each online, enabled and running and otherwise as read |
| `ConsulTheorems.DeletesElements` | pkg/providers/consul/consul.go:806-814 | the delete events are the vanished instances, each offline, disabled and terminated and otherwise as cached |
| `Consul.Provider.SyncInstance` | pkg/providers/consul/consul.go:531-618 | the new provider state, the events, and whether a full push must follow, on every kind of read |
| `Consul.Provider.CompareAndFlush` | pkg/providers/consul/consul.go:1051-1091 | the confirmation part and the cache it leaves |
| `Consul.Provider.SnapshotForFullPush` | pkg/providers/consul/consul.go:1019-1048 | the snapshot of a full push or its revalidation, with its empty mark |
| `ConsulTheorems.MergeIsMonotone` | pkg/providers/consul/consul.go:624-640 | an identity in two consecutive caches never loses revision |
| `ConsulTheorems.KeptIdentity` | pkg/providers/consul/consul.go:624-640 | the merge keeps an instance's identity iff no bare wire id finds a newer entry of another identity |
| `ConsulTheorems.MergedIdentities` | pkg/providers/consul/consul.go:624-640 | for source-aware keys the merge adds and drops no identity |
| `ConsulTheorems.RevisionsNeverGoBack` | pkg/providers/consul/consul.go:591-600 | over any run, while an identity stays cached its revision never decreases |
| `ConsulTheorems.ReadIsStored` | pkg/providers/consul/consul.go:531-618 | a watch read or comparison that finds source-aware instances stores exactly their identities, each as last read or as cached if newer, and forgets empty reads |
| `ConsulTheorems.EventsAreExact` | pkg/providers/consul/consul.go:764-819 | for every identity, bare ones included: adds are the accepted new identities the wire-id search does not find elsewhere, updates the accepted common ones with a changed payload and the new ones it does find, deletes the vanished ones it does not find |
| `ConsulTheorems.ReplayAt` | pkg/providers/consul/consul.go:591-618 | what a registry that takes each event by its own status holds for any identity afterwards, whatever it held before |
| `ConsulTheorems.ReplayMirrors` | pkg/providers/consul/consul.go:764-819 | the events keep a registry mirroring the cache at an identity iff it is no newcomer published in another state than it was read in, and no registered identity whose delete the wire-id search suppresses |
| `ConsulTheorems.ChangeHeals` | pkg/providers/consul/consul.go:782-792 | a changed payload makes the registry take the new instance by its status whatever it held; an unchanged one leaves it |
| `ConsulTheorems.SyncsMirror` | pkg/providers/consul/consul.go:591-618 | from an empty registry, it mirrors the cache at an identity all along a run of watch reads and full pushes iff no step breaks it: one of those two, or a full push of a read that differs from the cache |
| `ConsulTheorems.FullPushHeals` | pkg/providers/consul/consul.go:979-1048 | a full push that is delivered leaves exactly its online and unhealthy instances in the registry, and makes it mirror the cache wherever the read agrees with it |
| `ConsulTheorems.EmptyPushClears` | pkg/providers/consul/consul.go:1019-1048 | an empty full push clears the registry iff it is the third counted empty read or a later one |
| `ConsulTheorems.NewcomerIsHealed` | pkg/providers/consul/consul.go:979-1048 | a full push of the same catalog corrects the unhealthy newcomer, whatever the registry made of it |
| `ConsulTheorems.LonePush` | pkg/providers/consul/consul.go:979-1048 | in any state whose cache holds one instance, a full push that reads it publishes exactly that instance if it is online or unhealthy, and keeps the cache |
| `ConsulTheorems.UnhealthyNewcomer` | pkg/providers/consul/consul.go:793-799 | a newcomer read as unhealthy is registered as online and running, and stays so at every step of every run of watch reads of the same catalog |
| `ConsulTheorems.AddGoesOutAsUpdate` | pkg/providers/cache.go:55-73 | a newcomer whose bare identity is a cached wire id is not added but updated, as it was read |
| `ConsulTheorems.MissedDelete` | pkg/providers/cache.go:55-73 | a vanished identity that a remaining entry carries as its wire id is not deleted |
| `ConsulTheorems.ConfirmationsAreReads` | pkg/providers/consul/consul.go:541-592 | on whatever mix of paths, no healthy-empty read is counted twice and none survives an interruption |
| `ConsulTheorems.EmptyingIsConfirmed` | pkg/providers/consul/consul.go:555-592 | the cache becomes empty only after three healthy-empty reads with no rejected read and no instances in between |
| `ConsulTheorems.MarkIsConfirmed` | pkg/providers/consul/consul.go:1019-1048 | a full push is marked as confirmed empty only after three such reads |
| `ConsulTheorems.MarkedReadCountsOnce` | pkg/providers/consul/consul.go:568-575 | an empty state seen by a watch read and then by a comparison or a full push counts once, and the next full push counts again |
| `ConsulTheorems.ThreeWatchReadsEmpty` | pkg/providers/consul/consul.go:555-592 | and three watch reads suffice |
| `ThreeWay.ListToMap` | internal/domain/instance/rules.go:67-75 | every identity leads to its last occurrence |
| `ThreeWay.UniqueWireIds` | internal/domain/instance/rules.go:223-238 | exactly the non-empty wire ids that occur once |
| `ThreeWay.LegacyIsSourceless` | internal/domain/instance/rules.go:219-221 | an instance falls back to its wire id iff neither its fields nor its labels name a source |
| `ThreeWay.CompareThreeWay` | internal/domain/instance/rules.go:180-217 | the three lists are the declarative ones over these indexes, in input order |
| `ThreeWay.MatchIsInjective` | internal/domain/instance/rules.go:191-204 | no remote instance has two provider partners when equal identities have equal wire ids |
| `ThreeWay.SharedPartner` | internal/domain/instance/rules.go:191-204 | without that agreement, a remote instance has two partners iff one reaches it by identity and another by a unique wire id of its own |
| `ThreeWay.SharedInstance` | internal/domain/instance/rules.go:191-204 | such an input |
| `ThreeWay.RemoteOnlyIsUnmatched` | internal/domain/instance/rules.go:209-216 | a remote instance is left out of remote-only iff it is matched or swallowed by a wire-id match that identity pre-empted, never both |
| `ThreeWay.NothingIsSwallowed` | internal/domain/instance/rules.go:180-217 | equal identities with equal wire ids rule the second case out |
| `ThreeWay.PartialBijection` | internal/domain/instance/rules.go:180-217 | under that agreement matching is a partial bijection, and the unmatched of both sides are exactly the two only-lists |
| `ThreeWay.SwallowedInstance` | internal/domain/instance/rules.go:209-216 | without it an unmatched remote instance is reported nowhere |
| `Server.KeepsInv` | internal/server.go:145-217 | every step of the main loop, of Stop and of the start goroutines keeps handles, attempts, phases and leadership consistent |
| `Server.OneLiveAttempt` | internal/server.go:349-416 | two start attempts are never uncancelled at the same time |
| `Server.ProvidersMeanLeadership` | internal/server.go:620-628 | installed providers mean an unstopped leader, or a stop still to come, and their own cleanup is the stored handle |
| `Server.NoStaleInstall` | internal/server.go:335-347 | an attempt outdated by a stop never installs; what installs later began later, as leader of an unstopped server |
| `Server.ProvidersGoOnlyByTheirOwn` | internal/server.go:708-718 | installed providers are cleared only by a stop or by their own attempt's end |
| `Server.ResourcesAreClosedOnce` | internal/server.go:389-416 | resources close at most once, and between starts every attempt is cancelled and everything acquired is closed |
| `Server.StopReachesAll` | internal/server.go:166-214 | once the main loop's stop has made its call, every attempt begun before it is cancelled or giving up by itself |
| `Server.StopClosesInstalled` | internal/server.go:166-214 | a stop that finds installed providers closes their resources with its call |
| `Server.StopCancelsStored` | internal/server.go:313-333 | Stop cancels the attempt whose handle is stored, and closes the resources of installed providers, before it signals the main loop |
| `Server.LeaderFollows` | internal/server.go:166-202 | until it is stopped, the server is leader iff the last change it heard made it leader |
| `Server.EveryGainStarts` | internal/server.go:166-202 | the starts taken and those still queued are exactly the gains of leadership |
| `Server.EveryLossStops` | internal/server.go:166-189 | after a loss of leadership the next step of the main loop is the stop |
| `Server.LossLeavesWaiting` | internal/server.go:166-189 | and after its call the loop waits for the next change |
| `Server.StoppedLoopEnds` | internal/server.go:203-214 | when the main loop sees the stop, it stops the providers once more and ends |
| `Server.StartSucceeds` | internal/server.go:349-416 | a start that nothing interferes with installs a new, uncancelled attempt in four steps |
| `Server.LoserClearsNothing` | internal/server.go:620-628 | an attempt that loses the installation check closes its resources and leaves handle and providers alone |
| `Server.EverybodyMoves` | internal/server.go:145-217 | the holder of the lifecycle mutex, the main loop and Stop always have a next step until they end |

## Left out

- Nacos SDK, gRPC and HTTP transports, TLS, authentication and readiness checks: remote calls are arbitrary answers over an abstract catalog.
- The wire-ownership ledger's claims and releases and the claimed health policy: only the owners a push starts from are a parameter, because claims are not reference-counted across overlapping writers.
- The reconcile-source designation of the fan-out and the sinks' own dispatch goroutines: the fan-out is the list of its sinks' answers.
- The worker's compatibility paths for a sink without a full-operation interface; the production fan-out has one.
- The last scope and batch id that the gate keeps for diagnosis, metrics, logging, notices and debug endpoints.
- Pod and endpoint conversion, the Kubernetes provider's event loop, and the consumer wakeup of the event queue.
- The Consul provider's retry timer, its nil-cache and nil-monitor branches, the initial-push threshold, and the remote comparison after CompareAndFlush.
- etcd election: only the stream of leader changes enters the server model; the election's own fencing is not part of it.
- The Atlas client, which is outside the active release.
- Wrap-around of 64-bit generations and sequences.
- GateTheorems.Progress: says that some step is possible in every state, not that a fair scheduler serves every caller.
- Server.StopReachesAll: providers that ignore their cancelled context are not modelled; it says that the context is cancelled, not that they return.
- ConsulTheorems.EmptyingIsConfirmed: a plain question through GetAll that sees instances does not interrupt the count in the code, so it is not counted as an interruption here.
- ConsulTheorems.SyncsMirror: what the comparison at start sends is not replayed into the registry, and a full push is taken to replace its whole content.
