# Replication and admission in OpenZiti, modelled in Dafny

This project models the parts of [OpenZiti](https://github.com/openziti/ziti) that keep routers in
step with their controller, together with three smaller concurrent components, and proves what they
promise.

**The router data model.** The controller keeps a data model of identities, services, service policies,
posture checks, configs and routers (`sender_spec.dfy`, `sender_model.dfy`), applies raft-indexed change
sets to it, logs recent ones in a ring buffer (`event_log.dfy`, `event_cache.dfy`) and serves replays,
full snapshots and per-router filtered views (`snapshot.dfy`, `config_filter.dfy`). Each router receives
change sets behind an order and gap check (`receiver_store.dfy`) and applies them to a graph with
incrementally kept use counts (`receiver_spec.dfy`, `router_data_model.dfy`). Subscriptions compare the
resulting service lists with the previous ones and tell their listeners (`service_lists.dfy`,
`notifications.dfy`, `subscription.dfy`). That comparison goes by the index kept with each entity; which
events move which index, and that no change is missed by it, is in `policy_index.dfy`, `access_index.dfy`,
`identity_versions.dfy`, `service_versions.dfy`, `version_stamps.dfy` and `check_notices.dfy`. Which events
make subscriptions look, and what that misses, is in `entity_links.dfy`, `identity_views.dfy`,
`missed_changes.dfy`, `queued_checks.dfy`, `sync_checks.dfy`, `sync_views.dfy` and `sync_check_examples.dfy`.
That the ways of getting the data agree is in `full_sync.dfy`, `replication.dfy`, `synthetic_changes.dfy` and
`sync_agreement.dfy`.

Both ends are proved against one reference, `relational_view.dfy`: the plain content, without counts,
indices or reverse references, and what each event means for it. A stream is *well formed* when entities
exist before they are referenced, and services and posture checks are added to a policy once and removed
only while present; the receiver counts those blindly. It *detaches before deleting* when a policy has no
identities, a posture check no policies and a config no overrides left at the time it is deleted, the
three things the sender does not clean up after itself; what happens otherwise is listed below.

**Rate limiting** (`rate_tracker.dfy`, `rate_limiter.dfy`), **metric buckets** (`metric_buckets.dfy`,
`metric_counters.dfy`) and the **asynchronous log handler** (`async_log.dfy`) are modelled as step systems
or as objects with shared buckets, over every interleaving or run.

Objects the program updates in place are classes whose methods are proved to compute specification
functions; loops over Go maps run in any order and are proved to compute order-independent results. The
lemmas over whole runs are about the specification functions.

`dafny verify dfyconfig.toml` checks everything.

## Where the code falls short of a promise

Each has a lemma with a failing case and one that says exactly when the promise holds.

- A log reset after its first store keeps the old smallest index, so a replay can succeed although the
  change set asked for was forgotten (`LateResetExample`, `ResetIsSafeIff`).
- The sender leaves memberships behind when it deletes a policy (`PolicyReuseExample`,
  `PolicyReuseAgreesIff`) and check listings when it deletes a posture check (`CheckDeleteExample`,
  `CheckDeleteAgreesIff`), and files an empty entry for an unknown identity (`EmptyEntryExample`,
  `EmptyEntryIff`).
- The receiver clears the overrides of a deleted config and the sender keeps them (`ConfigDeleteExample`,
  `DeleteConfigRefinesIff`).
- A change of policy type changes its members' services and queues no check for them (`FlipGoesUnseen`,
  `FlipShownIff`), nor does deleting a config type, a config the own router's list drops, or one that
  arrives after what names it (`LinkedMissedIff`); `MissedIff` is the whole condition.
- Deleting a router's own entity collects none of its configs (`OwnDeleteExample`, `OwnDeleteInStepIff`).
- A receiver at index 0 accepts any change set, and a sender's log need not begin at index 0
  (`EmptyReceiverExample`, `EmptyReceiverFollowsIff`).
- A nameless service leaves its name index entry behind (`NamelessExample`, `DeletePointsRightIff`,
  `RenamePointsRightIff`).
- An identity deleted and recreated before its checks are handled can leave a router's subscription empty
  (`RecreatedBehindFullQueue`, `RecreatedInQueue`, `CaughtIff`).
- An identity deleted and recreated before its checks are handled can stay tracked with nobody subscribed to
  it (`TrackedForNobody`, `OrphansIff`).
- Deleting a config changes the payload of the identities it overrode without a notice to whoever kept the
  old one (`ClearingExample`, `ClearingUnreportedIff`); the subscription itself holds the object that changed,
  and compared with that it misses nothing (`NoMissedIdentityChange`).
- An update mark can stay set with nothing queued to clear it, when the check comes while nobody is
  subscribed (`UpdateLeftMarked`, `StrandsIff`); a later subscription is right all the same
  (`SubscribedIsCurrent`).
- A config whose type comes to target routers stays as it was at a router that does not list it
  (`RetypedExample`, `FilteredAgreesIff`).
- Growing the tracker window overflows 32 bits for large windows and factors (`GrowOverflowExample`,
  `GrowRaisesIff`, `FitsIff`).
- The usage counter's flush can drop the filing of its current bucket (`UnfiledUpdateExample`,
  `UnfiledUpdateIsLost`, `FlushKeepsFiledIff`).
- An update stores a service's config list sorted, a create and the sender do not (`UnsortedUpdateExample`,
  `UpdatedOrderAgreesIff`).

Where text and code disagree the model follows the code: the tracker's configuration error asks for an
increase factor greater than 1, but 1 is accepted.

## Model

| member | source | states |
|---|---|---|
| `ReceiverRuns.AccessCountsExact` | common/router_data_model.go:242-322 | In every state reachable by a well-formed stream, with tracking switched on and off at any time, a tracked identity has an access entry for a service iff some dial or bind policy lists both, and the dial and bind counts are the numbers of those policies read off the policy table alone. |
| `ReceiverRuns.CheckCountsExact` | common/router_data_model.go:257-352 | In every reachable state an identity has a use count for a posture check iff some policy lists both and grants at least one service, and the count is the number of such policies. |
| `ReceiverRuns.InvHasEntries` | common/router_data_model.go:324-352 | For every tracked member of a policy and every service of that policy the access entry exists, so the posture index update never dereferences a missing one. |
| `ReceiverRuns.ReachableIsInv` | common/router_data_model.go:946-969 | Every reachable state satisfies the invariant: identity and policy membership mirror each other, counts are exact, and services, checks and configs know the policies and identities that refer to them. |
| `ReceiverRuns.HandleKeepsInv` | common/router_data_model.go:946-969 | Each of the ten kinds of event keeps that invariant when it is well formed for the current content. |
| `ReceiverRuns.HandleRefines` | common/router_data_model.go:946-969 | Each event moves the relational content exactly as the reference meaning says, apart from the local router collecting configs for itself. |
| `ReceiverRuns.TrackingKeepsInv` | common/router_data_model.go:2628-2647 | Switching tracking on or off keeps the invariant and the content. |
| `ReceiverRuns.BuildIsExact` | common/router_data_model.go:2333-2350 | Rebuilding access from the identity's policies gives exact counts. |
| `ReceiverRuns.RecorderCommutes` | common/router_data_model.go:2333-2350 | The order in which the policies are visited does not matter to the rebuilt access. |
| `ReceiverCounts.JoinKeepsExact` | common/router_data_model.go:269-302 | Joining or leaving a policy turns counts exact for the old memberships into counts exact for the new ones; joining twice or leaving twice changes nothing. |
| `ReceiverCounts.FollowServicesKeepsExact` | common/router_data_model.go:304-322 | Adding distinct new services to a policy, or removing distinct present ones, keeps a member's counts exact, including when the service set becomes or stops being empty. |
| `ReceiverCounts.FollowChecksKeepsExact` | common/router_data_model.go:324-352 | The same for posture checks of a policy that has services, and of one that has none. |
| `ReceiverInvariant.ChangeKeepsInv` | common/router_data_model.go:1637-1779 | A service policy change that adds live members not yet listed, or removes listed ones, keeps the invariant. |
| `ReceiverInvariant.UpsertPolicyKeepsCore` | common/router_data_model.go:1467-1504 | Updating a policy, its type included, keeps mirrors and exact counts. |
| `ReceiverInvariant.DeletePolicyKeepsCore` | common/router_data_model.go:1506-1518 | Deleting a policy keeps mirrors and exact counts. |
| `ReceiverSteps.DetachAllKeepsCore` | common/router_data_model.go:1069-1092 | The cleanup changes a delete emits for itself are well formed one after the other and keep the counts exact. |
| `ReceiverSteps.DeleteIdentityKeepsInv` | common/router_data_model.go:1062-1096 | Deleting an identity keeps the invariant: no policy lists it afterwards and no config refers to it. |
| `ReceiverSteps.DeleteIdentityRefines` | common/router_data_model.go:1062-1096 | Deleting an identity drops it and takes it out of every policy that listed it; deleting an unknown one changes nothing. |
| `ReceiverSteps.DeleteServiceKeepsInv` | common/router_data_model.go:1188-1229 | Deleting a service keeps the invariant. |
| `ReceiverSteps.DeleteServiceRefines` | common/router_data_model.go:1188-1229 | Deleting a service drops it and takes it out of every policy that listed it. |
| `ReceiverSteps.DeleteCheckKeepsInv` | common/router_data_model.go:1538-1566 | Deleting a posture check keeps the invariant. |
| `ReceiverSteps.DeleteCheckRefines` | common/router_data_model.go:1538-1566 | Deleting a posture check drops it and takes it out of every policy that listed it. |
| `ReceiverSteps.ChangeRefines` | common/router_data_model.go:1637-1779 | A service policy change adds or removes exactly the listed members of the listed kind. |
| `ReceiverSteps.DeleteConfigKeepsInv` | common/router_data_model.go:1346-1375 | Deleting a config clears the overrides that name it and keeps the invariant. |
| `ReceiverSteps.DeleteConfigRefinesIff` | common/router_data_model.go:1346-1375 | Deleting a config removes it and nothing else iff no identity it lists overrides a service with it; else the overrides go too. |
| `ReceiverOrder.DetachCommutes` | common/router_data_model.go:1090-1092 | Detaching an entity from two policies gives the same state in either order, so the order a delete visits the policies in does not matter. |
| `ReceiverLoops.RebuildAccess` | common/router_data_model.go:2333-2350 | The loops that rebuild access compute the commutative fold over the identity's policies. |
| `DiffLists.DiffStringSlices` | common/router_data_model.go:1278-1314 | The merge over the two sorted lists returns the multiset differences in both directions. |
| `RouterDataModels.RouterDataModel.HandlePolicyChange` | common/router_data_model.go:1637-1779 | The in-place handler computes the one-step specification of a service policy change. What that does to the counts is `ChangeKeepsInv`, to the content `ChangeRefines`, to the dial and bind indices `ChangeMovesIndex`, to the policy's own indices `HandleStampsPolicy`. |
| `RouterDataModels.RouterDataModel.HandleIdentity` | common/router_data_model.go:1062-1136 | The same for identity events, cleanup changes included: content by `DeleteIdentityRefines`, index and payload by `HandleMovesIdentity`. |
| `RouterDataModels.RouterDataModel.DetachFrom` | common/router_data_model.go:1090-1092 | Running the cleanup changes in whatever order they come up is the fold of detaching over the policies. |
| `RouterDataModels.RouterDataModel.HandleService` | common/router_data_model.go:1166-1276 | The same for service events, name index and config references included. |
| `RouterDataModels.RouterDataModel.HandleConfig` | common/router_data_model.go:1346-1413 | The same for config events; an unchanged config concerns nobody. |
| `RouterDataModels.RouterDataModel.HandleCheck` | common/router_data_model.go:1538-1587 | The same for posture check events. |
| `RouterDataModels.RouterDataModel.Handle` | common/router_data_model.go:946-969 | Dispatch reaches the handler of the event's kind. |
| `RouterDataModels.RouterDataModel.ApplyChangeSet` | common/router_data_model.go:865-944 | The verdict is the one of the order and gap check, an accepted change set is applied event by event, a refused one changes nothing, and a synthetic one leaves the index and is applied whatever it is (`SyntheticApplied`). |
| `RouterDataModels.RouterDataModel.EnableServiceAccessTracking` | common/router_data_model.go:2628-2639 | Tracking goes on with rebuilt access, and a second call changes nothing. |
| `RouterDataModels.RouterDataModel.FromDataState` | common/router_data_model.go:697-737 | A receiver built from a data state is the empty one with every event applied at the end index. |
| `RouterDataModels.RouterDataModel.GetDataState` | common/router_data_model.go:1818-1995 | In every state satisfying the invariant the built events are a well-formed run that rebuilds the same content from nothing, never delete, and announce the same service payloads. |
| `RouterDataModels.WellFormedHasNoNil` | common/router_data_model.go:112-122 | No event of a well-formed stream meets a missing access entry. |
| `Snapshot.BuildDataState` | common/router_data_model_sender.go:538-702 | The listed events rebuild the tables' content from nothing, announce each config, router and service once, and are well formed when the policies' members are live. |
| `Snapshot.AnnounceIdentities` | common/router_data_model.go:1849-1872 | While the identities go by, each policy collects exactly its members, each once. |
| `FullSync.LoadGivesContent` | common/router_data_model.go:697-737 | Loading a snapshot gives the content it describes, the service payloads with their config order, and the receiver's invariant. |
| `FullSync.ContentDeterminesCounts` | common/router_data_model.go:242-352 | Two receivers with the same content, configs aside, have the same memberships, posture counts and, where both track, access counts. |
| `FullSync.RestoreRoundTrip` | common/router_data_model.go:1826-1995 | Rebuilding any reachable receiver from its own data state gives back content, memberships, counts and service payloads. |
| `FullSync.ConfigDeleteExample` | common/router_data_model.go:1346-1375 | A config deleted while one identity still overrides a service with it: the receiver clears the override and the sender keeps it. |
| `FullSync.UpdatedOrderAgreesIff` | common/router_data_model.go:1278-1283 | After a service update handled by both ends, receiver and sender store the same payload iff the update listed its configs in ascending order. |
| `FullSync.UnsortedUpdateExample` | common/router_data_model.go:1278-1283 | After an update listing configs b, a the receiver holds a, b and the sender b, a. |
| `SenderModels.SnapshotAgreesWithDeltas` | common/router_data_model_sender.go:538-702 | End to end, from any sender state with live members and for a receiver of any router: loading what the sender builds after a well-formed stream that detaches before deleting agrees with loading what it built before and applying the stream, up to the configs the own router dropped. |
| `SyncAgreement.FullSyncAgrees` | common/router_data_model_sender.go:538-702 | For a receiver of any router: loading the sender's data state and applying every delta since agrees with loading the data state of the end, in entities, memberships and counts, and in configs up to exactly the set the own router lost. |
| `SyncAgreement.FullSyncAgreesIff` | common/router_data_model.go:988-1022 | The two agree outright iff every config an update of the own router dropped was announced again; so always for a receiver without a router of its own. |
| `SyncAgreement.LostIff` | common/router_data_model.go:1002-1021 | A config is lost iff an update of the own router took it off the list while it was there and neither an event about it nor a list the sender resends brought it back since. |
| `SyncAgreement.ReplicaLoses` | common/router_data_model.go:865-944 | A replica that follows the log has the sender's configs less exactly those lost over the change sets it took. |
| `SyncAgreement.LockstepHoldsShared` | common/router_data_model_sender.go:459-536 | Fed filtered change sets, a router keeps its invariant and the sender's content, configs aside, after every one. |
| `SyncAgreement.FilteredSyncAgrees` | common/router_data_model_sender.go:434-536 | A router loaded from its filtered snapshot and fed filtered change sets agrees with one loaded from the filtered snapshot of the end in entities, memberships, counts and router-target configs. |
| `SyncAgreement.FilteredAgreesIff` | common/router_data_model_sender.go:459-536 | Config by config, whatever its types were: the two hold the same iff a config the snapshot has was not lost to the own router, which none of a router-target type is, and one the snapshot lacks was taken from the first after it was last brought. |
| `SyncAgreement.RetypedExample` | common/router_data_model_sender.go:509-536 | A config retyped to target routers is withheld from a router that does not list it; the router keeps the old version and a new snapshot would not have it. |
| `SyncAgreement.FilteredReplicaAgrees` | common/router_data_model.go:907-944 | Offered any dropped, duplicated or reordered selection of change sets, each filtered with whatever the sender knew at the time, a router holds the sender's content, configs aside, as of its own index. |
| `SenderModels.RouterDataModelSender.HandleServicePolicyChange` | common/router_data_model_sender.go:327-382 | The in-place handler computes its one-step specification; an unknown identity gets an empty entry. |
| `SenderModels.RouterDataModelSender.Handle` | common/router_data_model_sender.go:163-186 | Dispatch reaches the handler of the event's kind. |
| `SenderModels.RouterDataModelSender.ApplyChangeSet` | common/router_data_model_sender.go:128-161 | The change set is logged and applied iff it is synthetic or newer than the head, and the one sent on carries the index it follows. |
| `SenderModels.RouterDataModelSender.GetDataState` | common/router_data_model_sender.go:421-427 | The built events describe the sender's content, at the log's current index. |
| `SenderModels.RouterDataModelSender.FilterEventsForRouter` | common/router_data_model_sender.go:459-536 | The result is the per-event filter whether or not the fast path was taken, and "unchanged" means equal. |
| `SenderModels.RouterDataModelSender.GetDataStateForRouter` | common/router_data_model_sender.go:434-443 | The router's snapshot is the filter of a description of the sender's content. |
| `SenderSpec.RunRefines` | common/router_data_model_sender.go:163-186 | Over every well-formed stream that detaches before deleting, the sender's content is the reference content. |
| `SenderSpec.PolicyReuseAgreesIff` | common/router_data_model_sender.go:273-275 | Deleting a policy and creating it again under the same id follows the reference iff the policy had no identities. |
| `SenderSpec.PolicyReuseExample` | common/router_data_model_sender.go:273-275 | One identity of a deleted policy is back when the policy id is created again. |
| `SenderSpec.CheckDeleteAgreesIff` | common/router_data_model_sender.go:298-304 | Deleting a posture check follows the reference iff no policy lists it. |
| `SenderSpec.CheckDeleteExample` | common/router_data_model_sender.go:298-304 | A policy still lists a deleted posture check. |
| `SenderSpec.EmptyEntryIff` | common/router_data_model_sender.go:335-347 | A membership change files an empty entry iff it names an unknown identity. |
| `SenderSpec.EmptyEntryExample` | common/router_data_model_sender.go:335-347 | A membership change on an empty sender files an entry that holds no identity. |
| `EventLog.StoredIff` | common/event_cache.go:113-152 | A change set is stored iff it is numbered and beyond the head; it is then the head and names the one before. Otherwise nothing changes. |
| `EventLog.HeadIsLargest` | common/event_cache.go:113-152 | After any offers the head is the largest numbered index offered, or the one the log began with. |
| `EventLog.ReplayIsExact` | common/event_cache.go:165-237 | For a log reset only before its first store: a successful replay returns every change set ever stored from the start index on, in order and at least one; it succeeds from the oldest retained change set to the head; it reports the future iff the start is beyond the head. |
| `EventLog.ReplayGrantedIff` | common/event_cache.go:165-188 | A replay from the index after a logged one succeeds iff the log still retains the change set that follows, which from the base of a log not yet full must also bear the next number. |
| `EventLog.ReplayCatchesUp` | common/router_data_model.go:921-937 | A receiver standing at any index whose next change set the log retains is granted its replay, passes every order and gap check and ends at the head. |
| `EventLog.RouterCatchesUp` | controller/sync_strats/rtx.go:236-246 | A replay from the own index of a router, an index the sender has held, succeeds iff that change set is retained; it then begins with that one, and the rest, once it is dropped, is exactly what the router lacks and takes. |
| `EventLog.BlindDropIff` | controller/sync_strats/rtx.go:242-246 | Dropping the first change set of a replay leaves all later than the index asked for iff that index is one the log holds. |
| `EventLog.FreshRuns` | common/event_cache.go:113-152 | Every log reset only before its first store is one of those logs. |
| `EventLog.StoreKeepsChained` | common/event_cache.go:113-152 | Storing keeps indices increasing and every change set naming its predecessor. |
| `EventLog.LateResetExample` | common/event_cache.go:90-98 | A reset after a store can let a replay succeed although the change set asked for is gone. |
| `EventLog.ResetIsSafeIff` | common/event_cache.go:90-98 | Replays that reach behind a reset are refused iff there was no smallest index yet, or it lay beyond the reset, or the log has filled up since. |
| `EventCaches.LoggingEventCache.SetCurrentIndex` | common/event_cache.go:90-98 | A reset forgets the events, sets the index and leaves the smallest replayable index. |
| `EventCaches.LoggingEventCache.Store` | common/event_cache.go:107-152 | Synthetic change sets pass through, older ones are refused, the others are linked to their predecessor and logged, evicting the oldest. |
| `EventCaches.LoggingEventCache.FindSlot` | common/event_cache.go:189-211 | The position search finds the slot of every retained index. |
| `EventCaches.LoggingEventCache.ReadFrom` | common/event_cache.go:217-236 | Reading from a slot to the head, wrapped or not, gives the retained change sets from its index on, in order. |
| `EventCaches.LoggingEventCache.ReplayFrom` | common/event_cache.go:165-237 | The replay over ring and map is the replay of the log specification. |
| `EventCaches.RingStore` | common/event_cache.go:113-152 | Writing the next slot keeps the ring laying out the log, and the slot held what the log evicts. |
| `Replication.OnlyNextAccepted` | common/router_data_model.go:907-944 | A receiver standing at a positive index of the sender's history accepts a change set of that history iff it is the next one. |
| `Replication.ReplicationSafe` | common/router_data_model.go:907-944 | Offered any dropped, duplicated or reordered selection of the history, the receiver is always the history folded up to its own index. |
| `Replication.ReplicaAgrees` | common/router_data_model.go:865-944 | A receiver loaded from the snapshot of a sender that started from any content, and offered any such selection, holds the sender's content as of its own index, apart from configs its own router dropped. |
| `Replication.EmptyReceiverFollowsIff` | common/router_data_model.go:921-937 | At index 0 any change set is accepted. Offered any selection, what it takes is without a gap from 0 iff the log began at index 0 and the first offer is the first change set stored; then its state is the history folded up to its own index. |
| `Replication.EmptyReceiverExample` | common/router_data_model.go:921-937 | An empty receiver offered the second of two change sets before the first ends at its index without the identity the first creates. |
| `Replication.HandleHoldsContent` | common/router_data_model.go:946-969 | Each event keeps a receiver's content equal to the reference, up to the configs its own router collects. |
| `ReceiverStore.UnchainedReachLargest` | common/router_data_model.go:918-936 | Change sets that do not name the one before are taken whenever they are beyond the receiver's index: it ends at the largest it was offered. |
| `SyntheticChanges.SyntheticApplied` | common/router_data_model.go:907-916 | A receiver at any index applies a synthetic change set well formed for its content: the content afterwards is the reference run over its changes, own configs as collected, the invariant holds and the index is unchanged. |
| `SyntheticChanges.SyntheticDisturbsNothing` | common/router_data_model.go:907-916 | Wherever synthetic change sets come among the offers, all of them are taken, and which numbered ones are taken, and where the receiver stands, is as without them. |
| `SyntheticChanges.InterleavedFollows` | common/router_data_model.go:907-944 | So a receiver in step with the log still takes a contiguous run of it, and holds everything it took, in order. |
| `SyntheticChanges.InterleavedContent` | common/router_data_model.go:907-944 | Its content is the reference run over the changes it took. |
| `SyntheticChanges.KeysArrive` | controller/sync_strats/sync_instant.go:873-892 | The keys a controller sends when a router connects are then there, and nothing else has changed. |
| `SyntheticChanges.ReplicaAgreesBetweenKeys` | controller/sync_strats/sync_instant.go:873-892 | With such change sets in between, a router loaded from a snapshot holds, keys and its own configs aside, the sender's content at its own index, whatever selection of the log it is offered. |
| `ConfigFilter.EachSentInTurn` | common/router_data_model_sender.go:445-536 | Event after event: a router-target config the router does not list is left out whatever the action, an update of its own entity is preceded by a create of each config it lists that the sender has, in order, and everything else is sent as it is. |
| `ConfigFilter.FastPath` | common/router_data_model_sender.go:487-507 | When the scan finds nothing to do, the rebuild would return the input unchanged. |
| `ConfigFilter.SnapshotInStep` | common/router_data_model_sender.go:434-443 | A router loaded from its filtered snapshot satisfies its invariant and has the sender's content with exactly the router-target configs its own entity lists. |
| `ConfigFilter.LockstepKeepsStep` | common/router_data_model_sender.go:459-536 | Applying each filtered change set right after the sender applied it keeps the two in step, whatever the change sets contain. |
| `ConfigFilter.ConfigsConverge` | common/router_data_model.go:988-1022 | After the filtered snapshot and any lockstep run in which router-target types stay fixed and the own entity is not deleted, the router's router-target configs are exactly those the sender's entity for it lists. |
| `ConfigFilter.OwnDeleteInStepIff` | common/router_data_model.go:989-992 | Deleting the router's own entity keeps the two in step iff the router had no router-target configs. |
| `ConfigFilter.OwnDeleteExample` | common/router_data_model.go:989-992 | A router with one config of its own is out of step once its entity is deleted. |
| `ServiceLists.BuildServiceListUsingDenormalizedData` | common/router_data_model.go:2247-2281 | The fast list has an entry for each access entry of a live service, with flags and indices from the counts, and the live counted checks. |
| `ServiceLists.BuildServiceList` | common/router_data_model.go:2283-2331 | The plain list has exactly the live services of the identity's policies, each with the permissions some policy grants and the latest index, and exactly the checks demanded. |
| `ServiceLists.FastListRefinesPlain` | common/router_data_model.go:2247-2331 | In every reachable state, for a tracked identity, both lists have the same services with the same configs and permissions, and the same checks. |
| `IdentityViews.ShownDecidesLists` | common/router_data_model.go:2247-2281 | Two states that show an identity the same payload, services, permissions, indices, loaded configs and checks give the same fast lists, however configs are combined. |
| `IdentityViews.PlainListShows` | common/router_data_model.go:2283-2331 | The plain list a subscription starts from shows the same as the fast one, policy indices aside. |
| `PolicyIndex.HandleMoves` | common/router_data_model.go:89-122 | Through any event an access entry's policy index stays within the event's index and its old value, and where a count stays positive it reaches the event's index if the count changed and does not fall otherwise. |
| `PolicyIndex.RunBounded` | common/router_data_model.go:89-122 | After a run no stored index is beyond the largest index applied. |
| `AccessIndex.ChangeMovesIndex` | common/router_data_model.go:242-352 | For every tracked identity, service and policy type a service policy change raises the stored index to its own exactly where it adds or removes what joins the two through a policy of that type, or is to the posture checks of one that does; every other index stays. |
| `AccessIndex.PostureChangeMoves` | common/router_data_model.go:112-122 | A change to a policy's posture checks, for each tracked member and each service of the policy: both counts stay, the index of the policy's type is raised to the change's, the other index stays. |
| `AccessIndex.AddedServicesMove` | common/router_data_model.go:304-322 | Services added to a policy, its first ones included: each is counted once more for the policy's type, with that index raised, and the other count and index stay. |
| `AccessIndex.ConcernsIff` | common/router_data_model.go:1637-1779 | A change concerns an identity and a service exactly when it changes which policies grant the service or which checks one of them demands, or names no posture check at all. |
| `AccessIndex.EventMovesIndex` | common/router_data_model.go:89-122 | The same for all ten kinds of event, cleanup changes and type flips included: while a policy of the type grants the service its index reaches the event's where the event hits, and stays otherwise. |
| `AccessIndex.HitsIff` | common/router_data_model.go:946-969 | An event hits exactly when it changes the granting policies or the checks they demand, read off the policy table, or is a posture change that names none. |
| `AccessIndex.RunMovesIndex` | common/router_data_model.go:89-122 | Over any run with tracking on, the index of a service still allowed is the one found at the start, or beyond the start exactly when some event of the run hit it. |
| `AccessIndex.NoMissedPolicyChange` | common/router_data_model.go:89-122 | If the dial (or bind) policies granting a still allowed service, or the posture checks they demand, differ between two syncs separated by the change sets' indices, the second stored index is larger than the one recorded. |
| `AccessIndex.PolicyChangeIsAnnounced` | common/subscriber.go:375-384 | In that case the comparison of the two lists emits the dial (or bind) policies-changed notice. |
| `AccessIndex.PolicyNoticeIff` | common/subscriber.go:375-384 | Between two syncs that list from the counts, the notice for a still allowed service is sent iff some event in between hit it. |
| `VersionStamps.HandleStampsService` | common/router_data_model.go:2548-2565 | Each event leaves every service with its payload and index, but for its own create or update, which stamps it, and for a changed config or config type, which raises the index of the services its configs list. |
| `VersionStamps.HandleStampsCheck` | common/router_data_model.go:1538-1587 | Only its own create or update moves a posture check's index and payload. |
| `VersionStamps.HandleStampsConfig` | common/router_data_model.go:1316-1413 | Only its own create or update moves the index and payload of a config, and of a config type. |
| `VersionStamps.HandleStampsPolicy` | common/router_data_model.go:2573-2626 | Which of a policy's two indices each event sets, raises or clears: a member change sets its own, an update of a linked service, config or check raises, an update of the policy sets the first and clears the second. |
| `VersionStamps.RunStampsPolicy` | common/router_data_model.go:2573-2626 | Over any run the later of the two is beyond the start exactly when some event touched the policy or something linked to it. |
| `VersionStamps.BuildShowsLatest` | common/router_data_model.go:2333-2350 | A rebuilt access entry shows for each type the latest index among the policies of that type that grant the service. |
| `VersionStamps.RebuiltIndexIff` | common/router_data_model.go:2628-2639 | When tracking is turned on, an entry's index is beyond an earlier point iff some granting policy was touched since. |
| `EntityLinks.HandleMovesLinks` | common/router_data_model.go:1138-1164 | The references from a config: a service is linked to the configs its list comes to name while they are there, until the list names them no more; an identity to the configs its payload names; no other event makes or ends a link. |
| `EntityLinks.HandleMovesPolicyLinks` | common/router_data_model.go:1637-1779 | A service, and a posture check, knows the policies it was added to and not removed from since. |
| `EntityLinks.ReachableLinksListed` | common/router_data_model.go:1166-1276 | In every reachable state a config is linked only to services that list it. |
| `QueuedChecks.QueuedIff` | common/router_data_model.go:2447-2463 | An event queues an update check for an identity iff it is its own update, joins it to a policy or takes it out, reaches a policy it is in through a linked service, config, posture check or member, or changes a config that overrides a service for it. |
| `IdentityVersions.HandleMovesIdentity` | common/router_data_model.go:1098-1136 | Every create or update leaves the identity with the event's index and payload; every other event leaves the index, and the payload but for overrides naming a deleted config that listed it. |
| `IdentityVersions.ClearedOverrides` | common/router_data_model.go:1355-1367 | Clearing a config takes exactly the overrides that name it and leaves no service without one. |
| `IdentityVersions.RunMovesIdentity` | common/router_data_model.go:1108-1108 | After any run an identity has an index beyond the start iff the run created or updated it; otherwise its index is as before and its payload lacks only the deleted configs. |
| `IdentityVersions.UpdateReportedIff` | common/subscriber.go:348-352 | The second of two passes reports an identity update iff the identity was created or updated in between and shows another payload than the one held. |
| `IdentityVersions.NoMissedIdentityChange` | common/subscriber.go:348-352 | With the identity object as the subscription holds it, an update is reported iff the payload differs from the one held. |
| `IdentityVersions.ClearingUnreportedIff` | common/router_data_model.go:1355-1369 | Whoever kept the first payload is not told of a change iff nothing created or updated the identity and a deleted config was among its overrides. |
| `IdentityVersions.ClearingExample` | common/router_data_model.go:1355-1369 | One override and the deletion of its config is such a run. |
| `CheckNotices.RunStampsCheck` | common/router_data_model.go:1567-1587 | A posture check that is there after a run was created or updated by it, with an index beyond the start, or is as it was. |
| `CheckNotices.BothListsTakeChecks` | common/router_data_model.go:2249-2350 | Both ways of listing take their posture checks from the model as they are there. |
| `CheckNotices.DeltaIs` | common/subscriber.go:391-404 | Of each posture check a pass reports that it came, that it went, or that it was created or updated since the last one, and of no other anything. |
| `CheckNotices.PostureNoticeIff` | common/subscriber.go:406-412 | The posture notice is sent iff one of these is the case for some check. |
| `NameIndex.NameIndexSound` | common/router_data_model.go:1188-1276 | With non-empty names every entry of the name index points at a live service bearing that name, after any mix of events. |
| `NameIndex.NameIndexComplete` | common/router_data_model.go:1188-1276 | On streams that keep names unique every live service is found under its name. |
| `NameIndex.DeletePointsRightIff` | common/router_data_model.go:1219-1225 | A delete keeps every entry right iff the deleted service is not the nameless one the index points at. |
| `NameIndex.RenamePointsRightIff` | common/router_data_model.go:1264-1270 | An update keeps every entry right iff it does not name a nameless service the index points at. |
| `NameIndex.NamelessExample` | common/router_data_model.go:1219-1225 | A nameless service leaves its entry when deleted, and when renamed. |
| `Notifications.Equals` | common/subscriber.go:87-142 | The comparison is true iff permissions and configs agree and, where the service versions differ, name, encryption and config lists do. |
| `Notifications.CheckDeltaApplies` | common/subscriber.go:391-404 | Applying the posture delta to the old check ids gives the new ones. |
| `Notifications.ReportsKeepMirror` | common/subscriber.go:295-413 | Between two views with one service version per index, the notices turn a mirror of the first into a mirror of the second. |
| `Notifications.MirrorStaysTrue` | common/subscriber.go:295-413 | A listener that starts from the full state and applies every notice always holds the subscription's services. |
| `Notifications.MirrorsCompareEqual` | common/subscriber.go:87-142 | Mirrored services compare equal to those held. |
| `Notifications.NoticeCarries` | common/subscriber.go:354-384 | Every service notice carries the service as the view before had it and as the one after has it, and is of the kind the difference calls for. |
| `ServiceVersions.HandleMovesVersions` | common/router_data_model.go:2548-2565 | Each event either stamps a service or posture check with its index or leaves both its index and its payload. |
| `ServiceVersions.OneVersionPerIndex` | common/subscriber.go:90-112 | Between lists taken at and after a change set boundary, a service or posture check that shows the same index shows the same payload, so comparing by index misses nothing. |
| `ServiceVersions.MirrorFollowsRun` | common/subscriber.go:295-413 | Over any run, a listener that starts from the first view and applies every notice of passes taken at increasing change set boundaries always holds the services the subscription holds. |
| `Subscriptions.IdentitySubscription.CheckForChanges` | common/subscriber.go:295-413 | The new view is the model's fast list, and the notices are exactly those the difference to the old view calls for; an identity seen for the first time is tracked from then on. |
| `Subscriptions.IdentitySubscription.Initialize` | common/subscriber.go:242-260 | The first view is the plain list, tracking goes on, and a later call leaves the view. |
| `Subscriptions.IdentitySubscription.IdentityRemoved` | common/subscriber.go:216-240 | The view is dropped, with a notice iff there was one. |
| `Subscriptions.TellChanges` | common/subscriber.go:349-412 | Every service gets its loss, gain, edit and policy notices and no others, and the identity its update and posture notices. |
| `SyncChecks.NoLostCheck` | common/router_data_model.go:2447-2546 | From any state, every check bit of an identity that stays subscribed is backed by a queued event of its kind or a pending scan, however full the queue gets, unless it was already set with neither. |
| `SyncChecks.StrandsIff` | common/router_data_model.go:2489-2501 | A step leaves a set bit with neither iff it handles the last queued update check of a marked identity that has no subscription, with no scan pending. |
| `SyncChecks.OnlyUpdatesStrand` | common/router_data_model.go:2503-2546 | Marks of creations and deletions are backed in every reachable state. |
| `SyncChecks.CaughtIff` | common/router_data_model.go:2489-2546 | A step keeps a subscription current, or marked with a backed bit, unless it handles a delete of an identity that is back with no other bit backed or in a scan, or applies an event that is missed while no bit is backed; exactly then it loses it. |
| `SyncChecks.IdleIsCurrent` | common/router_data_model.go:818-852 | With the queue drained and no scan pending, a subscription that lost no recreated identity and missed no event shows the model's payload, services, resolved configs, permissions and checks as they are. |
| `SyncChecks.SubscribedIsCurrent` | common/router_data_model.go:2162-2193 | That holds for every subscription from an empty model on, whatever happened before it and whatever marks an earlier one left. |
| `SyncViews.ViewStays` | common/router_data_model.go:2162-2209 | A step that handles no check or sync of a subscription and neither begins nor ends it leaves it and its view alone; a second subscriber does not disturb the first. |
| `SyncViews.ViewIsTaken` | common/router_data_model.go:2503-2531 | A view that changes is what the model shows after the step: from the plain list for a subscription that saw nothing when it begins or learns of a creation, from the counts otherwise. |
| `SyncViews.OrphansIff` | common/router_data_model.go:2195-2209 | A step keeps every tracked identity subscribed to, unless it handles a delete of an identity that is back and tracked, and is no router's. |
| `SyncViews.TrackedIsSubscribed` | common/router_data_model.go:2195-2209 | So in every run without such a step only identities somebody subscribes to are tracked. |
| `MissedChanges.MissedIff` | common/router_data_model.go:946-1779 | For every event and tracked identity: what is shown changes and no check is queued iff a policy of the identity changes type where that shows, or a config the identity depends on resolves differently and none of the links the event follows leads to the identity. |
| `MissedChanges.FlipShownIff` | common/router_data_model.go:1467-1504 | A change of policy type shows to a member iff for some service of the policy it was the last grant of its type, is the first of the other, or brings a newer index. |
| `MissedChanges.NewFlipMissedIff` | common/router_data_model.go:1467-1504 | With an index no entry has seen that is iff the policy has services. |
| `MissedChanges.ReloadsIff` | common/router_data_model.go:2405-2425 | An event changes how a config resolves iff it renames, adds or deletes its type, changes or deletes it, or takes it off the own list. |
| `MissedChanges.LinkedMissedIff` | common/router_data_model.go:1319-1413 | With configs linked to what names them, a config change is missed iff a config type is deleted, the own router drops the config, or the config arrives after what names it. |
| `MissedChanges.UncheckedIsQuiet` | common/router_data_model.go:2548-2626 | An event that queues no check for an identity, and is no type change of one of its policies, leaves the identity, its services and its checks as they are. |
| `SyncCheckExamples.FlipGoesUnseen` | common/router_data_model.go:1492-1499 | From any state that knows none of them: a service, an identity and a dial policy for both are made, the identity is subscribed to, and the policy becomes a bind policy. Nothing is queued and the subscription goes on showing dial. |
| `SyncCheckExamples.RecreatedBehindFullQueue` | common/router_data_model.go:833-836 | From any state that does not know the identity: subscribed to, created, updated until the queue is full, deleted and created again, scanned, drained. The router identity is there and its subscription is empty. |
| `SyncCheckExamples.RecreatedInQueue` | common/router_data_model.go:2503-2546 | The same with three events in the queue: the one Added bit is spent on the first creation. |
| `SyncCheckExamples.TrackedForNobody` | common/router_data_model.go:2533-2546 | From any state that does not know it, an identity subscribed to, created, deleted and created again is tracked, with nobody subscribed to it, once the first two checks are handled. |
| `SyncCheckExamples.UpdateLeftMarked` | common/router_data_model.go:2489-2501 | Subscribed to, updated, unsubscribed from, checked and subscribed to again, an identity keeps its update mark with nothing queued and no scan pending. |
| `RateTracker.SlotsConserved` | controller/command/rate_limiter.go:638-816 | For every configuration and over every interleaving of acquire, the three completions and the expiry sweep: size equals the outstanding items and lies in [0, maxWindow], the window is at most maxWindow, and each item frees its slot once if it is done and never otherwise. |
| `RateTracker.AdmittedIff` | controller/command/rate_limiter.go:709-729 | In every reachable state an acquire gets a slot iff fewer items than the window are outstanding, and otherwise leaves everything as it was; the tracker reports itself limited in exactly those states. |
| `RateTracker.FirstClaimWins` | controller/command/rate_limiter.go:785-816 | An item is completed with the outcome of the first caller to claim it, the expiry sweep included, and with no other. |
| `RateTracker.SweepReachesAll` | controller/command/rate_limiter.go:755-783 | Every item a sweep has listed is claimed once the sweep is through. |
| `RateTracker.GrowsTo` | controller/command/rate_limiter.go:647-659 | A grow step that fits goes to the scaled window, by one at least and to the maximum at most. |
| `RateTracker.ShrinksTo` | controller/command/rate_limiter.go:674-687 | A shrink step goes to the scaled window, to the minimum at least. |
| `RateTracker.WindowMovesIff` | controller/command/rate_limiter.go:638-691 | A finished item moves the window exactly at every n-th success, counted over the run, with the success rate above the threshold, or every n-th backoff with it below, and then as far as that says. |
| `RateTracker.WindowStaysInBounds` | controller/command/rate_limiter.go:638-700 | Where scaling the largest growable window fits 32 bits, the window stays between its bounds over every interleaving. |
| `RateTracker.WindowMoves` | controller/command/rate_limiter.go:638-700 | A success moves the window only strictly up, a backoff only strictly down, and nothing else moves it. |
| `RateTracker.GrowRaisesIff` | controller/command/rate_limiter.go:647-659 | A grow step raises the window within bounds, whatever the platform makes of an overflow, iff the scaled window fits 32 bits. |
| `RateTracker.GrowOverflowExample` | controller/command/rate_limiter.go:652-659 | A doubled window of 0x6000_0000 can fall below the minimum. |
| `RateTracker.FitsIff` | controller/command/rate_limiter.go:647-659 | That holds for every window of a configuration iff scaling the largest growable window fits. |
| `RateTracker.ShrinkLowers` | controller/command/rate_limiter.go:674-687 | Every shrink step lowers the window and stays at or above the minimum. |
| `RateLimiter.NeverBounced` | controller/command/rate_limiter.go:350-385 | In every reachable state a caller that passed the window check finds queue space, or the close notice is out and ends its select: the rejection of the default case is never taken, before shutdown or after. |
| `RateLimiter.WindowWithinBounds` | controller/command/rate_limiter.go:317-348 | Whenever the lock is free the window is within its bounds and the size is the number of callers counted, at most maxWindow. |
| `RateLimiter.AdmittedIff` | controller/command/rate_limiter.go:350-366 | A caller is admitted iff the callers counted when it entered, itself included, are no more than the window; one that is refused is counted no longer. |
| `RateLimiter.NobodyBounced` | controller/command/rate_limiter.go:368-385 | In no run is a caller told that the queue was full. |
| `RateLimiter.QueueIsFifo` | controller/command/rate_limiter.go:368-418 | The queue is what was handed in, in order, without what the worker took. |
| `RateLimiter.WorkAnswersOldest` | controller/command/rate_limiter.go:387-418 | The worker takes the oldest, and runs it unless its position is more than ten above the window by then; nobody else is answered. |
| `RateLimiter.RaisedIff` | controller/command/rate_limiter.go:317-330 | A success raises the window iff it is a tenth one of the run, as a 32-bit counter has it, and the window is not at its maximum; then by one. |
| `RateLimiter.LoweredTo` | controller/command/rate_limiter.go:332-348 | A backoff lowers the window to ten below the caller's position, no lower than the minimum, and never raises it. |
| `RateLimiter.OthersLeaveWindow` | controller/command/rate_limiter.go:317-348 | Nothing but a success or a backoff moves the window. |
| `MetricBuckets.UpdateConserves` | common/servermetrics/interval_counter.go:74-108 | An update, late or not, adds its value to its own interval and id and nowhere else, and keeps the current bucket filed. |
| `MetricBuckets.UpdateMovesOn` | common/servermetrics/interval_counter.go:90-108 | The current interval is the latest one given a value, and nothing else opens a bucket. |
| `MetricBuckets.ReportedIff` | common/servermetrics/interval_counter.go:110-118 | An interval is reported iff its bucket has values and it is before the current interval or not after the threshold; once, with those values. |
| `MetricBuckets.FlushLeaves` | common/servermetrics/interval_counter.go:114-126 | After a flush only the current interval can have values, and only if it is after the threshold; which empty buckets are left is said for both kinds of counter. |
| `MetricBuckets.FlushConserves` | common/servermetrics/interval_counter.go:110-126 | What a flush reports and what it leaves add up to what was there. |
| `MetricBuckets.FlushKeepsFiledIff` | common/servermetrics/usage_counter.go:129-147 | A flush keeps the current bucket filed iff it is not a usage counter meeting an empty, aged-out current bucket. |
| `MetricBuckets.UnfiledUpdateIsLost` | common/servermetrics/usage_counter.go:142-143 | From any counter whose current bucket is filed, aged out and empty: in every run after the flush, what is reported and pending for that interval is exactly what was given once it was no longer current; what was given while it was is in neither. |
| `MetricBuckets.UnfiledUpdateExample` | common/servermetrics/usage_counter.go:129-147 | A new counter flushed before its first update loses that update. |
| `MetricBuckets.AddIntervalBucketEvents` | common/servermetrics/message.go:162-174 | Building a message gathers each counter's buckets under its name, in order, on top of what was there. |
| `MetricBuckets.BuiltCarries` | common/servermetrics/message.go:162-174 | A message built from nothing carries exactly the bucket events of each counter. |
| `MetricBuckets.MetricsConserved` | common/servermetrics/usage_registry.go:167-243 | Over any run the updates given for a counter, interval and id add up to what the messages sent and the pending buckets hold. |
| `MetricBuckets.FinishedIsSent` | common/servermetrics/usage_registry.go:167-243 | After a flush the messages carry, for every interval that is finished or old enough, all it was ever given. |
| `MetricCounters.BucketCounter.Update` | common/servermetrics/interval_counter.go:74-84 | Writing through the shared bucket is the update of the value model, and no bucket is filed twice. |
| `MetricCounters.BucketCounter.FlushIntervals` | common/servermetrics/interval_counter.go:110-126 | The in-place flush is the one of the value model, reports each due bucket once, and no reported bucket stays in use; which are due is `ReportedIff`, what is left is `FlushLeaves`. |
| `MetricCounters.Reporter.Update` | common/servermetrics/usage_registry.go:167-182 | No later update changes a bucket already reported. |
| `MetricCounters.Reporter.Flush` | common/servermetrics/usage_registry.go:167-182 | No later flush changes one either, and the new reports come after the old ones. |
| `AsyncLog.OneCounterPerLevel` | common/logging/handler.go:291-311 | Each level counts in exactly one counter, that of the last canonical level it reaches. |
| `AsyncLog.CallReturnsIff` | common/logging/handler.go:101-120 | A call below the threshold queues its record where there is room and drops it where there is none; any other waits for room until the close is announced. |
| `AsyncLog.LateCallHasNoEffect` | common/logging/handler.go:101-104 | A call that begins after the close never has any effect. |
| `AsyncLog.EveryRecordAccounted` | common/logging/handler.go:101-120 | Every record whose Handle returned before Close is in exactly one of queue, flight, delivered, live, swapped or summarised drops, and among the drops only below the blocking threshold. |
| `AsyncLog.CountersExact` | common/logging/handler.go:249-285 | Each live counter is the number of dropped records of its levels no summary has taken. |
| `AsyncLog.DeliveredInOrder` | common/logging/handler.go:170-193 | Of two records in the order they were queued, the later delivered: the earlier was delivered before it iff it was not in flight while a synchronous emit flushed the later one. |
| `AsyncLog.OvertakingExample` | common/logging/handler.go:170-193 | A record pulled by the drain is written after one queued later, which a synchronous emit flushes first. |
| `AsyncLog.NothingLeftBehind` | common/logging/handler.go:199-224 | When the drain has ended, every such record is delivered or counted in a written summary. |
| `AsyncLog.SummaryTakesAll` | common/logging/handler.go:249-285 | A summary, the final one included, takes every drop of every level counted when it was begun. |
| `AsyncLog.DrainMoves` | common/logging/handler.go:199-224 | Once the close is announced and nobody else is at work, the drain, its ticker aside, always has a step to take, and every step brings the end nearer. |
| `AsyncLog.DrainEnds` | common/logging/handler.go:199-224 | From every such state it ends, within a number of steps the state gives. |
| `AsyncLog.OneWriter` | common/logging/handler.go:170-193 | While a synchronous emit holds the downstream lock nobody else writes. |
| `AsyncLog.EmitFlushesFirst` | common/logging/handler.go:170-193 | A synchronous emit writes its record after everything queued when it took the lock, save the one in flight. |
| `RelationalView.RunKeepsCoherent` | common/router_data_model.go:946-969 | Well-formed runs keep every policy listing live entities only. |

## Left out

- Integer widths: indices, counts and metric sums are unbounded, except the 32-bit window arithmetic of the rate limit tracker and the 32-bit success and backoff counters.
- Floating point: the tracker's factors are reals; rounding is not modelled, truncation and the 32-bit conversion are.
- Locks: each handler is one atomic step under the model's lock; the locking of map shards and the nesting of identity locks are not modelled.
- Iteration: map iteration visits each key once in any order; keys added or removed while it runs are not modelled.
- Sharing of payloads: events carry values. Sorting a config list in place through an event or an old service version, and clearing an override map an event still holds, are not seen through the other reference.
- Subscription views hold values of identities, services and checks; changes to an identity object they still point at are not seen through the view. `NoMissedIdentityChange` takes the object as it then is.
- How the loaded configs of a service combine, by type name and with overrides in map order, is a parameter of both list builders; which configs those are, and how each loads, is modelled.
- Config targets: a router's own configs are those whose type targets routers; the managed-config apply and remove dispatch is not modelled.
- Sync checks: an event and the checks it queues are one step, in any order; `Unsubscribe` is the last listener of a subscription leaving; replacing the whole model, which syncs every subscription, is not a step.
- Usage messages carry no counter name in the source; the model files every message's buckets under the name of the counter they come from.
- Listeners, timeline ids, the terminator id cache, `InheritLocalData`, validation, diffs, `ToMap`, and saving to and loading from files.
- Public keys are opaque payloads; parsing and caching them is not modelled. Neither are the revocation lookups.
- The success histogram, expiry times and the wall clock are inputs of the rate limit steps and of the flush threshold.
- `DefaultRateLimiter` and the no-op limiters: a plain bounded queue and nothing.
- Disposal of counters, the tags of usage sources, and the message queue between the registry and its sink.
- The text of drop summaries, downstream errors, and attributes and groups of the log handler.
- RouterDataModels.RouterDataModel.HandlePolicyChange: requires that the access entries it dereferences exist, because the source would panic; `WellFormedHasNoNil` shows that a well-formed stream meets this.
- RouterDataModels.RouterDataModel.HandleCheck: the same requirement, for the cleanup changes of a delete.
- RouterDataModels.RouterDataModel.Handle: the same requirement, passed on from the handlers it dispatches to.
- RouterDataModels.RouterDataModel.ApplyChangeSet: the same requirement, for each event of an accepted change set in turn.
- RouterDataModels.RouterDataModel.FromDataState: the same requirement, for each event of the data state in turn.
- SenderModels.RouterDataModelSender.GetDataState: requires that no identity entry is empty, because the source would dereference it; `EmptyEntryIff` says when one appears.
- SenderModels.RouterDataModelSender.GetDataStateForRouter: the same requirement.
- AccessIndex.NoMissedPolicyChange: takes the second sync from the tracked counts, which is what every pass after the first uses.
