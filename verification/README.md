# Verified model of the CueBooth server's concurrent core

The server relays a Companion button surface and a replicated state object to any number of
WebSocket clients, shares one rotating chat credential between concurrent callers, and rate-limits
the route that starts a browser authorization. This project models those four cores in Dafny and
proves what they are for, over every run.

**Surface relay.** A connection's send queue throws button frames away: a render replaces the one
queued for its key, and a layout removes the renders it supersedes. `SurfaceLane` proves that a
client cannot tell, and exactly when it could. `SendQueue` is the queue as the program keeps it (a
list of elements, an index by key and a layout pointer, changed in place), proved to be that lane.
`SurfaceRelay` is the surface manager, the hub and the clients as a transition system whose steps
are the ones the locks leave open, and proves that every caught-up client agrees with the cache.
`WriteLoop` proves that no wake-up is lost. `SurfacePress` covers the way back: presses, failed
deliveries, disconnects and changing grids.

**Replicated state.** `MergePatch` is patch generation, patch application by section 2 of RFC 7396,
and topic filtering. `StateStore` is the store as an object, and `StateReplica` the store, the hub
and per-client replicas as a transition system, through connects, resubscriptions, re-syncs and
overflow. `RevisionGaps` says which clients can see a revision gap although nothing was lost.

`Connections` holds the connected clients, the hub and the surface manager as objects with their
loops. Each of their methods is proved to take the step of `StateReplica` or `SurfaceRelay` it
stands for, for whatever state the object is in.

**Rotating credential.** `Credential` holds the provider's fields and each critical section that
touches them, and its sequential operations. `CredentialProtocol` runs any number of minters and
authorizers through those sections in any interleaving, against a platform that kills a refresh
token on use. Clock readings are arbitrary. `SoleCaller` proves that an attempt nothing interrupts
does in the protocol what the sequential operation does.

**Bounded authorization starts.** `RateLimiter` is the token bucket and `PendingLogins` the table
of unfinished authorizations, both as objects; `LoginFlow` proves what no single file states, that
the limiter, the time to live and the cap together never evict a live login, and `EvictionLimit`
how much later than its permit a login may be recorded for that to hold.

**Companion's line protocol.** `SatelliteWire` is the tokenizer, the parser, and the lines the
server writes, as a parser and printer pair.

`Clock` holds the units of time, `Division` facts of arithmetic; `Wrappers` holds the optional value and the arbitrary choice that
stands for ranging over a map, map lookup, and the lesser and greater of two numbers.

## How the models are built

- A `class` stands for an object the program changes in place. Its methods are proved against
  functions of the old state, and the theorems are about those functions.
- A transition system stands for what several goroutines do between lock operations. `Enabled` says
  which steps the locks and program counters allow, `Do` takes one, `After` folds a run. The
  theorems quantify over every run. History fields (such as `sent`, `produced`, `lineage`,
  `rotations`) are written and never read by a step.
- Ranging over a map is a loop that picks an arbitrary remaining key.
- Frames carry opaque payloads. Strings are sequences of characters below 256, standing for bytes.
  Token strings are numbers, the empty one 0.

## Where code and documentation differ

- docs/protocol.md:219 has a client treat any revision gap as a lost frame. The hub sends nothing to
  a client whose topics a patch does not touch (server/internal/api/hub.go:41-44), so a client that
  is not subscribed to every topic sees gaps in runs that lose nothing. `GapsPossibleExactly` builds
  such a run and proves that the clients that can see one are exactly those subscribed to some topics
  and not to others; `GapsCountSkippedUpdates` proves how wide each gap is, and
  `FullSubscriptionSeesNoGap` proves the rule for every delta of a full subscription.
- server/internal/config/config.go:354-358 rejects the characters that would malform a line but
  allows a backslash, which the tokenizer takes as an escape. `PressRecoversIdExactly` proves that a
  valid device id survives the line exactly when it holds no backslash. An inner backslash is lost
  alike on every line, so Companion still sees one device;
  `PressesReachTheRegisteredDeviceExactly` proves that only a backslash that escapes the space behind
  the id separates a press from the registered surface.
- server/internal/chat/restream.go:707-709 speaks of the login closest to expiry; the code evicts the
  lowest sequence number, and that is what is modelled.
- The disconnect fallback (server/internal/api/client.go:459-461) cannot release a key that the grid
  no longer holds, because a press outside the grid is dropped without an error. `LatchableExactly`
  proves for which keys this could matter. It cannot happen in this server, whose one satellite
  announces the same configured grid all its life (server/internal/companion/satellite.go:243-245 and
  525-526); `OneGridNeverLatches` proves that no key is then ever latched.

## Model

| member | source | states |
|---|---|---|
| SurfaceLane.PushKeyRefines | server/internal/api/sendqueue.go:80-99 | queueing a render, appended, swapped in or ignored, leaves the client where applying it last would |
| SurfaceLane.PushLayoutRefines | server/internal/api/sendqueue.go:107-124 | queueing a layout and dropping what it supersedes leaves the client where applying the layout last would, unless a newer layout is queued |
| SurfaceLane.LayoutPushIsInvisibleExactly | server/internal/api/sendqueue.go:109-112 | a layout push is invisible to every client if and only if no newer layout is queued: the refusing branch is the only one that loses anything |
| SurfaceLane.RefusedExactly | server/internal/api/sendqueue.go:80-125 | a refused push leaves the lane as it is, and any other puts its frame in it |
| SurfaceLane.RendersKeepTheirPlace | server/internal/api/sendqueue.go:37-39 | a render takes the place of the one it replaces and every other frame keeps its own; a key that is not queued goes to the back |
| SurfaceLane.SurvivorsKeepTheirOrder | server/internal/api/sendqueue.go:37-39 | the frames that survive a layout stay in the order they were queued in |
| SurfaceLane.LayoutGoesToTheBack | server/internal/api/sendqueue.go:113-123 | a layout that is not refused is queued last, behind exactly the renders above it |
| SurfaceLane.CoalescingIsInvisible | server/internal/api/sendqueue.go:80-149 | over every interleaving of renders, layouts of nondecreasing sequence and pops, held plus queued folds to the view of a client sent every frame |
| SurfaceLane.PushKeepsStructure | server/internal/api/sendqueue.go:80-125 | one frame a key, at most one layout, and renders ahead of the layout all newer than it, kept by every push |
| SurfaceLane.PopKeepsStructure | server/internal/api/sendqueue.go:130-149 | and by every pop |
| SurfaceLane.LaneIsBounded | server/internal/api/sendqueue.go:24-30 | on a grid of n keys the lane holds at most n + 1 frames without any cap |
| SendQueues.SendQueue.PushOther | server/internal/api/sendqueue.go:64-74 | accepted exactly when the backlog is under its cap; a refusal changes nothing; acceptance sets the wake signal; the surface lane is untouched |
| SendQueues.SendQueue.PushSurfaceKey | server/internal/api/sendqueue.go:80-99 | list, index and pointer stay in agreement, and the list becomes the specified lane: newest sequence wins, in the older frame's place; the wake signal is set exactly by a render that is not refused, so by any that changes the lane |
| SendQueues.SendQueue.PushSurfaceLayout | server/internal/api/sendqueue.go:107-125 | the same for a layout: exactly the superseded elements are unlinked, the survivors keep their order, the older layout goes; the wake signal is set exactly by a layout that is not refused, so by any that changes the lane |
| SendQueues.SendQueue.DropSuperseded | server/internal/api/sendqueue.go:113-118 | the loop over the key index removes exactly the renders at or below the sequence from both list and index |
| SendQueues.SendQueue.Pop | server/internal/api/sendqueue.go:130-149 | the oldest state frame, else the oldest surface frame, is removed and nothing else; indexes stay in agreement |
| SendQueues.SendQueue.Depth | server/internal/api/sendqueue.go:152-156 | the number of frames in both lanes, at most sendBuffer + n + 1 on a grid of n |
| SendQueues.KeyIsIndexed | server/internal/api/sendqueue.go:40-46 | the index entry for a key is the position of the one render queued for it, and there is no entry exactly when there is no render |
| SendQueues.LayoutAppended | server/internal/api/sendqueue.go:107-124 | unlinking the indexed renders at or below the sequence and the old layout leaves precisely the specified survivors |
| WriteLoop.NoLostWakeUp | server/internal/api/sendqueue.go:48-52 | in every run a writer that waits while frames are queued has a signal set, or a producer about to set one |
| WriteLoop.EveryFrameIsWritten | server/internal/api/client.go:261-276 | from any reachable state, under every schedule without producers, the loop takes a bounded number of steps, and when only a producer could take another everything queued has been written, the state lane first, each lane in order |
| WriteLoop.QuietRunKeepsPackets | server/internal/api/client.go:261-276 | over every such schedule what is written followed by what is queued stays the same |
| WriteLoop.StateLaneLosesNothing | server/internal/api/sendqueue.go:62-74 | over every run what the state lane accepted, fewer than 64 being queued, is what was written of it followed by what is queued, in order |
| SurfaceRelay.SurfaceAgreement | server/internal/api/surface.go:66-156 | in every run, between callbacks, a client that joined the hub and was replayed to since, by the run's own actions, folds held plus queued to exactly the manager's grid and key cache |
| SurfaceRelay.AgreementIsReached | server/internal/api/surface.go:143-156 | on any grid, for any key on it and any render, some run brings a replayed client to show that render |
| SurfaceRelay.SyncedExactly | server/internal/api/client.go:190-221 | membership of the hub and completed replays are in every run what the run's joins, leaves and replays make them |
| SurfaceRelay.KeysAreTheGrid | server/internal/api/surface.go:159-161 | the keys admitted are exactly r * cols + c of the grid's rows and columns, and each has that place and no other |
| SurfaceRelay.RelayLosesNothing | server/internal/api/sendqueue.go:34-39 | in every run and for every client, delivered plus queued shows what applying every frame ever pushed would show |
| SurfaceRelay.OlderLayoutsNeverArrive | server/internal/api/surface.go:29-32 | in every run a layout is pushed at the current sequence, so the branch refusing an older layout is dead and the push leaves exactly that layout queued |
| SurfaceRelay.EarlyKeysAreCovered | docs/protocol.md:470 | in every run a render delivered before a layout is never newer than that layout |
| SurfaceRelay.SurfaceBacklogIsBounded | server/internal/api/sendqueue.go:24-30 | in every run on grids of at most n keys no client's surface lane exceeds n + 1 frames |
| SurfaceRelay.ReplayNeverStuck | server/internal/api/surface.go:143-156 | every replay in progress can always go on: its client exists and each key it has left is still cached |
| SurfaceRelay.ReaderNeverStuck | server/internal/api/surface.go:26-32 | every callback in progress can go on, and an idle reader can raise any callback while no replay goes on, a render exactly for a key on the grid |
| SurfaceRelay.RunKeepsInv | server/internal/api/surface.go:84-156 | the inductive invariant of the relay holds over every run |
| SurfacePress.NoLatchedButton | server/internal/api/client.go:406-472 | in every run, a key on every grid so far that Companion has down is held by its live client, or its gone client's release is pending, in flight or failed |
| SurfacePress.HeldStaysOnGrid | server/internal/api/client.go:418-423 | in every run on grids of at most n keys, only those n keys are ever held |
| SurfacePress.HeldExactly | server/internal/api/client.go:424-441 | in every run the held set is exactly the keys whose hold was recorded and whose release has not been delivered since |
| SurfacePress.FailuresAreReal | server/internal/api/client.go:461-472 | a release counts as failed only when its delivery failed |
| SurfacePress.LatchableExactly | server/internal/api/surface.go:170-178 | over runs on a given set of grids, a key can be left down with no failed release if and only if it is on one of the grids and off another |
| SurfacePress.OneGridNeverLatches | server/internal/companion/satellite.go:243-245 | on one grid that never changes, no run leaves a key latched |
| MergePatch.DiffIsNilExactly | server/internal/state/mergepatch.go:14-47 | the patch is empty if and only if old equals new |
| MergePatch.DiffMarksChangesExactly | server/internal/state/mergepatch.go:14-47 | a key has an entry in the patch if and only if its value, or its presence, changed |
| MergePatch.DiffRoundTripsExactly | server/internal/state/mergepatch.go:14-47 | applying the diff to the old object yields the new one if and only if every value the diff must write is free of nulls |
| MergePatch.DiffRoundTrips | docs/protocol.md:213-217 | for every null-free new object, whatever the old one, the diff takes old to new |
| MergePatch.WholeValueMerge | docs/protocol.md:217 | a value merged where there is no object to merge into arrives whole if and only if it is null-free |
| MergePatch.DiffIsLeast | server/internal/state/mergepatch.go:5-13 | every patch that takes old to new has at least the diff's entries, at every depth |
| MergePatch.FilterCommutesWithPatching | server/internal/state/mergepatch.go:49-64 | filtering a patched state equals patching the filtered state with the filtered patch |
| MergePatch.UnscopedPatchIsInvisible | server/internal/api/hub.go:41-44 | skipping the frame of an empty scoped patch leaves the client's part of the state unchanged |
| MergePatch.ComputeDiff | server/internal/state/mergepatch.go:14-47 | the two loops compute the specified patch, and report none exactly when nothing changed |
| MergePatch.ComputeFilter | server/internal/state/mergepatch.go:53-64 | a topic is in the result exactly when it is subscribed to and in the object, with its value; nothing left is reported as none |
| StateStore.Store.Update | server/internal/state/store.go:54-76 | for any next state, the revision moves by one and the observer hears of the patch exactly when the state changed; the notified patches replay to the state until a change writes a null, and exactly until then; a null-free state never does |
| StateStore.Store.Snapshot | server/internal/state/store.go:81-97 | the snapshot is the subscribed part of the state, and of the notified patches replayed while those are exact, at the number of patches so far |
| StateStore.JoinAnywhere | server/internal/state/store.go:87-97 | a consumer joining at any revision and applying the later scoped patches holds its part of the present state |
| StateReplica.ReplicaAgreement | server/internal/api/client.go:474-532 | in every run, between updates, a client in the hub with no close requested folds received plus queued to the store's object limited to its topics |
| StateReplica.DeliveredIsPrefix | server/internal/api/client.go:90-100 | in every run what a client was sent is a prefix of what was produced for it, and until a close is requested the rest is still queued, never more than the cap |
| StateReplica.FullSubscriptionSeesNoGap | docs/protocol.md:187 | in every run a delta produced for a client that is at that time subscribed to every topic, whatever it was before, carries the next revision after the snapshot or delta before it, and so does every such delta delivered |
| StateReplica.GapsCountSkippedUpdates | server/internal/api/hub.go:37-49 | in every run the next delta's revision exceeds the last frame's by one more than the number of updates outside the client's topics since |
| RevisionGaps.GapsPossibleExactly | docs/protocol.md:219 | some run delivers a revision gap to a client fixed on given topics, having lost nothing, if and only if they are neither none nor all |
| StateReplica.HelloThenSnapshot | server/internal/api/client.go:186-199 | in every run the first two frames a client is sent are the greeting and a snapshot |
| StateReplica.SnapshotsAreCurrent | server/internal/api/client.go:518-532 | in every run a re-sync or a rejoin answers with one state frame at the store's revision, holding the client's topics and no others |
| StateReplica.TopicsAreThoseAsked | server/internal/api/client.go:497-506 | in every run a client is subscribed to a topic exactly when the last it asked for that topic was to add it, or when it never asked |
| StateReplica.ClosedExactlyWhenCalledFor | server/internal/api/client.go:90-100 | in every run a client is being closed exactly when a close was requested or a frame was produced for it with 64 queued |
| StateReplica.RunKeepsInv | server/internal/api/client.go:474-532 | the inductive invariant of the replication protocol holds over every run |
| Connections.ClientConn.Enqueue | server/internal/api/client.go:96-100 | queued while fewer than 64 are; otherwise nothing is queued and a connection that was not closing is closed abruptly, cutting the socket, with code 1008 |
| Connections.ClientConn.Close | server/internal/api/client.go:131-147 | the first request's code, reason and kind stand; it alone stops the loops, and cuts the socket exactly when it is abrupt |
| Connections.ClientConn.SendSnapshot | server/internal/api/client.go:524-532 | queues the store's state limited to the client's topics, at the store's revision |
| Connections.ClientConn.SendDelta | server/internal/api/hub.go:40-49 | takes the replication system's delta step, silent when no topic is touched |
| Connections.ClientConn.Pop | server/internal/api/client.go:261-268 | takes the replication system's pop step and returns the frame that step delivers |
| Connections.ClientConn.HandleSubscription | server/internal/api/client.go:474-516 | a frame that is malformed or names an unknown topic changes nothing but the queue; any other adds or drops exactly the topics it names, queues the new baseline, rejoins the hub, and leaves the client bound to show the cached surface |
| Connections.Complaint | server/internal/api/client.go:479-488 | a subscription frame is rejected exactly when malformed or naming an unknown topic |
| Connections.ClientConn.HandleSurfacePress | server/internal/api/client.go:409-442 | Companion is asked exactly for a well-formed press on the grid; a hold is recorded whatever the outcome and forgotten only on a release that did not fail; every failure is reported |
| Connections.ClientConn.ReleaseHeldSurfaceKeys | server/internal/api/client.go:461-472 | each held key on the grid is released exactly once and none stays held |
| Connections.Hub.BroadcastDelta | server/internal/api/hub.go:37-49 | every client takes the delta step, in whatever order the loop meets them |
| Connections.Hub.BroadcastSurfaceKey | server/internal/api/hub.go:54-60 | every client's lane takes the render, and no other lane changes |
| Connections.Hub.BroadcastSurfaceLayout | server/internal/api/hub.go:64-70 | every client's lane takes the layout, and no other lane changes |
| Connections.SurfaceManager.OnKey | server/internal/api/surface.go:84-107 | a render on the grid takes the relay's cache step and reaches every client at the new sequence; one off the grid changes nothing |
| Connections.SurfaceManager.OnLayout | server/internal/api/surface.go:66-79 | the relay's re-baselining step, sent to every client at the sequence as it stands |
| Connections.SurfaceManager.OnClear | server/internal/api/surface.go:113-129 | the relay's clearing step, sent to every client with the present grid |
| Connections.SurfaceManager.SendInitial | server/internal/api/surface.go:143-156 | whatever was queued, the client will show exactly the cache once its lane drains |
| CredentialProtocol.NoSelfInflictedLoss | server/internal/chat/restream.go:454-509 | in every reachable state of a loyal platform each refresh posts the platform's live token, so it is never rejected and the credential never discarded |
| CredentialProtocol.LoyaltyIsTheRuns | server/internal/chat/restream.go:454-509 | what the theorems ask of the environment is of the run itself: nothing revoked, every grant read back, no write failed |
| CredentialProtocol.UniquenessIsTheRuns | server/internal/chat/restream.go:454-509 | and no token handed out twice |
| CredentialProtocol.GrantsLiftRefusals | server/internal/chat/restream.go:372-381 | in every run the credential is held off exactly while a refusal of its own generation stands with no pair adopted since, and until five minutes after it |
| CredentialProtocol.RefusalWithholds | server/internal/chat/restream.go:471-475 | in every run whoever decides before a standing refusal's deadline is sent to authorize, and from the deadline on nobody is while the refresh token lives |
| CredentialProtocol.HeldTokensAreTakenExactly | server/internal/chat/restream.go:530-547 | before the lock and under it a held token is taken exactly while it lives, is not held off, is more than two minutes from expiry and is not the one refused |
| CredentialProtocol.HoldOffIsAboutPresentCredential | server/internal/chat/restream.go:346-387 | a hold-off takes effect exactly when the generation is the attempt's own, and then the refused token descends from the authorization that holds now |
| CredentialProtocol.StaleAttemptCannotSuppress | server/internal/chat/restream.go:372-381 | no attempt begun before an authorization can hold off the credential it brought, over any later run |
| CredentialProtocol.OneRotationPerRefusedToken | server/internal/chat/restream.go:395-508 | while the platform never reissues a token, the callers that saw one access token refused cause at most one rotation of a token that was that one or still fresh |
| CredentialProtocol.RefreshesOnlyWhenNeeded | server/internal/chat/restream.go:476-482 | in every reachable state a refresh is under way only for a token that its thread saw refused or found within two minutes of expiry when it read it again, so a caller that waited takes the replacement |
| CredentialProtocol.AsksAtMostTwice | server/internal/chat/restream.go:346-370 | in every run a mint asks for a chat URL at most twice |
| CredentialProtocol.RefusalsAreActedOn | server/internal/chat/restream.go:351-370 | after an answer the hold-off is the next and only step exactly for a lasting refusal, and a retry that names the refused token exactly for a first refusal of it |
| CredentialProtocol.RetriesTakeTheReplacement | server/internal/chat/restream.go:481-488 | and every retry asks with another token than the one refused |
| CredentialProtocol.DrainIsMeaningful | server/internal/chat/restream.go:511-569 | in every reachable state the polled counter is the number of threads in the exchange bracket, at most one; at zero, if no write failed, file and memory agree |
| CredentialProtocol.DrainedRestartResumes | server/internal/chat/restream.go:549-569 | a drained server that restarts on its file resumes with the platform's live token |
| CredentialProtocol.HolderIsNeverStuck | server/internal/chat/restream.go:454-509 | in every reachable state the holder of the refresh lock has a step to take, a waiter can take the lock once it is free, and the drain counter is zero unless it is held |
| CredentialProtocol.LockIsReleased | server/internal/chat/restream.go:549-569 | whatever the other threads do, a thread takes at most seven steps of its own while it holds the refresh lock, and the next releases it |
| CredentialProtocol.RunKeepsInv | server/internal/chat/restream.go:346-610 | the inductive invariant of the credential protocol holds over every run |
| SoleCaller.AttemptAlone | server/internal/chat/restream.go:454-509 | an attempt that nothing interrupts takes the protocol to exactly the credential, file and token of the sequential operation, whatever the platform answers |
| SoleCaller.LoginAlone | server/internal/chat/restream.go:316-341 | a code exchange that nothing interrupts takes the protocol to exactly the credential and file of the sequential operation, any refusal lifted |
| Credential.Restream.Authorized | server/internal/chat/restream.go:254-262 | true exactly when a caller asking now would be handed the held token or would refresh it |
| Credential.Restream.UsableToken | server/internal/chat/restream.go:530-547 | answers exactly when the held token is valid, fresh, not held off and not the one refused, so more than two minutes before expiry and from any hold-off's deadline on |
| Credential.Restream.AccessToken | server/internal/chat/restream.go:454-509 | posts at most one refresh, with the held refresh token, exactly when the held token will not do; only an invalid grant costs the credential; the bracket is closed on every path |
| Credential.Restream.ExchangeCode | server/internal/chat/restream.go:316-341 | a code exchange replaces the credential, lifts any refusal and opens a generation together, or leaves credential and file as they were |
| Credential.Restream.Url | server/internal/chat/restream.go:346-370 | it asks whenever it can get a token, and once more after a first refusal whenever it can get another, which differs from the one refused unless the platform reissued it; the credential changes only as those attempts and a hold-off after a lasting refusal change it |
| Credential.Restream.AdoptPair | server/internal/chat/restream.go:595-610 | the pair is live and the refusal lifted whether or not the write succeeds; the generation moves only for an authorization |
| Credential.Restream.HoldOffSince | server/internal/chat/restream.go:372-381 | sets the cooldown exactly when the generation has not moved |
| RateLimiter.Limiter.AllowAt | server/internal/api/ratelimit.go:30-50 | one call takes the bucket's step, on which the theorems below are proved |
| RateLimiter.WindowBound | server/internal/api/ratelimit.go:9-15 | for nondecreasing call times the grants within any window of length w number at most burst + ceil(w / interval) |
| RateLimiter.RefusedOnlyAtTheBound | server/internal/api/ratelimit.go:9-15 | for nondecreasing call times a call is refused if and only if granting it would break that bound in some window that begins with an earlier grant |
| RateLimiter.RefusedExactlyWhenSpent | server/internal/api/ratelimit.go:30-50 | a call is refused if and only if the permits granted before it and lost to the cap already total burst + floor(elapsed / interval) |
| RateLimiter.OnlyTheCapLoses | server/internal/api/ratelimit.go:37-44 | permits are lost only while all of the burst is there to be had |
| RateLimiter.LastIsOnGrid | server/internal/api/ratelimit.go:37-44 | `last` is always the greatest point first + k * interval that is not after now |
| RateLimiter.PermitsAreConserved | server/internal/api/ratelimit.go:30-50 | permits held, granted and lost to the cap always total burst + floor(elapsed / interval) |
| PendingLogins.PendingTable.PrunePending | server/internal/chat/restream.go:697-705 | exactly the expired starts are dropped |
| PendingLogins.PendingTable.EvictOldest | server/internal/chat/restream.go:707-718 | exactly the start with the smallest sequence number is dropped |
| PendingLogins.PendingTable.RecordStart | server/internal/chat/restream.go:268-283 | after pruning and evicting down to room, the start is recorded with its expiry, and the table never exceeds its cap |
| PendingLogins.PendingTable.Consume | server/internal/chat/restream.go:295-309 | a callback is accepted exactly when its state is recorded and unexpired; a callback with a code consumes its state either way, one without consumes nothing |
| PendingLogins.EvictDownKeepsNewest | server/internal/chat/restream.go:268-283 | eviction leaves exactly room for one, and never drops a start newer than one it keeps |
| LoginFlow.LiveLoginsAreNeverEvicted | server/internal/api/chat.go:162-169 | over every interleaving of starts, of logins recorded within a delay of their permit or never, and of callbacks, at nondecreasing times, the eviction loop is never entered while the delay leaves room, and no more logins are live than permits fit in a time to live and a delay |
| LoginFlow.AtMostFiftyFiveLive | server/internal/api/chat.go:50-53 | with one clock reading for permit and record, nothing is evicted and at most 55 logins are live at any time |
| EvictionLimit.EvictionPossibleExactly | server/internal/chat/restream.go:268-283 | some run evicts a login if and only if logins may be recorded more than 108 seconds after their permits |
| LoginFlow.AcceptedExactly | server/internal/chat/restream.go:295-309 | so a callback's state is accepted if and only if it was issued, has not been consumed since, and has not expired |
| SatelliteWire.Tokenize | server/internal/companion/satellite.go:625-650 | the byte loop, with its two-character escapes, computes the character-by-character tokenizer |
| SatelliteWire.TokenizingDistributesExactly | server/internal/companion/satellite.go:621-650 | tokenizing distributes over pieces joined by a space, for every second piece, if and only if the first ends outside quotes and escapes |
| SatelliteWire.TokensAreNonEmpty | server/internal/companion/satellite.go:629-634 | no token is ever empty |
| SatelliteWire.ParseSatelliteLine | server/internal/companion/satellite.go:603-619 | the first token is the command and the others the arguments, split at the first '=', later ones winning |
| SatelliteWire.LineRoundTrips | server/internal/companion/satellite.go:601-650 | parsing any line of sendable arguments, bare, quoted or flags without a value, recovers the command and exactly the arguments written |
| SatelliteWire.FlagReadsBack | server/internal/companion/satellite.go:611-615 | a bare flag anywhere on a line reads back as an argument of empty value unless a later one of its name has a value |
| SatelliteWire.PressRoundTrips | server/internal/companion/satellite.go:423-436 | parsing a key press recovers id, key and flag for every valid id with no backslash, every key and flag, down to the number and the boolean |
| SatelliteWire.WireBoolExactly | server/internal/companion/satellite.go:660-664 | a wire boolean is true exactly for "1" and for the word true in any letter case |
| SatelliteWire.RegisterRoundTrips | server/internal/companion/satellite.go:410-419 | parsing the registration recovers every field, the product name with its spaces, quotes and backslashes included |
| SatelliteWire.IdReadBack | server/internal/companion/satellite.go:423-436 | what any valid id of a press reads back as: its escapes resolved, and the next argument swallowed when its last backslash escapes the space behind it |
| SatelliteWire.RegisteredIdReadBack | server/internal/companion/satellite.go:410-419 | the same for the id of the registration |
| SatelliteWire.PressesReachTheRegisteredDeviceExactly | server/internal/companion/satellite.go:410-436 | the id read from any press equals the id read from any registration of the same valid device id if and only if its last backslash does not escape the space behind it |
| SatelliteWire.PressRecoversIdExactly | server/internal/config/config.go:354-359 | a valid device id survives a key press if and only if it holds no backslash |

## Left out

- Sockets, TLS, HTTP handlers, pings, timers and close handshakes: library behaviour. A failed push and a close request end delivery.
- Frames flushed after a close request: a second close does not tear the socket down, so prefix delivery is claimed up to the first request only.
- Bitmaps, colors, base64 and JSON text encoding: payloads are opaque. The `row` and `col` of a render frame are derived from its key (`SurfaceRelay.Position`) and are not carried.
- `Store`'s mutation callback, normalization and conversion to a map: `Update` takes the encoded result, or its absence, as a parameter. The struct the mutation is applied to is not kept beside it.
- StateReplica.ReplicaAgreement: covers updates that a merge patch can express (`Writable`), which docs/protocol.md:217 promises of all; `StateStore.Store.Update` covers the others.
- Connections.ClientConn.HandleSubscription: is stated for a call nothing interrupts; the interleavings of its steps are those of `StateReplica` and `SurfaceRelay`.
- Connections.SurfaceManager.SendInitial: is stated for a lane and a client no newer than the cache, which `SurfaceRelay.RunKeepsInv` proves of every reachable state.
- `SurfaceRelay` and `StateReplica` each carry the lanes and lock steps of their own core. The hub's membership appears in both; one joint run of the two is not modelled.
- Readiness and enqueueing of a press take Companion's session lock separately; `SurfacePress` models the outcome of a press as one step that may fail, or fail and still have reached Companion.
- Companion's session loss: a key counts as down until a release is handed over, also across a reconnect.
- Lost responses, revocations, failed writes and reissued tokens are environment steps of `CredentialProtocol`; they clear the flags `loyal`, `saved` and `unique` that its theorems name. A code exchange whose grant lacks chat scope is one of the grants that are not adopted.
- Scope-string heuristics, error envelopes and the file operations of the token store: the first two are parameters, the last an atomic cell.
- The randomness of a login's state: states are arbitrary strings, and a repeated one replaces the older start.
- `Drain` is not a loop here; what it polls is proved meaningful instead. Its timeout is left out.
- LoginFlow.LiveLoginsAreNeverEvicted: takes clock readings to arrive in nondecreasing order, as a monotonic clock read by one request at a time gives them.
- RateLimiter.WindowBound: integers are unbounded; the saturation of time differences beyond 292 years is not modelled.
- Sequence and revision counters are unbounded, so wrap-around after 2^63 steps is not modelled.
- SatelliteWire.RegisterRoundTrips: is limited to printable ASCII product names, because the quoting of other characters uses escapes that the tokenizer does not know.
- Reading `true` in any case folds ASCII letters only. Integers read back without a range limit.
- Command dispatch, presets, configuration other than the device id, the web UI, the Flutter client and the C# sidecar: mostly single-branch or outside the server.
