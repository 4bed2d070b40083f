# CopySync relay: model and proofs

A Dafny model of the clipboard relay server (Go) and of two pieces of the desktop engine
(Rust), with proofs about whole runs of its protocols.

| file | models |
|---|---|
| `Model`, `Fifo`, `Gather` | shared data types; the bounded FIFO a queue stands for; counting occurrences over maps of sequences |
| `Keys`, `QueueStore` | eight-byte keys and the bbolt buckets that hold the offline queues |
| `RelayCore`, `RelayMachine` | the hub's state, the pieces of its handlers, and the relay as a transition system whose hub goroutine is interruptible between any two loop turns |
| `RelaySafety`, `RelayConservation`, `RelayClaims` | registry safety and frame logs, clip conservation, blob claims and fetch authorization, all over every run |
| `RelayEffects` | what each piece of a handler comes to, field by field |
| `RelayTargets` | which devices a clip is addressed to, and that it reaches no others |
| `RelayRuns` | runs that reach the states in which the claim and access theorems fail |
| `RelayHub` | the hub and its client objects with their fields updated in place, proved against `RelayCore` |
| `Tokens`, `Rotation`, `Registry` | token rotation, and the device, name, token, token-index and pairing buckets |
| `Waiters`, `PullProtocol` | the waiter table and the on-demand pull with any number of GETs and PUTs and a collector |
| `Disks` | where blob ids lead on disk, and what a series of deletions does to blobs, other files and directories |
| `BlobStore`, `BlobGc` | content-addressed files, blob metadata, garbage collection and the housekeeping pass |
| `BlobRecords` | the ACLs blob records carry, as the relay sees them |
| `CollectorRuns` | one collection pass interleaved with routes, PUTs and GETs |
| `EngineUploads`, `HoldRing` | the engine's pending uploads and its ring of on-demand holds |
| `Downscale` | box averaging of monitor thumbnails |

## Reading the model

Each protocol is described by functions from state to state. The classes and methods that
update fields in place are proved equal to those functions, and the theorems are about runs
built from them. A run is a sequence of states and a sequence of steps, of any length, in
any interleaving the program allows.

In the relay, the hub goroutine is in the middle of at most one handler. Between two turns
of a handler's loop any connection may connect, drain its queue or re-persist a clip, any
write pump may take a frame, housekeeping may purge, and the admin may delete a device. A
ledger records where every recipient occurrence came from and which were given up on purpose.

Assumptions, made once:

- bbolt transactions are atomic and do not fail; JSON encoding is total.
- SHA-256 and the token HMAC are injective, and an HMAC is never the empty string. Both are
  represented by free constructors.
- Device ids and tokens are freshly generated.
- Settings, clocks and the success of a send are parameters chosen anew at each step.
- A process starts with arbitrary queues and blob records; a record that carries an ACL
  lists its own origin.
- The targets of a routed clip are an arbitrary list, of which the result of
  `resolveTargets` is one; repetitions and the origin itself are allowed. `RelayTargets`
  is about that result.
- Where digests are written out, they are hexadecimal and differ for different contents
  (`Disks.DigestsExist`). A character of an id stands for one byte.
- The order in which the store lists its records is a parameter.
- Connections have numbers; a number stands for one client object.

What the code does not keep, and when it does:

- A queue's sequence counter is 64 bits wide and wraps. `QueueStore.FifoIff` gives the exact
  condition under which an enqueue is a FIFO append, `Queues.Enqueue` says what happens
  otherwise.
- A connection that was evicted or replaced may still route a clip it had read, and then
  leaves a blob claim behind that nobody online answers for
  (`RelayRuns.EvictedClaimDangles`); exactly such claims break the invariant
  (`RelayClaims.ClaimKeepsInvIff`).
- The comment at hub.go:578-584 says that a blob stays fetchable after its origin
  disconnects. That holds if and only if the blob's record still carries the ACL
  (`RelayClaims.LeaveKeepsAccessIff`, and `ExpelKeepsAccessIff` for eviction). When the
  collector drops the record, nobody may fetch the blob once its origin has left
  (`RelayRuns.AccessLost`); a later touch re-creates the record without an ACL
  (`BlobRecords.TouchKeepsAcls`).
- hub.go:548 accepts any blob id that is not empty, and a routed id is recorded. The
  collector looks every unpinned recorded id up on disk. An id with fewer than two bytes
  after the prefix ends the process (`BlobRecords.RoutedShortIdCrashesPass`). A digest
  without its prefix leads to the blob's own file, which a pass then deletes, pinned or
  not (`BlobRecords.RoutedBareDigestLosesBlob`, `PinnedBlobLost`). Other malformed ids
  lead to files that are no blob's, or to directories; a directory goes as soon as the
  pass has emptied it (`Disks.EmptiedDirectoryGoes`). `BlobGc.SafeIff` gives the exact
  condition on the recorded ids, in the order in which they are listed, under which a pass
  completes, keeps every pinned blob and removes nothing but blobs; `Disks.SparesIff` is
  the same for any series of deletions.
- The pins are read once, when a pass begins. A blob queued or served after that is deleted
  all the same if the snapshot says so (`CollectorRuns.DeletedIff`; without a cap the
  snapshot alone decides, `DeletedIffCondemned`; `LateQueueLosesBytes` is such a run).
- A PUT that stores and touches a blob between the collector's failed lookup and its
  deletion of the record leaves a file without a record, at which no later pass looks
  (`CollectorRuns.OrphanIff`, `OrphanNeedsPut`, `LatePutIsOrphaned`).
- hub.go:709-724 reads a device and writes it back in two transactions. Over every run the
  name index and the pairing of devices with tokens stay exact if and only if no written
  back device was deleted or renamed meanwhile (`Registry.RunConsistentIff`;
  `Registry.StaleWriteBack` is such a run). The token index is exact regardless.
- Connections of one device that overlap can lock it out, in three ways: both rotate
  (`Rotation.OverlapStrands`), a slow one re-issues on the grace token after the client
  has moved on (`Rotation.ReissueStrands`), or a slow one retires what has become the
  grace token since it read the record (`Rotation.LateRetireStrands`). In the last two
  every commit records its token. `Rotation.AcceptedThroughoutIff` names the three steps
  that do it, over all runs, and `Rotation.StrandedForever` says that nothing mends it.
  Connections that settle before the next one authenticates never strand a device.

## Model

| member | source | states |
|---|---|---|
| RelayConservation.Conservation | server/internal/hub/hub.go:247-633 | In every state of every interleaving each recipient occurrence that was placed is counted exactly once: in a connection's accepted frames, in a queue, in hand between drain and requeue, still ahead of the routing loop, or trimmed, purged or deleted |
| RelayConservation.StepBalanced | server/internal/hub/hub.go:247-283 | Every kind of step keeps that balance for every occurrence |
| RelayConservation.NoReadableClipMoves | server/internal/hub/hub.go:529-542 | While end-to-end encryption is enforced, no readable clip reaches a send channel, a queue or anybody's hands unless the store already held it |
| RelaySafety.FrameLogs | server/internal/hub/hub.go:431-487 | A registered connection's log is hello_ok, a prefix of its drained batch in order, then live traffic only; prefix, re-persisted and in-hand clips together are the batch |
| RelaySafety.RegistryIsExact | server/internal/hub/hub.go:435-522 | A connection that registered is in the registry if and only if the hub has not closed it and it has not unregistered; the registry names each device's own connection |
| RelaySafety.UnregisterSparesOthers | server/internal/hub/hub.go:489-505 | An unregister never takes another connection out of the registry and closes nobody |
| RelaySafety.RunInv | server/internal/hub/hub.go:210-283 | The invariant behind these theorems holds in every reachable state |
| RelayClaims.ClaimsHold | server/internal/hub/hub.go:548-590 | If blob-bearing clips come from registered devices, every claim's origin is online and on its own list, and every on-demand holder is its claim's origin |
| RelayClaims.ClaimKeepsInvIff | server/internal/hub/hub.go:548-590 | Taking a claim keeps that invariant if and only if the claim is refused or the claimant is registered |
| RelayRuns.EvictedClaimDangles | server/internal/hub/hub.go:507-590 | A device connects, registers and is evicted; a clip its connection still routes leaves a claim without an online origin |
| RelayClaims.ClaimIsProtected | server/internal/hub/hub.go:549-563 | While a claim's origin stays registered and does not re-route the blob, nobody else's steps change or remove the claim, over any stretch of a run |
| RelayClaims.RunRecords | server/internal/hub/hub.go:564-589 | In every run both copies of an ACL, where present, equal the last accepted claim |
| RelayClaims.FetchAuthorization | server/internal/httpapi/blob.go:179-201 | While the record carries its ACL, exactly the devices of the last accepted claim may fetch, whether or not the origin is online |
| RelayClaims.AuthorizationSurvives | server/internal/hub/hub.go:387-403 | Between two states whose records carry the ACL, only routing that blob again changes who may fetch it |
| RelayClaims.LeaveKeepsAccessIff | server/internal/hub/hub.go:489-505 | The origin's disconnect leaves the authorized devices unchanged if and only if the record carries the ACL; otherwise everybody loses access |
| RelayClaims.ExpelKeepsAccessIff | server/internal/hub/hub.go:507-522 | The same for the origin's eviction |
| RelayRuns.AccessLost | server/internal/blob/gc.go:45-62 | A run in which the collector drops the record of a claimed blob, the origin disconnects, and nobody may fetch the blob any more |
| RelayClaims.SupplierIsOrigin | server/internal/hub/hub.go:339-352 | An on-demand blob may be supplied by a device if and only if it is the origin of the blob's claim |
| RelayEffects.RoutedAccess | server/internal/hub/hub.go:564-584 | From the step that routes a blob nobody else online has claimed, over every run until it is routed again, exactly the origin and the targets may fetch it, as long as its record carries the ACL |
| RelayEffects.RouteGrants | server/internal/hub/hub.go:557-589 | Right after such a route exactly the origin and the targets may fetch the blob |
| RelayEffects.ClaimIs | server/internal/hub/hub.go:557-589 | Memory and record name the origin and every target, and the origin is the holder if it keeps the bytes; if somebody else online has the claim nothing changes |
| RelayEffects.FetchIff | server/internal/httpapi/blob.go:179-201 | A fetch is allowed by the ACL in memory, without one by the holder's pool, or by the ACL on the record |
| RelayEffects.SupplyIff | server/internal/hub/hub.go:340-357 | Anybody may supply a blob nobody is known to hold, else the holder alone |
| RelayClaims.PullReachesHolderIff | server/internal/hub/hub.go:405-429 | A known holder is never offline: a pull fails only for lack of a holder or of room in its channel |
| RelayClaims.PoolFallbackUnreachable | server/internal/hub/hub.go:339-377 | The pool comparison of fetch authorization never decides anything: the hub allows exactly the devices on the claim |
| RelayTargets.ResolvedIff | server/internal/hub/hub.go:635-661 | A broadcast addresses every device in the store, `all` exactly those of the origin's pool, a list the named ones that exist |
| RelayTargets.AllStaysInPool | server/internal/hub/hub.go:643-653 | Over every run with any pool changes, a clip addressed to all never reaches, by channel, queue or hand, a device that was in another pool whenever it was routed |
| RelayHub.RouteIsDeliverAll | server/internal/hub/hub.go:591-617 | The routing loop run without interruption is the machine's turns run to the end |
| RelayHub.RegisterIsOfferAll | server/internal/hub/hub.go:431-487 | The registration loop run without interruption is the machine's turns run to the end |
| RelayEffects.DeliverIs | server/internal/hub/hub.go:598-616 | A registered device whose channel takes another frame gets the clip on it and nothing else changes; any other is expelled, if connected, and the clip joins its queue within the bound |
| RelayEffects.QueuedForIff | server/internal/hub/hub.go:591-617 | The reported devices are exactly the recipients that are not registered once the clip has been routed |
| RelayEffects.RecipientsAre | server/internal/hub/hub.go:594-597 | Recipients are the targets without the origin's occurrences |
| RelayEffects.RefusedIff | server/internal/hub/hub.go:534-542 | Routing is refused exactly for readable content under enforced encryption; any other clip is owed to its targets |
| RelayTargets.OwedCount | server/internal/hub/hub.go:594-597 | A clip is owed to a device as often as it is a target, to the origin never |
| RelayEffects.AdmitIs | server/internal/hub/hub.go:435-466 | A fresh connection takes its device's place with hello_ok on its channel, the older one is closed, everything else stays |
| RelayEffects.OfferAllIs | server/internal/hub/hub.go:468-482 | The accepted clips are the longest prefix of the drained ones that fits the channel, the rest is handed back |
| RelayEffects.HandsOverWhileFree | server/internal/hub/hub.go:468-482 | In every run, whatever happens between two turns, the next drained clip is handed over as long as the channel takes another frame, and the rest handed back only then |
| RelayEffects.LeaveIs | server/internal/hub/hub.go:489-505 | The registered connection leaves with exactly its device's holdings and claims; a stale one changes nothing |
| RelayEffects.ExpelIs | server/internal/hub/hub.go:507-522 | The device's connection is closed and out of the registry, exactly its holdings and claims are forgotten |
| RelayEffects.PruneIs | server/internal/hub/hub.go:387-403 | What the device held, the ACLs of that, and what it claimed go; everything else stays |
| RelayHub.Hub.HandleRegister | server/internal/hub/hub.go:431-487 | Closes and replaces an older connection, queues hello_ok and as many drained clips as fit, hands the rest back in order, and tells every other registered connection |
| RelayHub.Hub.Broadcast | server/internal/hub/hub.go:837-848 | Offers a notice to exactly the registered connections outside the exception, each once |
| RelayHub.AnnounceOne | server/internal/hub/hub.go:837-848 | One turn of a broadcast is the control frame the machine's steps offer |
| RelayHub.Hub.HandleUnregister | server/internal/hub/hub.go:489-505 | Removes the connection and its holdings and tells the others, unless a newer connection has its place; then nothing changes |
| RelayHub.Hub.HandleEvict | server/internal/hub/hub.go:507-522 | Closes and removes the device's connection with its holdings and tells the others, or does nothing |
| RelayHub.Hub.HandleRoute | server/internal/hub/hub.go:524-633 | Refuses readable clips under enforced encryption, else claims the blob and delivers to every target but the origin; the status is queued exactly if every recipient was queued and there was one |
| RelayHub.Hub.DeliverToAll | server/internal/hub/hub.go:591-617 | The loop delivers target by target; relayed and queued add up to the recipients |
| RelayHub.Hub.DeliverOne | server/internal/hub/hub.go:598-616 | Relays to a connection with room, else evicts it, prunes its holdings and queues the clip |
| RelayHub.Hub.TakeClaim | server/internal/hub/hub.go:557-589 | Records origin and targets in memory and in the store, unless another online device holds the claim |
| RelayHub.Hub.PruneOnDemand | server/internal/hub/hub.go:387-403 | Forgets exactly the device's holdings, their ACLs and the ACLs it originated, and counts the holdings |
| RelayCore.SamePoolIff | server/internal/hub/hub.go:664-676 | Two devices share a pool if and only if both were put in the same one or neither in any but the default; unknown devices and unnamed pools meet there |
| RelayHub.Hub.HandleBlobAuth | server/internal/hub/hub.go:339-377 | Supply is allowed to the known holder or, without one, to anybody; fetch by the claim, else by the holder's pool |
| RelayHub.Hub.AuthorizeGet | server/internal/httpapi/blob.go:179-201 | The hub's answer first, then the ACL on the record |
| RelayHub.Hub.HandleBlobRequest | server/internal/hub/hub.go:405-429 | Reports success exactly if the request entered the holder's channel |
| RelayHub.Client.Enqueue | server/internal/hub/client.go:61-68 | Appends exactly if fewer than the capacity are waiting, else leaves the channel as it is; never blocks |
| RelayHub.Client.Close | server/internal/hub/client.go:51-57 | Only the first close and its reason count |
| RelayHub.Client.Take | server/internal/transport/ws.go:182-216 | The write pump takes frames in the order they were accepted |
| Keys.ItobOrder | server/internal/store/queue.go:12-16 | On all 64-bit values the key encoding is invertible and turns numeric order into byte order |
| Keys.Recode | server/internal/store/queue.go:12-16 | A key is determined by its length and its value |
| QueueStore.InsertLast | server/internal/store/queue.go:26-29 | A key above all others appends to the queue read in key order |
| QueueStore.StoredLast | server/internal/store/queue.go:26-29 | Until the counter wraps, the new item comes last |
| QueueStore.StoredFirst | server/internal/store/queue.go:26-29 | When the counter wraps, the new item comes first |
| Fifo.EnqueuedIs | server/internal/store/queue.go:20-47 | A bounded append leaves the newest items up to the bound, the new one last, and drops the rest |
| Fifo.KeptIs | server/internal/store/queue.go:30-43 | Trimming leaves all items or exactly as many newest ones as the bound says |
| QueueStore.FifoIff | server/internal/store/queue.go:20-47 | An enqueue leaves the newest of old items and new one up to the bound, for every item, if and only if the 64-bit counter has not run out or the queue is empty |
| QueueStore.FilterInOrder | server/internal/store/queue.go:113-158 | Deleting expired keys filters the queue and keeps its order |
| Fifo.PurgedIs | server/internal/store/queue.go:113-158 | After a purge exactly the items not older than the limit are queued |
| Fifo.FreshConcat | server/internal/store/queue.go:113-158 | Purging goes item by item and keeps their order |
| Fifo.FreshOne | server/internal/store/queue.go:120-134 | An item goes exactly if it was queued more than the limit ago |
| QueueStore.PinnedIff | server/internal/store/queue.go:77-95 | The blobs pinned by the abstract queues are exactly those of the stored entries |
| QueueStore.Trim | server/internal/store/queue.go:30-43 | Deleting first keys leaves exactly the newest items up to the bound and counts the dropped ones |
| QueueStore.Queues.Enqueue | server/internal/store/queue.go:20-47 | Leaves the newest of old items and new one up to maxDepth and returns how many were dropped; with a wrapped counter the new item is the oldest |
| QueueStore.ReadAll | server/internal/store/queue.go:51-73 | Visiting entries key by key yields the queue in order |
| QueueStore.Queues.DrainQueue | server/internal/store/queue.go:51-73 | Returns the whole queue in enqueue order and removes it |
| QueueStore.DeleteExpired | server/internal/store/queue.go:113-158 | Deletes exactly the collected keys, leaves counters and the other entries |
| QueueStore.Queues.PurgeExpired | server/internal/store/queue.go:113-158 | Every queue becomes its order-preserving filter, empty ones disappear, the count is exact; a nonpositive age limit does nothing |
| QueueStore.Queues.AllQueuedBlobIds | server/internal/store/queue.go:77-95 | Exactly the blobs referenced by queued clips |
| Tokens.CommitRecordsIff | server/cmd/copysyncd/main.go:164-187 | A commit records the delivered token if and only if it was recorded already, no rotation is pending, or a re-issue finds its grace token |
| Tokens.ReissueAfterRetire | server/cmd/copysyncd/main.go:166-183 | A re-issue whose grace token was retired meanwhile still records the delivered token and keeps the one in use |
| Rotation.HeldTokenIsAccepted | server/internal/transport/ws.go:158-176 | If connections settle before the next one authenticates, then under any loss of frames the client's token is current or grace, or a commit that records it is still to come |
| Rotation.EveryConnectSucceeds | server/internal/transport/ws.go:135-140 | In such runs every connection attempt is authenticated |
| Rotation.StepAcceptsIff | server/cmd/copysyncd/main.go:125-187 | From a proper record that accepts the client's token, a transaction, a read or a connect leaves it accepted if and only if it is none of three: retiring what is by then the grace token the client holds, re-issuing over the current token it holds, reading a token the record does not accept |
| Rotation.AcceptedThroughoutIff | server/cmd/copysyncd/main.go:125-187 | Over every run with any overlap, with the record read and retired, re-issued and rotated in separate transactions, the client's token is accepted in all states so far if and only if none of the three steps was taken |
| Rotation.StrandedForever | server/cmd/copysyncd/main.go:98-113 | Once everything has settled and the client's token is not accepted, no later attempt is authenticated |
| Rotation.OverlapStrands | server/internal/transport/ws.go:158-176 | Two overlapping rotations strand the device: the second commit is refused and its token read |
| Rotation.ReissueStrands | server/cmd/copysyncd/main.go:164-187 | A slow re-issue strands the device although every commit of the run records its token |
| Rotation.LateRetireStrands | server/cmd/copysyncd/main.go:126-136 | Another connection rotates between a connection's reading of the record and its retirement of the old token; the retirement then strands the device although every commit records its token |
| Registry.RunConsistentIff | server/internal/store/devices.go:13-20 | In every run names are a bijection with devices, the token index is exact and devices and tokens have the same ids, if and only if every device written back was still there under its name |
| Registry.StepConsistentIff | server/internal/store/pairing.go:20-82 | A step leaves consistent buckets consistent if and only if it is no stale write-back |
| Registry.StaleWriteBack | server/internal/store/devices.go:13-20 | Issue, claim, delete, then write back: the device is listed again without a token |
| Registry.RunInv | server/internal/store/tokens.go:31-123 | In every run, stale write-backs included, the token index is exact and codes are counted |
| Registry.TokenNamesOneDevice | server/cmd/copysyncd/main.go:98-113 | In every run a token names at most one device, and the blob channel and the handshake agree on which |
| Registry.IndexAgreesWithScan | server/cmd/copysyncd/main.go:191-197 | While the token index is exact, the blob channel resolves a token to a device exactly if the handshake accepts it for that device |
| Registry.ClaimsWithinIssues | server/internal/store/pairing.go:30-60 | A code is never redeemed more often than it was issued |
| Registry.RetiredStaysRetired | server/internal/store/tokens.go:46-123 | No hash is accepted for two devices, and a hash that has left its record is never accepted again |
| Registry.AcceptsAtMostTwo | server/internal/store/tokens.go:46-123 | A device accepts at most two hashes, its current one and its grace one |
| Registry.PutDeviceConsistentIff | server/internal/store/devices.go:13-20 | Storing a device keeps the buckets consistent if and only if it is still there under the same lowercased name |
| Registry.NameTakenIff | server/internal/store/pairing.go:38-45 | A claim is refused for its name exactly if the code is good and another device has that name up to the case of letters |
| Registry.LowerIff | server/internal/store/pairing.go:38-45 | Two names have the same key exactly if they differ in the case of letters only |
| Registry.ClaimIndex | server/internal/store/pairing.go:30-60 | A claim with a fresh device and token keeps the index exact |
| Registry.DeleteIndex | server/internal/store/devices.go:78-106 | Deleting a device removes exactly its hashes from the index |
| Registry.RotateIndex | server/internal/store/tokens.go:46-64 | Rotating to a fresh hash keeps the index exact |
| Registry.ReissueIndex | server/internal/store/tokens.go:74-106 | Re-issuing swaps the pending hash and keeps the index exact |
| Registry.RetireIndex | server/internal/store/tokens.go:110-123 | Retiring drops the grace hash and keeps the index exact |
| Registry.Store.AddPairing | server/internal/store/pairing.go:20-24 | Stores the code as unconsumed |
| Registry.Store.Claim | server/internal/store/pairing.go:30-60 | Refuses exactly missing, consumed or expired codes, and taken names, without a change; else writes device, name, first token and index and consumes the code |
| Registry.Store.PurgeStaleCodes | server/internal/store/pairing.go:63-82 | Exactly the consumed and expired codes go |
| Registry.Store.StoreDevice | server/internal/store/devices.go:13-20 | Writes the record and its name entry |
| Registry.Store.Touch | server/internal/store/devices.go:64-75 | Changes only the last-seen time of a device that exists |
| Registry.Store.Remove | server/internal/store/devices.go:78-106 | Removes device, name, token record, both of its hashes and the offline queue |
| Registry.Store.Rotate | server/internal/store/tokens.go:46-64 | No-op while a rotation is pending or for the same hash; else the current hash becomes the grace hash |
| Registry.Store.ReissuePending | server/internal/store/tokens.go:74-106 | Succeeds exactly if the grace hash is the one decided on and the hash is new; the replaced hash leaves the index |
| Registry.Store.RetireOld | server/internal/store/tokens.go:110-123 | The grace hash leaves record and index |
| Registry.Store.ReadDecision | server/cmd/copysyncd/main.go:125-159 | Rotates exactly a current token with no old one pending that is at least the configured days old, re-mints exactly for a grace token, retires exactly if the current token was presented with an old one pending |
| Registry.Store.MaybeRotate | server/cmd/copysyncd/main.go:125-159 | Uninterrupted, decides as specified and changes the store only to retire a grace token after the new one is presented |
| Registry.Store.CommitRotation | server/cmd/copysyncd/main.go:164-187 | Uninterrupted, re-issues if the grace state is still there, else rotates; the record becomes the committed one |
| Registry.Store.Authenticate | server/cmd/copysyncd/main.go:98-113 | Device and token exist, neither is revoked, and the token is the current or the grace one |
| Registry.Store.AuthenticateBlob | server/cmd/copysyncd/main.go:191-197 | The token alone, through the index, then the handshake's checks |
| PullProtocol.NoLostWakeup | server/internal/httpapi/blob.go:66-91 | If the file is there and a GET blocks on an open channel, some PUT has stored it and has yet to signal |
| PullProtocol.SignalReachesEveryBlockedGet | server/internal/httpapi/blob.go:137-153 | When a PUT signals, no GET stays blocked on an open channel for its blob |
| PullProtocol.ClosedOnceByItsBlob | server/internal/httpapi/blob.go:56-63 | No channel is closed twice, and none without a PUT of its blob |
| PullProtocol.TableHoldsLiveGets | server/internal/httpapi/blob.go:33-54 | A blob is in the waiter table only while some GET for it is under way |
| Waiters.DroppedElements | server/internal/httpapi/blob.go:41-54 | Removing a channel removes it and nothing else |
| Waiters.BlobWaiters.Add | server/internal/httpapi/blob.go:33-39 | Lists a new open channel last |
| Waiters.BlobWaiters.Remove | server/internal/httpapi/blob.go:41-54 | Unlists that channel only, and the blob with its last one |
| Waiters.BlobWaiters.Signal | server/internal/httpapi/blob.go:56-63 | Closes every listed channel of the blob once and unlists the blob |
| BlobStore.PutKeepsContent | server/internal/blob/store.go:66-109 | A put keeps every blob hashing to its id, changes no stored blob, and reports success only with the id's content in place |
| BlobStore.FsBlobStore.Put | server/internal/blob/store.go:66-109 | Succeeds exactly for a stored blob or a matching body within the limit, which is then stored; says too large exactly for a new body beyond it; refuses everything else without a change |
| BlobStore.FsBlobStore.Has | server/internal/blob/store.go:49-61 | Crashes exactly for ids too short to cut up; else finds what is at the id's path, blob or not |
| BlobStore.FsBlobStore.Delete | server/internal/blob/store.go:126-131 | Removes the file at the id's path, or the directory if it is empty, and nothing else |
| Disks.OwnPath | server/internal/blob/store.go:49-52 | A well-formed id leads to the file of its digest in the directory of the first two digits |
| Disks.LayoutIsLaid | server/internal/blob/store.go:49-52 | Well-formed ids lead to different files, all at the same depth |
| Disks.BareDigestLeadsToBlob | server/internal/blob/store.go:32-52 | A digest without its prefix leads to the file of the blob with that digest |
| Disks.StepBackLeadsToDirectory | server/internal/blob/store.go:49-52 | Two hex digits with a step back lead to the directory that holds the blobs beginning with them |
| Disks.BlobsAfterDeletes | server/internal/blob/store.go:126-131 | After a series of deletions a blob is gone if and only if one of the ids leads to its file |
| Disks.EmptiedDirectoryGoes | server/internal/blob/store.go:126-131 | A directory that an id leads to goes after its last blob is deleted, and stays if its turn comes before |
| Disks.SparesIff | server/internal/blob/store.go:126-131 | A series of deletions keeps all pinned bytes and removes nothing but blobs if and only if each in its turn hits no pinned blob and nothing else but a directory still held up by something |
| BlobStore.FsBlobStore.DiskUsage | server/internal/blob/store.go:135-154 | The sum of all file sizes |
| BlobStore.TouchKeepsSizes | server/internal/store/blobs.go:75-95 | Recorded sizes stay zero or true as long as touches pass no size or the put's |
| BlobStore.AclKeepsSizes | server/internal/store/blobs.go:59-71 | Writing an ACL leaves every recorded size as it was |
| BlobStore.TouchKeepsUntouched | server/internal/httpapi/blob.go:119-153 | Only well-formed ids are touched, so records of malformed ids keep the zero access time |
| BlobStore.AclKeepsUntouched | server/internal/store/blobs.go:59-71 | Routing a malformed id leaves its record at the zero access time |
| BlobRecords.TouchKeepsAcls | server/internal/store/blobs.go:75-95 | A touch changes no ACL and adds none to a record that was dropped |
| BlobRecords.ClaimWritesRecord | server/internal/hub/hub.go:564-584 | Writing the list of an accepted claim updates the record's ACL as the claim says |
| BlobRecords.CollectionDropsAcls | server/internal/blob/gc.go:31-94 | A collection drops the ACLs of the records that go and no others, never a pinned one |
| BlobRecords.RoutedShortIdCrashesPass | server/internal/hub/hub.go:548-584 | Registering and routing a clip with a one-byte id leads to records over which the next pass crashes |
| BlobRecords.RoutedBareDigestLosesBlob | server/internal/hub/hub.go:548-584 | Registering and routing a clip with a bare digest leads to records over which every completed pass that has not pinned that id deletes the blob's bytes |
| BlobRecords.PinnedBlobLost | server/internal/blob/gc.go:45-62 | Such a pass with the blob stored and pinned: its bytes are gone after |
| BlobStore.BlobIndex.SetBlobAcl | server/internal/store/blobs.go:59-71 | Writes origin and list, creating a blank record if needed |
| BlobStore.BlobIndex.TouchBlob | server/internal/store/blobs.go:75-95 | Refreshes the access time, sets creation time once, keeps size and type unless new ones are given, never the ACL |
| BlobGc.ExpirePass | server/internal/blob/gc.go:43-62 | Crashes exactly if some unpinned id is too short to be looked up; otherwise deletes for the unpinned overdue entries in the order listed. With benign ids exactly the unpinned overdue blobs and the unpinned records without a file go, and the count is the files removed |
| BlobGc.VisitEntry | server/internal/blob/gc.go:45-62 | What one entry's turn does to disk and record, in each of its branches |
| BlobGc.DoomedIff | server/internal/blob/gc.go:54-58 | The first pass deletes for exactly the listed, unpinned entries last accessed longer ago than the limit |
| BlobGc.CapPass | server/internal/blob/gc.go:64-92 | Evicts the records of a prefix of the given order with what their ids lead to; with benign ids the last one while usage still exceeded the cap |
| BlobGc.SortByAccess | server/internal/blob/gc.go:74-76 | Lists every unpinned survivor once, least recently accessed first |
| BlobGc.RunGc | server/internal/blob/gc.go:31-94 | Whatever ids are recorded: crashes exactly for a too short unpinned one, drops no pinned record, leaves no unpinned overdue one, and leaves the disk as its deletions in turn do, those of overdue entries as listed, then those evicted. With benign ids: removes no pinned blob, removes every unpinned blob last accessed longer ago than the limit and, without a cap, no other, squeezes out a minimal least-recently-accessed set, ends within the cap or with pinned entries only, counts the files removed |
| BlobGc.PinLostIff | server/internal/blob/gc.go:31-94 | A pinned blob loses its bytes if and only if some deletion of the pass led to its file |
| BlobGc.SafeIff | server/internal/blob/gc.go:31-94 | Where nothing is evicted or blobs expire at all, a pass completes, keeps all pinned bytes and removes nothing but blobs if and only if every unpinned recorded id can be looked up and every malformed overdue one is harmless in its turn: no pinned blob's file, no other file, no directory that the overdue entries listed before it empty |
| BlobGc.Housekeeping | server/cmd/copysyncd/main.go:291-314 | Purges codes and queues, then collects with the remaining pins: records that a still queued clip refers to stay; with well-formed unpinned ids so do the bytes, and nothing but blobs goes |
| CollectorRuns.PinnedBytesSurvive | server/internal/blob/gc.go:31-94 | In every interleaving of a pass with routes, PUTs and GETs, a blob of its pin snapshot keeps its bytes |
| CollectorRuns.PinnedRecordSurvives | server/internal/blob/gc.go:31-94 | And its record |
| CollectorRuns.DeletedIff | server/internal/blob/gc.go:45-92 | A blob there when the pass began is deleted if and only if the snapshot has it recorded, unpinned and overdue, or it is squeezed out, whatever is queued or touched meanwhile |
| CollectorRuns.DeletedIffCondemned | server/internal/blob/gc.go:45-62 | Without a cap, if and only if the snapshot has it recorded, unpinned and last accessed longer ago than the limit |
| CollectorRuns.LateQueueLosesBytes | server/internal/blob/gc.go:32-58 | A run in which a blob is queued right after the pass has begun and loses bytes and record |
| CollectorRuns.OrphanIff | server/internal/blob/gc.go:50-58 | A recorded file ends up without a record if and only if the collector deleted the record and nobody wrote it again, while the file was stored, or there from the start, and not deleted since |
| CollectorRuns.OrphanNeedsPut | server/internal/httpapi/blob.go:137-153 | If every PUT is complete, that takes a whole PUT between the collector's lookup or file deletion and its deletion of the record |
| CollectorRuns.LatePutIsOrphaned | server/internal/blob/gc.go:50-52 | A run in which such a PUT loses its record |
| CollectorRuns.SqueezedLeastRecent | server/internal/blob/gc.go:67-92 | What is squeezed out was unpinned and accessed no later than what is not, going by the snapshot |
| EngineUploads.UploadsAccountedFor | clients/desktop/core/src/engine.rs:690-696 | Over any reconnects the advertised clips, the pending list and the channel's successes are the successful uploads in order; at most one is pending; history is what was advertised |
| EngineUploads.SendableIs | clients/desktop/core/src/engine.rs:749-766 | On a fresh connection sends go on up to the first that fails |
| EngineUploads.Engine.Readvertise | clients/desktop/core/src/engine.rs:746-789 | Advertises pending clips up to the first failed send and keeps the rest in order |
| EngineUploads.Engine.Receive | clients/desktop/core/src/engine.rs:902-931 | A successful upload is advertised and recorded, or stashed and the connection given up; a failed one is dropped |
| HoldRing.RingValid | clients/desktop/core/src/engine.rs:1355-1373 | In every run the map's keys are the listed keys, distinct, at most 64 |
| HoldRing.DisappearsOnlyIfServedOrPushedOut | clients/desktop/core/src/engine.rs:932-942 | A held blob disappears only by being served or after 64 other keys were newly inserted |
| HoldRing.Holds.HoldOnDemand | clients/desktop/core/src/engine.rs:1355-1373 | Replaces in place, or appends and pushes out the oldest beyond 64 |
| HoldRing.Holds.DropServed | clients/desktop/core/src/engine.rs:932-942 | A served key leaves map and list; an unknown one changes nothing |
| Downscale.TargetSizeBounds | server/internal/httpapi/monitor.go:140-153 | Output sides are at least one, at most the limit (or one, for a limit below one) and no larger than the source's |
| Downscale.TargetSizeIs | server/internal/httpapi/monitor.go:140-153 | The longer side becomes the limit exactly, the other one keeps the ratio, rounded down but at least one |
| Downscale.BoxesPartition | server/internal/httpapi/monitor.go:158-168 | Boxes are nonempty and every source coordinate is in exactly one |
| Downscale.BoxesEven | server/internal/httpapi/monitor.go:158-168 | No box is more than one wider or higher than another |
| Downscale.PixelAverage | server/internal/httpapi/monitor.go:171-178 | A box of one pixel comes out as that pixel, channel by channel |
| Downscale.AverageIs | server/internal/httpapi/monitor.go:169-178 | An averaged channel is the box's mean in units of 256, rounded down |
| Downscale.EveryPixelCountedOnce | server/internal/httpapi/monitor.go:158-176 | Summed over all boxes, a channel adds up to its sum over the whole image |
| Downscale.AverageBetween | server/internal/httpapi/monitor.go:177-180 | An averaged channel lies between its box's smallest and largest value |
| Downscale.SumBox | server/internal/httpapi/monitor.go:169-176 | The inner loops compute the four channel sums and the area |
| Downscale.Downscale | server/internal/httpapi/monitor.go:134-182 | Returns the source exactly if it is empty or already fits, else an image whose every pixel is its box's average |

## Left out

- TLS, certificate pinning, password hashing, end-to-end encryption: foreign libraries; an encrypted clip is one with the encrypted flag.
- HTTP routing, sessions, cookies, rate limits, mDNS: plumbing around the modelled calls.
- The monitor feed: best-effort, it drops events by design. Presence notices are control frames in the connection logs, offered at any time to a connection that is serving or gone; that peers' view of presence is exact is not claimed.
- The hub's calls of `resolveTargets`: the relay's theorems hold for every list of targets; only `RelayTargets` is about resolved ones. The machine's pool changes may name devices that are not in the store.
- Write deadlines, pings, the idle watchdog: timing. A connection may end at any point after its requeue, and a write pump may stop at any frame.
- Errors of bbolt, the file system and JSON, which the program logs and ignores.
- The engine's clipboard capture, image codecs, echo filters, backoff delays; the user interfaces; the Android client.
- Frames left in the buffer of a closed connection: they count as sent and are not recovered, as in the program.
- RelayHub.Hub.HandleRegister: does not model the last-seen write or the contents of hello_ok.
- RelayHub.Hub.HandleUnregister: does not model the last-seen write, which is `Registry.Store.Touch`.
- RelayHub.Hub.HandleEvict: does not state the close reason.
- RelayHub.Hub.HandleRoute: takes the resolved targets as given, and does not model the activity counter and the monitor event, which no other code of the model reads.
- Client pointers shared between goroutines: the hub finds its client objects by number in a table whose entries are distinct objects.
- QueueStore.Queues.Enqueue: says what the one enqueue that wraps the counter does, not what later ones do to a bucket whose keys a wrapped counter hands out again.
- BlobGc.RunGc: requires recorded sizes to be zero or true, which the put, touch and ACL writes keep; with false sizes the cap need not be reached. Ties in access time are evicted in any order. Paths are cleaned lexically; links are not followed.
- BlobStore.FsBlobStore.DiskUsage: counts blobs only; the walk would also count other files under the root, which the program never makes.
- BlobGc.Housekeeping: leaves out the purge of sessions.
- Registry.Store.MaybeRotate: and CommitRotation describe calls that nothing interrupts; Rotation takes their transactions apart.
- CollectorRuns.DeletedIff: is about well-formed ids; usage and charged sizes are arbitrary there, so how many entries are squeezed out is not determined.
- PullProtocol.NoLostWakeup: says nothing about a GET whose timeout or cancellation wins the race; those leave without the file, as in the program.
- Rotation.HeldTokenIsAccepted: is about one device, whose record is only changed by its own connections; deletion and revocation end the run.
- Registry.RunConsistentIff: models lower-casing for ASCII letters only.
- Downscale.Downscale: sums are unbounded integers; the program's 64-bit sums would only overflow for boxes of more than 2^48 pixels. Pixel access is a function of the coordinates.
