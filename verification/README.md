# Verification of ldk-node's concurrent and fault-tolerant core

This project models, in Dafny, the protocols that ldk-node puts around LDK, BDK and tokio,
and proves what they promise. `dafny verify dfyconfig.toml` checks all of it.

What is modelled, one module per file:

- `Lifecycle`: `Node::start` and `Node::stop` with the task groups, leftover trackers and
  processor handle of `RuntimeControl`, and the failure callback of a dying event
  processor, as one transition system whose atomic steps interleave freely.
- `MempoolClient` and `MempoolSync`: the caches, emission, eviction and watermark of
  `BitcoindClient`, and runs of polls with failures at any point against a wallet whose
  account set may change at any point.
- `CountedCodec`, `PeerStore`, `PeerRecovery`: the counted list encoding, the rolled-back
  peer store, and concurrent peer operations with recovery passes under the exclusion lock
  and the mutation lock.
- `ElectrumErrors` and `ElectrumClients`: reading the outcome of a broadcast, and
  concurrent reconnects and broadcasts over the one shared client.
- `SingleFlight` and `SingleFlightRuns`: `WalletSyncStatus`, the pending connections and
  the retry loop of a poll, and concurrent callers of such a registry.
- `HeaderCache`, `Migration`, `EventQueue`, `Hex`, `WalletEvents`: the bounded header cache,
  channel-data migration, the persisted event queue, hex keys and wallet-event
  deduplication.
- `DataStore` and `DataStoreRuns`: the write-through object store, and its operations
  running concurrently.

How it is modelled. Code that runs interleaved is a transition system: a state, steps
whose parameters carry the nondeterminism, `Enabled` and `Apply`, and theorems about every
run. Lock sections and waits are steps. Code that runs in one go is a class or a method
with the source's loop, proved against a function, and the theorems are about that
function. Store reads and writes, network replies, clocks and hash-map iteration order are
parameters that may take any value; a failed write leaves the store as it was. LDK's
element codecs are abstract: an encoding decodes back whatever follows it.

Where a property does not hold for every input, there is a lemma with a concrete run or
input that breaks it, and a lemma that says exactly when it holds:

- A mempool transaction that arrives dated below the committed watermark, or that bitcoind
  lists but cannot produce, is not handed to the wallet by later polls without a replay
  (`MempoolSync.LateArrivalIsMissed`, `MempoolSync.UnavailableTransactionIsMissed`,
  `MempoolSync.DeliveredIff`).
- Closing the last channel with a peer excludes it from recovery and removes it in two
  critical sections; a connect in between takes the exclusion away again
  (`PeerRecovery.CloseCanLoseExclusion`). The peer stays out exactly if it is protected
  when the removal is written (`PeerRecovery.ClosedPeerStaysOutIff`), which a caller
  ensures by keeping connects to it clear of the close
  (`PeerRecovery.CloseWithoutConnectIsSafe`).
- Lists of 65536 or more elements lose elements over a restart
  (`CountedCodec.RoundTripIff`, `EventQueue.RestartRestoresIff`).
- Two tasks lead a single-flight key at once exactly if an initial chain sync of it starts
  while a task leads it (`SingleFlightRuns.TwoLeadIffInitialSyncCutsIn`,
  `SingleFlightRuns.InitialSyncCanCutIn`). A leader that is dropped midway leaves its key
  registered exactly until the next initial sync, which takes it over
  (`SingleFlightRuns.StaleUntilInitialSync`, `SingleFlightRuns.InitialSyncTakesOver`).
- The header cache's queue of hashes names the cached ones, each once, exactly if no block
  is reconnected while queued (`HeaderCache.ExactIffNeverReconnected`). Otherwise it grows
  without bound, and such a block is evicted by its first place in the queue
  (`HeaderCache.QueueCanGrowWithoutBound`, `HeaderCache.ReconnectedIsEvictedFirst`).
- `DataStore::update` and `remove` change memory before they write
  (`DataStore.AgreementKeptIff`), and `remove` gives up the lock in between. Over every
  interleaving, memory and store agree exactly if no such write fails and no stored entry
  is erased while its object is back in memory (`DataStoreRuns.RunConsistentIff`,
  `DataStoreRuns.InsertDuringRemovalIsLost`).

## Model

| member | source | states |
|---|---|---|
| Lifecycle.StepKeepsInv | src/runtime.rs:152-431 | every step of `start`, `stop`, timeouts, tasks, processors and failure callbacks keeps: live work is held, closed groups are accounted for, flags fit the processor slot |
| Lifecycle.LiveWorkIsAlwaysHeld | src/runtime.rs:205-240 | in every run, each live task is in a current group or a kept tracker, each live processor in exactly one known place, and no slot is filled while it holds something (the assertion at the processor spawn) |
| Lifecycle.ClosedTrackerNeverReopens | src/runtime.rs:152-199 | over any stretch of a run, a tracker once closed never admits a task again |
| Lifecycle.SpawnsAllowedOnlyWhenQuiet | src/runtime.rs:152-240 | when `allow_task_spawns` has returned true, every processor ever spawned has ended and no task of any generation closed at any earlier point is alive |
| Lifecycle.HistoryOnlyGrows | src/lib.rs:700-703 | over any stretch of a run, processors are only added, keep their generation and never outrun the counter |
| Lifecycle.StaleCallbackNeverWritesAfterStart | src/lib.rs:230-244 | once a `start` returned Ok, no callback of an earlier start takes another step, in whatever phase it was detached, so the flags are never written on its behalf |
| Lifecycle.FlagsBetweenCalls | src/lib.rs:727-787 | between lifecycle calls the node is running, failed or without processor handle, and once the callback is over failed implies not running, however it interleaved with the end of `start` |
| Lifecycle.LateCheckNeverWrites | src/lib.rs:819-897 | a callback that compares generations only after `stop` took the next one changes nothing |
| MempoolClient.LookUpAllFacts | src/chain/bitcoind.rs:1101-1127 | a refresh keeps cached entries as they are and adds only what bitcoind answered |
| MempoolClient.LookUpAllComplete | src/chain/bitcoind.rs:1101-1127 | after a refresh without error every listed txid is cached unless bitcoind no longer had it |
| MempoolClient.EvictedFacts | src/chain/bitcoind.rs:1282-1293 | evicted are exactly the unconfirmed txids missing from the cache, never before their last-seen time or the given time |
| MempoolClient.BitcoindClient.constructor | src/chain/bitcoind.rs:756-768 | a new client has watermark zero and empty caches |
| MempoolClient.BitcoindClient.UpdateEntriesCache | src/chain/bitcoind.rs:1101-1127 | the loop computes `RefreshCache`, also when it stops at an error |
| MempoolClient.BitcoindClient.CollectTransactions | src/chain/bitcoind.rs:1191-1253 | for any iteration order, the transactions emitted are exactly those selected and available, each once, the next watermark is the largest time seen, and it fails exactly if some needed lookup fails |
| MempoolClient.BitcoindClient.GetUpdatedTransactions | src/chain/bitcoind.rs:1130-1147 | an update's emitted and evicted txids are disjoint, the evicted ones are exactly the wallet's unconfirmed ones missing from the snapshot, and no eviction predates last-seen, the watermark or the watermark to be committed |
| MempoolClient.BitcoindClient.CommitTimestamp | src/chain/bitcoind.rs:1304-1314 | a commit never lowers the watermark |
| MempoolSync.CompletedPollDelivered | src/chain/bitcoind.rs:485-525 | in every run, when a poll completes, everything in its snapshot was handed to the wallet under the current account generation, except what arrived late or could not be produced |
| MempoolSync.SuccessfulSyncDeliversSnapshot | src/chain/bitcoind.rs:485-525 | if what a refresh newly caches is dated no earlier than any snapshot taken to its end before, and bitcoind produces what it lists, a completed poll has delivered its whole snapshot under its generation, whatever failed or changed before |
| MempoolSync.SuccessfulSyncDeliversListing | src/chain/bitcoind.rs:1101-1127 | so every txid listed to the completed poll is delivered, unless its entry was gone when asked for |
| MempoolSync.NobodyExcused | src/chain/bitcoind.rs:732-737 | under those two assumptions no cached transaction is ever passed over |
| MempoolSync.WatermarkWasSeen | src/chain/bitcoind.rs:1191-1253 | the watermark is zero or a time in an earlier snapshot that was taken to its end |
| MempoolSync.WatermarkNeverDecreases | src/chain/bitcoind.rs:1304-1314 | over any stretch of a run the watermark never goes down |
| MempoolSync.DeliveredIff | src/chain/bitcoind.rs:732-737 | a poll leaves a cached entry delivered exactly if it was so before, or the account set is still the poll's, the entry is selected by replay, height or time, and the transaction is cached or can be produced |
| MempoolSync.StuckStaysStuck | src/chain/bitcoind.rs:732-737 | an undelivered entry below the watermark stays undelivered while the account set stays, it stays listed and its height stays processed |
| MempoolSync.LateArrivalIsMissed | src/chain/bitcoind.rs:1101-1127 | a concrete run in which a late-dated arrival is missing from the wallet after a successful poll |
| MempoolSync.UnavailableTransactionIsMissed | src/chain/bitcoind.rs:1191-1253 | a concrete run in which a transaction bitcoind could not produce is passed over for good |
| CountedCodec.ReloadTruncates | src/peer_store.rs:160-186 | a list read back is its prefix of length modulo 65536 |
| CountedCodec.RoundTripIff | src/event.rs:1080-1105 | a list reads back as written exactly if it has fewer than 65536 elements |
| CountedCodec.Write | src/event.rs:1095-1105 | the writing loop computes the encoding |
| CountedCodec.Read | src/event.rs:1080-1092 | the reading loop computes the decoding, and fails exactly where it does |
| PeerStore.RestartReadsBackIff | src/peer_store.rs:160-186 | for any iteration order, a restart reads back the same map exactly if it has fewer than 65536 peers |
| PeerStore.Store.constructor | src/peer_store.rs:40-44 | a store starts with memory equal to what was loaded |
| PeerStore.Store.AddPeer | src/peer_store.rs:46-79 | memory and store agree afterwards; a failed write changes neither, a known address writes nothing |
| PeerStore.Store.RemovePeer | src/peer_store.rs:81-97 | memory and store agree afterwards; a failed write changes neither |
| PeerStore.Store.MissingPeers | src/peer_store.rs:216-245 | the candidates are exactly the counterparties that are announced, not excluded and not stored, each once |
| PeerStore.Store.AddEach | src/peer_store.rs:248-262 | of the candidates, exactly those whose write is accepted are added, and a failed one does not stop the others |
| PeerStore.Store.PersistMissingPeers | src/peer_store.rs:216-263 | a recovery pass adds exactly the candidates whose write was accepted |
| PeerRecovery.StepKeepsInv | src/peer_store.rs:46-97 | every interleaved step keeps: locks are held by those inside them, recovery works on no excluded peer, memory is the store up to the write under way |
| PeerRecovery.ProtectedPeerStaysOut | src/lib.rs:246-310 | in every run, a peer that is out of the store and protected stays so until an explicit add of it is written |
| PeerRecovery.ProtectedPeerInMemory | src/lib.rs:1285-1290 | such a peer is in memory only while an explicit add of that very peer has its write in flight |
| PeerRecovery.DisconnectedPeerStaysOut | src/lib.rs:1319-1335 | after a disconnect was written, no interleaving of recovery passes and other operations puts the peer back before an explicit add |
| PeerRecovery.StaysOutIffProtected | src/lib.rs:246-310 | in every reachable state, whoever holds the locks, a peer not in the store stays out in every continuation without an explicit add exactly if it is excluded with no connect about to lift that, or a disconnect of it is about to exclude it |
| PeerRecovery.ClosedPeerStaysOutIff | src/lib.rs:1813-1819 | after the close of the last channel was written, the peer stays out in every such continuation exactly if it was protected at that write |
| PeerRecovery.CloseWithoutConnectIsSafe | src/lib.rs:1813-1819 | it stays out if no connect to it is under way between the close's two critical sections |
| PeerRecovery.UnprotectedPeerComesBack | src/lib.rs:392-404 | from any reachable state in which a peer is neither stored nor protected, a recovery pass can write it back without any explicit add |
| PeerRecovery.CloseCanLoseExclusion | src/lib.rs:1813-1819 | a concrete run in which a connect between the close's two critical sections leaves the peer removed but not excluded |
| PeerRecovery.MemoryEqualsDiskWhenUnlocked | src/peer_store.rs:46-97 | in every run, whenever the mutation lock is free memory equals the store |
| PeerRecovery.FailedWriteChangesNothing | src/peer_store.rs:46-97 | a mutation whose write fails leaves memory and store as they were when it took the lock, whatever ran meanwhile |
| PeerRecovery.NeverDeadlocked | src/lib.rs:246-310 | in every reachable state, if some operation is not done then some operation can take a step |
| ElectrumErrors.BrokenIffSomeAttemptLostIt | src/chain/electrum.rs:105-119 | an error counts as a broken connection exactly if some attempt nested in it lost the connection other than by a timeout |
| ElectrumClients.ReplacedOnlyByItsOwnTask | src/chain/electrum.rs:803-838 | the current client changes only in the swap of a task started for that very client |
| ElectrumClients.ClientsOnlyGetNewer | src/chain/electrum.rs:803-838 | over any run the current client is never an older one again |
| ElectrumClients.ReplacedAtMostOnce | src/chain/electrum.rs:803-838 | under any interleaving a failed client is replaced at most once |
| ElectrumClients.ReportIsRight | src/chain/electrum.rs:803-838 | at the moment a task reports, it reports true exactly if the current client differs from the one it was given |
| ElectrumClients.ReplacedForGood | src/chain/electrum.rs:803-838 | a task that reported true was given a client that is not, and never again becomes, current |
| ElectrumClients.BroadcastContract | src/chain/electrum.rs:986-1092 | a finished broadcast made one or two submissions, the second only after a broken connection, on another client and with time left; each is waited for as long as was left of the one deadline when its wait was worked out; Accepted exactly if the last submission returned the computed txid, Unknown if it was not answered, Rejected only for a server's refusal classified so |
| SingleFlight.PendingConnections.constructor | src/connection.rs:35-38 | nothing is pending |
| SingleFlight.PendingConnections.RegisterOrSubscribe | src/connection.rs:116-131 | registers the first caller and subscribes the others |
| SingleFlight.PendingConnections.SendToAll | src/connection.rs:137-150 | the loop sends the result to each of the senders once |
| SingleFlight.PendingConnections.PropagateResult | src/connection.rs:133-150 | the result goes once to every subscriber of that node id and to nobody else, and the registration ends |
| SingleFlight.PendingConnections.LeadConnect | src/connection.rs:50-114 | every exit of a leading connect publishes exactly what it returns |
| SingleFlight.WalletSync.constructor | src/chain/mod.rs:45-48 | the status starts completed |
| SingleFlight.WalletSync.RegisterOrSubscribe | src/chain/mod.rs:51-67 | the status is a registry with one key |
| SingleFlight.WalletSync.PropagateResult | src/chain/mod.rs:69-95 | the result goes once to every subscriber, and the status is back at completed |
| SingleFlight.WalletSync.PollAsLeader | src/chain/bitcoind.rs:316-385 | at most four polls, exactly one result published on every exit with the status completed, Ok only if the generation read under the lock is the poll's, retries only after an account change |
| SingleFlightRuns.TwoLeadIffInitialSyncCutsIn | src/chain/mod.rs:45-96 | in any run, two tasks ever lead a key at once exactly if an initial sync of it starts while a task leads it |
| SingleFlightRuns.LeaderIsUnique | src/chain/mod.rs:45-96 | until that happens, the leader of a key is unique and its key registered |
| SingleFlightRuns.SubscriberGetsFirstResult | src/connection.rs:50-152 | in any run, a subscriber that returns, returns the first result published under its key after it subscribed and is sent nothing else; it comes from a task that was leading then exactly unless that is an initial sync started since |
| SingleFlightRuns.NoSubscriberForgotten | src/chain/mod.rs:45-96 | in any run, a waiting subscriber has been sent that first result, or there is none yet and its registration stands |
| SingleFlightRuns.RegisteredIffLedOrAbandoned | src/connection.rs:50-152 | unless an initial sync cuts in, a key is registered exactly while a task leads it, or after its leader was dropped and before the next initial sync of it |
| SingleFlightRuns.StaleUntilInitialSync | src/chain/bitcoind.rs:251-266 | in any run, a registration nobody leads stays so exactly until the next initial sync of its key |
| SingleFlightRuns.StaleSinceDrop | src/chain/bitcoind.rs:172-176 | such a registration was left behind by a leader that was dropped |
| SingleFlightRuns.InitialSyncTakesOver | src/chain/bitcoind.rs:187-204 | the next initial sync leads it alone, and its result ends it and goes to its subscribers |
| SingleFlightRuns.InitialSyncCanCutIn | src/chain/bitcoind.rs:152-159 | a concrete run in which the initial sync starts beside a leader: two lead, a subscriber gets the initial sync's result, and the other leads on unregistered |
| HeaderCache.EvictRemovesOldest | src/chain/bitcoind.rs:1538-1545 | an eviction removes exactly one header, the one whose hash was queued first |
| HeaderCache.CacheIsBoundedAndCurrent | src/chain/bitcoind.rs:1514-1552 | after any history fewer than 100 headers are cached, all still queued, and every hit is the header last connected under that hash |
| HeaderCache.EvictsInConnectionOrder | src/chain/bitcoind.rs:1534-1546 | while no hash is reconnected in the queue, the cache is the bounded first-in-first-out queue of connections, and the queue has fewer than 100 entries |
| HeaderCache.ExactIffNeverReconnected | src/chain/bitcoind.rs:1534-1551 | all along a history the queue names exactly the cached hashes, each once, if and only if no hash is reconnected while queued |
| HeaderCache.ReconnectedIsEvictedFirst | src/chain/bitcoind.rs:1534-1546 | a hash reconnected while queued is evicted by its first place |
| HeaderCache.QueueCanGrowWithoutBound | src/chain/bitcoind.rs:1534-1546 | n connections of one hash leave n queue entries |
| HeaderCache.BoundedHeaderCache.constructor | src/chain/bitcoind.rs:1522-1526 | a new cache is empty |
| HeaderCache.BoundedHeaderCache.LookUp | src/chain/bitcoind.rs:1530-1532 | a hit exactly for cached hashes, with the cached header |
| HeaderCache.BoundedHeaderCache.BlockConnected | src/chain/bitcoind.rs:1534-1546 | the popping loop computes `Connected` and keeps the bound |
| HeaderCache.BoundedHeaderCache.BlockDisconnected | src/chain/bitcoind.rs:1548-1551 | removes the hash everywhere and returns its header |
| Migration.MigratesAPrefix | src/builder.rs:1571-1721 | however it ends, exactly a prefix of the monitors was migrated, all of them on Ok |
| Migration.NothingIsLost | src/builder.rs:1649-1700 | however it ends, no stored update id goes down and no undecodable or equal-or-newer monitor is overwritten |
| Migration.ManagerOnlyFilledIn | src/builder.rs:1578-1621 | an existing manager is never touched, a missing one is there on Ok |
| Migration.OkReachesTheMaximum | src/builder.rs:1624-1716 | on Ok every readable channel is at the maximum of stored and migrated update ids |
| Migration.OrderDoesNotMatter | src/builder.rs:1624-1716 | the resulting update ids do not depend on order or repetition of the monitors |
| Migration.RetryCompletes | src/builder.rs:1571-1721 | rerunning a migration that stopped at any fault gives the update ids of a clean run |
| Migration.MigrationIsIdempotent | src/builder.rs:1571-1721 | migrating again after Ok changes nothing |
| Migration.ChannelStore.ApplyMigration | src/builder.rs:1571-1721 | the loop computes `Migrate`, for any read and write faults |
| EventQueue.InAddOrder | src/event.rs:1001-1061 | in every run the queue holds events in add order, and a restart can read the store |
| EventQueue.DeliveredInAddOrder | src/event.rs:1016-1019 | without a restart between, events are delivered in add order |
| EventQueue.OkAddSurvives | src/event.rs:1001-1014 | an event whose add returned Ok is in the queue and the store, across restarts, until it is popped |
| EventQueue.OkHandledNeverReturns | src/event.rs:1025-1038 | an event whose handling returned Ok is never in the queue or the store again |
| EventQueue.FailedAddStaysInMemory | src/event.rs:1001-1014 | an event whose add failed is queued but not stored |
| EventQueue.RestartRestoresIff | src/event.rs:1080-1105 | a restart restores the queue exactly below 65536 events; at 65536 it comes back empty |
| EventQueue.Queue.constructor | src/event.rs:995-999 | a new queue is empty and nothing is stored |
| EventQueue.Queue.Persist | src/event.rs:1040-1061 | the store has the given bytes, or on failure what it had |
| EventQueue.Queue.AddEvent | src/event.rs:1001-1014 | pushes, then writes the whole queue |
| EventQueue.Queue.NextEvent | src/event.rs:1016-1019 | the front, if there is one |
| EventQueue.Queue.EventHandled | src/event.rs:1025-1038 | pops, then writes the whole queue |
| EventQueue.Queue.Reopen | src/event.rs:1064-1078 | a new process has what the store says, and fails exactly if that cannot be read |
| Hex.HexRoundTrip | src/hex_utils.rs:10-39 | what was written in hex reads back |
| Hex.HexInjective | src/hex_utils.rs:33-39 | different ids have different keys |
| Hex.HexWritesBack | src/hex_utils.rs:10-30 | what was read writes back as the same digits in lower case, without an odd last one |
| Hex.ToString | src/hex_utils.rs:33-39 | the loop computes `ToHex` |
| Hex.ToVec | src/hex_utils.rs:10-30 | None exactly if some character is no hex digit, otherwise the bytes of the digit pairs |
| DataStore.HexKeysNameIds | src/payment/store.rs:162-166 | the hex string of an id's bytes reads back as that id |
| DataStore.DiskDeterminesMemory | src/data_store.rs:58-65 | while memory and store agree, the store determines the memory |
| DataStore.AgreementKeptIff | src/data_store.rs:67-171 | an operation keeps memory and store in agreement exactly unless it is an effective update or removal whose write fails |
| DataStore.AgreementSurvives | src/data_store.rs:67-171 | any sequence of inserts with any write failures, mixed with updates and removals that succeed, keeps them in agreement |
| DataStore.FailedInsertIsRetryable | src/data_store.rs:67-97 | a failed insert changes nothing, and a retry has the effect of a success at once |
| DataStoreRuns.HalvesMakeRemoval | src/data_store.rs:99-121 | undisturbed, the two lock sections of a removal are the removal as a whole |
| DataStoreRuns.ConsistentKeptIff | src/data_store.rs:67-171 | a step keeps agreement up to the removals under way exactly unless it is an effective update whose write fails, an erasure of an object that is back in memory, or a failed erasure of one that is not |
| DataStoreRuns.RunConsistentIff | src/data_store.rs:67-171 | over every interleaving, all states agree up to the removals under way exactly if no such step is taken |
| DataStoreRuns.ConsistentWhenQuietIffAgree | src/data_store.rs:99-121 | with no removal under way, that is agreement of memory and store |
| DataStoreRuns.UndisturbedRemovalsAgree | src/data_store.rs:99-121 | if inserts of an id keep clear of removals of it and the writes of updates and removals succeed, memory and store agree whenever no removal is under way |
| DataStoreRuns.InsertDuringRemovalIsLost | src/data_store.rs:99-101 | in any quiet, agreeing state of any run, an insert between the two halves of a removal is kept in memory and lost in the store |
| DataStore.Objects.Persist | src/data_store.rs:149-171 | the object's entry under its own key is written, or on failure nothing |
| DataStore.Objects.InsertObject | src/data_store.rs:67-73 | new state and result of an insert |
| DataStore.Objects.InsertOrUpdateObject | src/data_store.rs:75-97 | new state and result, with agreement kept even when the write fails |
| DataStore.Objects.UpdateObject | src/data_store.rs:127-141 | new state and result of an update, memory changed before the write |
| DataStore.Objects.RemoveObject | src/data_store.rs:99-121 | new state of a removal, and that it fails exactly if something was removed and the write failed |
| WalletEvents.FirstsExactly | src/chain/mod.rs:450-455 | the positions told are exactly the first occurrences per kind and txid, in order |
| WalletEvents.ToldAreTheFirsts | src/chain/mod.rs:441-583 | what is told is what those positions forward, in their order |
| WalletEvents.NeverToldTwice | src/chain/mod.rs:450-455 | no txid is told twice under one kind |
| WalletEvents.NothingForgotten | src/chain/mod.rs:441-583 | every event that is forwarded at all is told under its kind and txid |
| WalletEvents.ConfirmedOnlyInAggregate | src/chain/mod.rs:459-497 | confirmations are told only for txids confirmed in the aggregate wallet, with its block |
| WalletEvents.Consider | src/chain/mod.rs:457-580 | one turn of the loop forwards an event exactly if its kind and txid were not told, and keeps the four sets exact |
| WalletEvents.ProcessWalletEvents | src/chain/mod.rs:441-583 | the loop adds exactly the told sequence, or the prefix that ends with the first failed add |

## Left out

- Lifecycle: cancellation tokens, `Runtime::drop`, `try_block_on` and wrap-around of the 64-bit generation counter; cancelling only makes tasks end sooner, which any step of the model may do.
- Lifecycle: everything `start` sets up besides tasks and the processor, which is one step that may fail.
- MempoolSync: the synchronisation of chain listeners, including `AccountChainListener`, is one of the points at which a poll may stop; the account generation stays below the 64-bit sentinel.
- MempoolSync: one poll is in flight at a time. An initial sync that cuts in (`SingleFlightRuns.InitialSyncCanCutIn`) breaks that: the slower of the two polls may then evict what the faster one delivered, below the watermark the faster one committed.
- PeerRecovery: an operation runs to its end once launched; the source does not clean up after a peer-store future dropped midway.
- ElectrumErrors: JSON is given by the members the code looks at, and trimming knows ASCII white space only.
- SingleFlight: a receiver that was dropped is still sent its result; the source logs that the send failed.
- SingleFlight: the wait for the peer in `do_connect_peer`, with its ten-millisecond polls, is one parameter.
- Migration: a decoded monitor is given by its key and update id; what else it holds is carried as bytes.
- EventQueue: operations are serial, and the waker of `next_event_async` is not modelled; concurrent writes of snapshots may overtake each other in the source.
- DataStore: how an object applies an update is abstract; `DataStoreRuns` has the operations run concurrently, with each write or erasure of the store taking effect at once.
- `apply_wallet_sync_results`, `check_evicted_transactions` and `classify_bitcoind_broadcast` would add easy members only.
- RPC, REST, Electrum and Esplora transport, fee estimation, gossip, scoring, payments, LSPS and the language bindings are not part of this model.
