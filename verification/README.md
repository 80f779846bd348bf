# reconcile: a verified model of its protocols and simulators

reconcile keeps a key-value map eventually consistent across nodes. Every write carries a stamp from
a hybrid logical clock, the greater stamp wins, deletions are tombstones, and peers acknowledge the
tombstones they hold. This project models the parts of the repository that carry its guarantees, and
proves those guarantees for every input and every run.

| core | files | main results |
|---|---|---|
| last-writer-wins replica with tombstone receipts | `Lww`, `Clock`, `Replica`, `Cluster`, `Stability`, `StabilityLimits`, `Acknowledgment`, `Convergence` | two-phase apply linearizes exactly when no screened-out update is needed; a held stamp, and so a recorded receipt, stays true at a node exactly until that node inserts below it for that key; a node's map is the winners of what it absorbed exactly while it makes no stale insert, so such replicas converge; a node has acknowledged every tombstone it holds and did not write itself, after every run; no stamp collision ever happens; a collected key can come back exactly when an older update of it is in circulation |
| bulk admission | `Admission`, `AdmissionRate`, `AdmissionHistory` | GCRA rate bound over every window, equality with token buckets over every history, bounded tables, invisible rejections, real back-off |
| broadcast coalescing | `Coalesce` | over every interleaving exactly one flush is owed iff something is pending, the buffer holds the winners of its window, a flush emits exactly those, and receivers cannot tell batches from single writes |
| fragment recovery simulator | `FragmentGeometry`, `FragmentRecovery`, `FragmentAccounting`, `FragmentLockstep`, `FragmentParity`, `FragmentTiming`, `FragmentRestore`, `FragmentPeak`, `FragmentLedger` | whole retry and missing-only run in lockstep; parity trails missing-only under some draws iff the burst hides more from it; received set, attempts, report, peak, datagrams and time in closed form under every policy; all books balance; every recovery round costs a round trip |
| ordered-stream simulator | `StreamChunks`, `StreamModel`, `StreamQueue`, `StreamInvariant`, `StreamSteps`, `StreamSums`, `StreamRun`, `StreamCost`, `StreamLockstep`, `StreamOrder`, `StreamTiming`, `StreamDelivery`, `StreamHol`, `StreamMetrics`, `SweepLine` | the loop ends with everything delivered and no assertion of the source fires; every iteration sends exactly the chunk that is due, and round-robin brings every message its turn; arrivals, first sends and the link's clock are those of the attempts made; the metrics measure what they are named for; attempts, reports and total wire bytes depend on the loss draws alone; one stream per message is never worse than one shared stream and sends exactly the same packets; the sweep line is exact |
| timeout wheel | `TimeoutWheel` | the two-way index refines a plain map |

`Options`, `Arithmetic`, `Sorting` and `Runs` are shared: optional values, small arithmetic, insertion
sort, and what a step that keeps a property does for whole runs.

## How the model is set up

* Stateful objects of the source are classes (`Replica.Replica`, `Clock.HlcClock`,
  `Admission.BulkAdmission`, `Coalesce.Coalescer`, `TimeoutWheel.TimeoutWheel`). Each method is proved
  equal to a function on a value (`View()`), and the theorems are about runs of those functions.
* The simulators' loops are methods proved equal to specification functions; theorems speak of
  `After(env, n)`, the state after `n` iterations.
* The cluster's network loses, repeats and reorders: everything ever sent stays deliverable to any
  node any number of times, and a message nobody picks is lost. A disabled step changes nothing, so
  every list of steps is a run.
* Loss, reordering, physical clock readings and hook interleavings are parameters. Times in the
  simulators are exact reals; admission instants are integer nanoseconds.

## Where the promise and the code differ

* `just_insert` (src/replica/write.rs:84-105) overwrites unconditionally, with a stamp taken before the
  write lock (src/replicated_map/write.rs:95-98, 113-116). A newer deletion merged in between, or one
  whose stamp lies beyond the drift budget the clock is clamped to, is overwritten by an older stamp. So
  none of the following holds of every run.
  * "A tombstone, once held, is never undercut", and with it "a receipt stays true":
    `StabilityLimits.SplitWriteRevivesADeletedKey` and `ClampedClockRevivesADeletedKey` are runs that
    break it. It holds of a node, key and stamp exactly as long as that node inserts nothing below that
    stamp for that key (`Cluster.NoResurrection`, `Stability.ReceiptMeansHeldEverAfter`), a check on the
    stamp at the moment of the insert. For no entry anywhere ever to be lowered the condition is that
    no insert is stale (`Cluster.StepLowersIffStale`, `Cluster.FreshIffMonotone`).
  * "Replicas that absorbed the same updates hold the same map":
    `StabilityLimits.SplitWriteBreaksConvergence` is a run that ends with different maps. A node's map is
    the winners of what it absorbed, after every step, exactly while it makes no stale insert itself
    (`Convergence.MapsAreAlwaysWinners`).
  * "Re-applying only the screened updates under the lock equals applying the whole batch":
    `StabilityLimits.SplitWriteMakesTheScreenUnsafe` is a run that reaches a batch for which it does not.
    It does exactly when `Lww.ScreenIsSafe` holds (`Lww.TwoPhaseLinearizes`), in particular whenever
    the map has not been lowered since the snapshot.

  `Stability.PrudentRunsAreFresh` gives a discipline a deployment controls under which all of them hold:
  stamp and insertion in one piece, received stamps within the drift budget.
* Receipts from every member do not make a tombstone safe to collect, which is why the gate is closed
  (src/replica/gc.rs:51-55). `StabilityLimits.ReceiptsAloneAllowResurrection` is a run, and
  `ComesBackIffOlderCirculates` says exactly when a collected key can come back without a new write.
* A tombstone that a finished batch brought and that ends up held is acknowledged with that batch exactly
  when it passed the screen or the snapshot held it already (`Acknowledgment.AcknowledgedIff`). One that
  was screened out against a greater stamp and put back before the lock is not
  (`LoweredTombstoneIsNotAcknowledged`). In every run the node has acknowledged it all the same, when it
  was put back (`FinishAcknowledges`).
* `logical_bytes_for_fragments` yields the requested count exactly under the condition of
  `FragmentGeometry.HelperIsExactIff`.
* "Parity is never behind" fails when a burst covers a unit's position in the wider parity layout but
  not in the plain one; `FragmentParity.FallsBehindIffBurstHidesMore` is the exact condition.

## Model

| member | source | states |
|---|---|---|
| Lww.WinnersUnique | src/replica/coalesce.rs:11-12 | without stamp collisions, a set of updates has exactly one map of winners |
| Lww.MergeAllKeepsWinners | src/replica/dispatch.rs:288-313 | merging a batch one update at a time leaves, per key, the greatest stamp of everything merged so far |
| Lww.OrderAndDuplicationDoNotMatter | src/replica/dispatch.rs:288-317 | two sequences with the same updates, in any order and repetition, merge to the same map |
| Lww.MergeAllAbove | src/replica/dispatch.rs:288-317 | merging never lowers a held stamp, and every merged update ends at or below what is held for its key |
| Lww.ScreenKeeps | src/replica/dispatch.rs:250-275 | the first phase keeps exactly the updates that are absent from or newer than the snapshot |
| Lww.TwoPhaseLinearizes | src/replica/dispatch.rs:246-317 | merging the screened updates under the lock equals merging the whole batch if and only if no screened-out update would still win at lock time |
| Lww.MonotoneInterleavingIsSafe | src/replica/dispatch.rs:246-317 | whatever was written between snapshot and lock, if no entry was lowered the published map is the join of the map at lock time with the whole batch |
| Clock.NextTick | src/clock.rs:159-169 | the next tick is strictly greater, also when the logical counter is full |
| Clock.MintReading | src/clock.rs:159-169 | a minted reading exceeds the last one and is not behind the physical clock |
| Clock.MintIsLeast | src/clock.rs:159-169 | a minted reading is the least representable one past the last reading and not behind the physical clock |
| Clock.ObserveCatchesUp | src/clock.rs:174-192 | observing never moves the clock back, and reaches the remote stamp if and only if it was within the drift budget or already reached |
| Clock.ObserveIsLeast | src/clock.rs:174-192 | an observation leads to the least reading not behind the last one, the physical clock and the remote reading clamped to the drift budget |
| Clock.HlcClock.constructor | src/clock.rs:133-149 | a clock starts at the zero reading with its id and drift budget |
| Clock.HlcClock.Now | src/clock.rs:159-169 | a minted stamp carries the node id, becomes the last reading and exceeds the previous one |
| Clock.HlcClock.Observe | src/clock.rs:174-192 | the last reading moves as the clamped observation says |
| Clock.HlcClock.ObserveTrusted | src/clock.rs:198-206 | the last reading moves past the remote stamp without clamping |
| Clock.RunIsMonotone | src/clock.rs:159-206 | over any interleaving and any physical readings the clock never goes back |
| Clock.MintsStrictlyIncrease | src/clock.rs:159-206 | every minted stamp exceeds the reading after every earlier event |
| Clock.MintsOutrankObserved | src/clock.rs:159-206 | every minted stamp exceeds every trusted or within-budget stamp observed before it |
| Clock.UntrustedStampsStayUnderTheCap | src/clock.rs:159-192 | untrusted peers cannot push the clock past the physical readings plus the drift budget; beyond that every reading passed cost a mint, a full logical counter of them for each further millisecond |
| Replica.Put | src/replica/write.rs:53-76 | inserting through the sink keeps projection and tombstone index in agreement with the map |
| Replica.MergePutAll | src/replica/dispatch.rs:288-315 | a whole batch through the sink is the map merge, keeps the indexes in agreement and touches neither receipts nor membership nor clock |
| Replica.MergeCommutesUnlessCollision | src/replica/collision.rs:31-36 | two entries merge to the same result in both orders if and only if they do not collide |
| Replica.ReportedIffCollides | src/replica/dispatch.rs:288-313 | a batch raises the collision report exactly when one of its updates collides with the entry held at its turn |
| Replica.RecordsExactly | src/replica/dispatch.rs:144-171 | a list of receipts sets exactly its sender's version, for exactly the held tombstones it mentions, to the last version it gives |
| Replica.ObserveAll | src/replica/dispatch.rs:252-255 | after screening a batch the clock is at or past every within-budget stamp in it |
| Replica.CollectCandidate | src/replica/gc.rs:94-131 | exactly a collectible key disappears from map, projection, tombstone index and receipts; every other key, membership and clock stay, and the indexes stay in agreement |
| Replica.StableIffNothingPending | src/replica/gc.rs:135-173 | every held tombstone has all receipts if and only if no member has a pending acknowledgment |
| Replica.DecommissionedPeerIsNotAwaited | src/replica/membership.rs:139-154 | after a decommission stability asks for exactly the other members' receipts, and no receipt of the peer is left |
| Replica.Replica.constructor | src/replica.rs:76-87 | a new replica is empty and its indexes agree |
| Replica.Replica.MapInsert | src/replica/write.rs:53-76 | map, projection and tombstone index move together, and the previous entry is returned |
| Replica.Replica.Report | src/replica/collision.rs:55-68 | only the first report of a collision answers true |
| Replica.Replica.ScreenUpdates | src/replica/dispatch.rs:246-275 | the loop observes every stamp and yields exactly the screened updates (`Lww.ScreenKeeps`) and a receipt for every snapshot tombstone that an update of the batch does not beat (`Acknowledgment.ScreenAcksExactly`) |
| Replica.Replica.MergeUnderLock | src/replica/dispatch.rs:282-317 | the loop merges against what is held now, reports collisions exactly when there is one (`Replica.ReportedIffCollides`) and yields a receipt for every tombstone it leaves (`Acknowledgment.MergeAcksExactly`) |
| Replica.Replica.RecordTombstoneAcks | src/replica/dispatch.rs:144-171 | receipts are recorded for held tombstones only, the last one per peer and key (`Replica.RecordsExactly`) |
| Replica.Replica.CollectIfStable | src/replica/gc.rs:94-131 | an entry is removed with its receipts exactly when it is an expired, fully acknowledged tombstone of the expected stamp |
| Replica.Replica.GcCollect | src/replica/gc.rs:79-90 | without a collection proof nothing changes and nothing is returned; with one, the entry is removed and returned exactly when it is collectible |
| Replica.Replica.DecommissionPeer | src/replica/membership.rs:139-154 | the peer leaves the membership and every receipt row |
| Cluster.InsertLowersIffOverwrites | src/replica/write.rs:84-105 | an insert lowers a held entry exactly when it overwrites a greater stamp |
| Cluster.StepLowersIffStale | src/replica/gc.rs:51-55 | with collection closed, a step of the cluster lowers some held entry if and only if it is a stale insert |
| Cluster.FreshIffMonotone | src/replica/dispatch.rs:249-317 | a run is free of stale inserts if and only if none of its steps lowers a held entry |
| Cluster.HeldUnlessUndercut | src/replica/write.rs:84-105 | a step takes a held key below a stamp if and only if it is an insert below that stamp for that key at that node |
| Cluster.NoResurrection | src/replica/gc.rs:51-90 | from any point at which a node holds a key at a stamp or above, tombstones included, it does so ever after if and only if it inserts nothing below that stamp for that key; other keys and nodes do not matter |
| Cluster.OnceHeldAlwaysHeld | src/replica/gc.rs:51-90 | over a whole run from any state, once held at a stamp means always held there if and only if no step inserts below it while it is held |
| Cluster.StaleIffUndercuts | src/replica/write.rs:84-105 | an insert is stale if and only if it undercuts some node, key and stamp |
| Cluster.IndexesAlwaysAgree | src/replica/dispatch.rs:281-317 | after every step of every run the projection is the map without stamps and the tombstone index is exactly the tombstone keys |
| Stability.ReceiptInvariants | src/replica/dispatch.rs:144-171 | over every run that does not undercut one node, key and stamp: every receipt sent and every pending snapshot that speaks for that node holding that key at that stamp or above is true, and every recorded receipt was sent |
| Stability.ReceiptMeansHeldEverAfter | src/replica/gc.rs:34-49 | if a node has recorded a peer's receipt for a version not undercut at that peer so far, the peer holds the key at its stamp or above, and does so ever after if and only if it inserts nothing below that stamp for that key |
| Stability.StableMeansEveryMemberHolds | src/replica/gc.rs:135-142 | a tombstone version stable at one node is held at its stamp or above by every member where it was not undercut, and ever after if and only if that member inserts nothing below it |
| Stability.CollectibleIsHeldEverywhere | src/replica/gc.rs:94-131 | what collection would remove is past its retention and held at its stamp or above by every member where it was not undercut |
| Stability.MembersAreTheLastAdmitted | src/replica/membership.rs:139-154 | after every run stability waits for exactly the peers whose last admission was not followed by a decommission |
| Stability.FreshIffUnharmed | src/replica/write.rs:84-105 | a run is free of stale inserts if and only if it undercuts no node, key and stamp |
| Stability.PrudentRunsAreFresh | src/replica/write.rs:84-105 | if writes stamp and insert in one piece and received stamps are within the drift budget, no insert is ever stale |
| StabilityLimits.SplitWriteRevivesADeletedKey | src/replica/write.rs:84-105 | for any two nodes, key and value there is a run where a write stamped before a newer deletion arrives and inserted after it brings the key back below the deletion's stamp |
| StabilityLimits.SplitWriteBreaksConvergence | src/replicated_map/write.rs:113-118 | for any two nodes, key and value there is a run after which both absorbed the same write and deletion, one shows the value and the other the tombstone |
| StabilityLimits.SplitWriteMakesTheScreenUnsafe | src/replica/dispatch.rs:246-317 | for any two nodes, key and two values there is a run that reaches a pending batch whose screened merge is not the merge of the whole batch |
| StabilityLimits.ClampedClockRevivesADeletedKey | src/clock.rs:174-192 | there is a run where a deletion beyond the drift budget is overwritten by a later local write with a smaller stamp |
| StabilityLimits.ReceiptsAloneAllowResurrection | src/replica/gc.rs:51-55 | with the gate open, a prudent run collects a tombstone every member acknowledged and a delayed older update then revives the value |
| StabilityLimits.ComesBackIffOlderCirculates | src/replica/gc.rs:51-90 | in every reachable cluster, a key a node no longer holds can come back below a stamp without a new write if and only if an update of it below that stamp was ever sent or is stamped and not yet inserted |
| Acknowledgment.ScreenAcksExactly | src/replica/dispatch.rs:256-273 | the first phase acknowledges exactly the snapshot tombstones of keys for which the batch has an update that is not greater, equal ones included |
| Acknowledgment.MergeAcksExactly | src/replica/dispatch.rs:288-313 | the second phase acknowledges exactly the tombstones held right after an update of their key was merged |
| Acknowledgment.AcknowledgedIff | src/replica/dispatch.rs:246-317 | a tombstone of a batch that ends up held is acknowledged with the batch if and only if it passed the screen or the snapshot held exactly it |
| Acknowledgment.LoweredTombstoneIsNotAcknowledged | src/replica/dispatch.rs:246-317 | a tombstone screened out against a greater stamp and put back before the lock is the failing case |
| Acknowledgment.HeldTombstonesAreAcknowledged | src/replica/dispatch.rs:246-317 | after every run, collection open or closed, a node has sent a receipt for every tombstone it holds and did not write itself |
| Acknowledgment.FinishAcknowledges | src/replica/dispatch.rs:246-317 | in every run, once a batch is finished every tombstone of it that the snapshot held or that is held now is acknowledged, so a repeated delivery is answered like the first |
| Acknowledgment.MissedTombstonesAreAnswered | src/replica/dispatch.rs:246-317 | in every run a stamped write is inserted at most once, and a tombstone a screen dropped without a receipt is acknowledged whenever it is held again |
| Acknowledgment.ResendCoversHeld | src/replica/reconciliation.rs:159-199 | repeating the receipts acknowledges every tombstone held, own ones included, whatever the run so far |
| Convergence.CollisionsNeverHappen | src/replica/collision.rs:31-36 | with distinct node ids and no restart, every stamp in circulation is unique and no node ever reports a collision |
| Convergence.WinnersStepIff | src/replica/write.rs:84-105 | a step leaves a node's map the winners of what it absorbed if and only if it is not a stale insert at that node |
| Convergence.MapsAreAlwaysWinners | src/replica/dispatch.rs:246-317 | after every step of a run a node's map is exactly the winners among the updates it absorbed, if and only if no step is a stale insert at that node |
| Convergence.ReplicasConverge | src/replica/dispatch.rs:246-317 | two nodes that made no stale insert and absorbed the same updates, in any order, batching, interleaving and repetition, hold equal maps and projections, whatever other nodes did |
| Convergence.FreshMeansFreshEverywhere | src/replica/write.rs:84-105 | a run is free of stale inserts if and only if it is free of them at every node |
| Admission.NewConfig | src/replica/admission.rs:63-79 | the interval is one second over the rate to the nearest nanosecond, and positive exactly up to two per nanosecond; the burst is three times the rate up to the 32-bit ceiling |
| Admission.BulkAdmission.constructor | src/replica/admission.rs:63-79 | a limiter starts empty with its configuration |
| Admission.BulkAdmission.PurgeExpired | src/replica/admission.rs:92-98 | purging drops exactly the paid-up and forgotten entries |
| Admission.BulkAdmission.TryAdmitAt | src/replica/admission.rs:81-144 | the verdict and the new state, with each rejection reason in the source's order and nothing charged on rejection |
| Admission.BulkAdmission.RecordAdmission | src/replica/admission.rs:121-143 | an admission charges both limiters and doubles the retry delay of repeated work |
| AdmissionRate.LogConforms | src/replica/admission.rs:111-124 | over every run from any state the admissions of a limiter are spaced as GCRA demands and its arrival time covers them |
| AdmissionRate.WindowBound | src/replica/admission.rs:111-152 | any window of admissions of one peer or of all holds at most the burst plus the window divided by the interval |
| AdmissionRate.RunIsBacked | src/replica/admission.rs:92-143 | every retained arrival time and every remembered work goes back to a logged admission recent enough |
| AdmissionRate.PeerTableIsBounded | src/replica/admission.rs:92-143 | after every run the peer table has at most burst plus three seconds over interval entries |
| AdmissionRate.RecentTablesAreBounded | src/replica/admission.rs:92-143 | after every run the two tables of recent work together have at most burst plus sixty seconds over interval entries |
| AdmissionHistory.SameHistory | src/replica/admission.rs:81-152 | over every history the credit burst times interval minus debt and the live remembered work equal those of token buckets that never purge |
| AdmissionHistory.DecidesAsTokenBuckets | src/replica/admission.rs:81-152 | every call is answered exactly as the token buckets answer it |
| AdmissionHistory.PurgeTwice | src/replica/admission.rs:92-98 | an earlier purge is unobservable after a later one |
| AdmissionHistory.RejectionsAreInvisible | src/replica/admission.rs:92-119 | deleting all rejected calls from a run changes no later verdict |
| AdmissionHistory.BackoffSchedule | src/replica/admission.rs:18-21 | the required gaps are 1, 2, 4, 8, 16 and then 30 seconds |
| AdmissionHistory.RepeatedWorkBacksOff | src/replica/admission.rs:100-143 | admissions of the same work, with none of other work between and no gap of sixty seconds, are at least the schedule apart |
| Coalesce.Coalescer.constructor | src/replica/coalesce.rs:40-60 | a coalescer starts with nothing pending and no flush owed |
| Coalesce.Coalescer.QueueBroadcast | src/replica/coalesce.rs:40-76 | without a window the batch is broadcast at once and the buffer stays; with one nothing is broadcast, the batch is merged into the buffer by greatest stamp, and a flush is started only from empty |
| Coalesce.Coalescer.RunFlush | src/replica/coalesce.rs:78-93 | a flush takes the whole buffer and emits each pending entry exactly once |
| Coalesce.PendingIsTheWindow | src/replica/coalesce.rs:40-93 | after every run the buffer holds, per key, the winner of exactly the writes queued since it was last taken |
| Coalesce.EmittedIsBroadcasts | src/replica/coalesce.rs:40-93 | after every run what was emitted is the windowless batches and the flushed buffers in order, and nothing else |
| Coalesce.WindowedCallIsSilent | src/replica/coalesce.rs:44-72 | a call with a window emits nothing and only adds its writes to the window |
| Coalesce.FlushEmitsWinners | src/replica/coalesce.rs:78-93 | a flush emits one entry for each key written in the window it closes: a write of that window no other write of its key there outranks |
| Coalesce.CoalescingInvariants | src/replica/coalesce.rs:40-93 | over every interleaving of calls, spawns, flushes and window changes: exactly one flush is owed iff something is pending, nothing is invented and every queued write is dominated by an emitted or pending entry of its key |
| Coalesce.ReceiversCannotTell | src/replica/coalesce.rs:40-93 | receivers of the broadcasts of any run and the flush still owed hold the same map as receivers of every single write |
| TimeoutWheel.TimeoutWheel.constructor | src/timeout_wheel.rs:34-41 | a new wheel is empty and consistent |
| TimeoutWheel.TimeoutWheel.SetTimeout | src/timeout_wheel.rs:49-52 | only the timeout changes |
| TimeoutWheel.TimeoutWheel.Insert | src/timeout_wheel.rs:59-75 | the wheel behaves as a map insertion and each value stays in exactly the bucket its index names, no bucket empty |
| TimeoutWheel.TimeoutWheel.Remove | src/timeout_wheel.rs:101-117 | the wheel behaves as a map removal and reports whether the value was there |
| TimeoutWheel.TimeoutWheel.Expired | src/timeout_wheel.rs:82-91 | the ordered walk returns, each once, exactly the values whose instant plus timeout is before now |
| FragmentGeometry.DataUnits | benches/fragment_recovery_model.rs:501-525 | frames exist exactly when the budget can frame the payload, sum to it, each fits the budget, and all but the last fragment are full |
| FragmentGeometry.HelperIsExactIff | benches/fragment_recovery_model.rs:154-170 | the size helper needs exactly the requested number of fragments if and only if all but one carry at least 41 bytes |
| FragmentGeometry.At | benches/fragment_recovery_model.rs:631-661 | every wire position below units plus groups carries exactly one data or parity datagram |
| FragmentGeometry.OrdinalsAreABijection | benches/fragment_recovery_model.rs:631-661 | data and parity ordinals are a bijection onto the wire positions |
| FragmentRecovery.Transmit | benches/fragment_recovery_model.rs:235-256 | one datagram is counted lost or not, timed, and taken at most once; taking the last one sets the completion time |
| FragmentRecovery.SendFlight | benches/fragment_recovery_model.rs:224-259 | the flight loop sends exactly the selected units in order |
| FragmentRecovery.SendParity | benches/fragment_recovery_model.rs:262-286 | the parity loop's cost, held and scratch payload and when it ends |
| FragmentRecovery.ApplyParityRecovery | benches/fragment_recovery_model.rs:549-583 | the loop gives back what the group by group recovery gives back, with its report and its completion time; `FragmentRestore.HeldAfterFirstFlight` says which units those are in terms of the losses alone |
| FragmentRecovery.Simulate | benches/fragment_recovery_model.rs:173-376 | the round loop reaches exactly the state after the completing round and acknowledges it, with its rounds, completion and quiescence times and sender state, or exhausts the bound |
| FragmentAccounting.BooksAlwaysBalance | benches/fragment_recovery_model.rs:224-336 | after any number of rounds under any policy and link: remaining counts the missing units, retained and missing bytes add up to the payload, wire bytes are data attempts plus parity plus control, and initial loss is recovered plus still missing |
| FragmentAccounting.CompletionDeliversEverything | benches/fragment_recovery_model.rs:312-316 | the transfer is complete if and only if every unit is received, and then every byte is retained |
| FragmentLockstep.FlightCarries | benches/fragment_recovery_model.rs:224-250 | a flight gives each selected unit one more attempt and leaves the others alone |
| FragmentLockstep.WholeAndMissingInLockstep | benches/fragment_recovery_model.rs:224-336 | after every round whole retry and missing-only have the same receiver and the same attempt number for every missing unit |
| FragmentLockstep.MissingOnlyIsAsQuickAndCheaper | benches/fragment_recovery_model.rs:224-336 | both complete in the same round with the same peak, and missing-only sends no more data bytes |
| FragmentParity.ReceivedIffSomeAttemptArrives | benches/fragment_recovery_model.rs:631-650 | without parity a unit is received after a number of rounds exactly when one of that many attempts is not lost |
| FragmentParity.RetransmissionsAddUp | benches/fragment_recovery_model.rs:235-245 | retransmitted bytes are the data bytes beyond sending every unit once |
| FragmentParity.ParityIsNeverBehind | benches/fragment_recovery_model.rs:224-336 | when the burst hides no more (in particular without a burst) parity recovery holds everything missing-only holds after every round, completes no later and retransmits no more |
| FragmentParity.FallsBehindIffBurstHidesMore | benches/fragment_recovery_model.rs:631-661 | parity recovery can trail missing-only under some loss draws if and only if the burst hides a unit in the parity layout only |
| FragmentTiming.CompletionIsTimed | benches/fragment_recovery_model.rs:247-254 | after any number of rounds there is a completion time if and only if the transfer is complete |
| FragmentTiming.RoundsCostRoundTrips | benches/fragment_recovery_model.rs:318-335 | under every policy and link, each incomplete round cost at least a round trip before the next began |
| FragmentTiming.CompletionAndQuiescence | benches/fragment_recovery_model.rs:338-352 | a transfer completes no sooner than its rounds in round trips plus a one-way delay, no later than a one-way delay after its last datagram, and its sender falls quiet after that, with reports only once an acknowledgement is back |
| FragmentTiming.SenderKeepsItsFirstFlight | benches/fragment_recovery_model.rs:215-221 | after every round of a selective policy the wire bytes are the bytes the sender keeps, the retransmissions and the control bytes |
| FragmentRestore.HeldAfterFirstFlight | benches/fragment_recovery_model.rs:549-583 | after the first flight with parity a unit is held if and only if it was delivered, or it is the only one of its group not delivered and the parity of that group was |
| FragmentRestore.ReceivedIffArrivesOrRestored | benches/fragment_recovery_model.rs:224-336 | with parity a unit is received after a number of rounds exactly when one of that many attempts arrives or parity restored it after the first |
| FragmentRestore.ReportIsExact | benches/fragment_recovery_model.rs:259-310 | after any number of rounds the report gives the bytes lost in the first flight, the units and bytes parity restored, and the difference |
| FragmentRestore.AttemptsAreExact | benches/fragment_recovery_model.rs:225-245 | while flights go on, a selective policy sends a unit up to its first arrival and no more, not again if parity restored it, and whole retry sends every unit every round |
| FragmentRestore.BurstHidesWirePositions | benches/fragment_recovery_model.rs:631-661 | with parity a burst alone hides exactly the data and parity datagrams at the wire positions it covers, in the first flight only |
| FragmentRestore.BurstHidesUnits | benches/fragment_recovery_model.rs:631-642 | without parity it hides exactly the units it covers, in the first flight only |
| FragmentPeak.PeakWithoutParity | benches/fragment_recovery_model.rs:248-256 | after every round without parity the peak is what is retained, or, once complete, all but the unit that came last |
| FragmentPeak.ParityPayloadIsLongest | benches/fragment_recovery_model.rs:527-547 | a group's parity is as long as the longest unit it protects, and its datagram adds only the framing |
| FragmentPeak.TallyIsKept | benches/fragment_recovery_model.rs:266-285 | the parity payload held is that of arrived groups left incomplete, and the scratch payload the longest that restored a unit |
| FragmentPeak.PeakWithParity | benches/fragment_recovery_model.rs:262-307 | the peak of a first flight that left something to recover is what it delivered, the parity of the groups left incomplete and the longest parity used, or what is retained afterwards if that is more |
| FragmentLedger.TimeAddsUp | benches/fragment_recovery_model.rs:224-336 | while incomplete, the sender's clock is the time its data and parity bytes took on the link plus one pause per round, and its control bytes are those of one report per round |
| FragmentLedger.CompletedTimeAddsUp | benches/fragment_recovery_model.rs:312-316 | at completion no pause and no report is added for the completing flight |
| FragmentLedger.CompletionIsLastMissing | benches/fragment_recovery_model.rs:243-256 | without parity a transfer completes when the last unit missing at the start of the completing flight lands, half a round trip after it left |
| FragmentLedger.ParityCompletes | benches/fragment_recovery_model.rs:561-582 | parity that completes the payload does so with the last group it helps, half a round trip after that parity left |
| FragmentLedger.QuiescenceInFull | benches/fragment_recovery_model.rs:338-356 | the sender is quiet when its last datagram has left and, under recovery by report, the acknowledgement is back, a round trip later for each lost copy |
| FragmentLedger.ReportHasABitPerUnit | benches/fragment_recovery_model.rs:592-599 | a report is an acknowledgement, a unit count and a bitmap with a bit for every unit and no spare byte |
| FragmentLedger.DatagramsAddUp | benches/fragment_recovery_model.rs:235-239 | after every round the datagrams are the attempts of all units, one parity per group and the reports |
| StreamChunks.ChunkMessage | benches/ordered_stream_model.rs:738-772 | chunks exist exactly when none of the source's assertions fires, sum to the message, fit the budget and carry exactly their framing, all but the last are full, and one chunk means the message fits a complete frame |
| StreamModel.FirstFrom | benches/ordered_stream_model.rs:956-990 | the first attempt that gets through: all before it are lost and it is not |
| StreamQueue.SwapRemoveQueued | benches/ordered_stream_model.rs:394-396 | removing a task by swapping takes exactly its unit out of the queue |
| StreamQueue.BatchContents | benches/ordered_stream_model.rs:941-952 | a recovery batch holds one task per selected chunk, all for one message and one release time |
| StreamSteps.TransmitEffect | benches/ordered_stream_model.rs:807-890 | a transmission adds one attempt to its chunk, records an arrival exactly if that attempt is not lost, and queues exactly a lost stream chunk |
| StreamSteps.ScheduleKeeps | benches/ordered_stream_model.rs:893-953 | scheduling recovery restores the message's invariant and touches no other message |
| StreamSteps.SendFreshKeepsInv | benches/ordered_stream_model.rs:357-392 | sending a fresh chunk keeps the scheduler invariant |
| StreamSteps.ResendKeepsInv | benches/ordered_stream_model.rs:394-472 | retransmitting a task keeps the scheduler invariant |
| StreamRun.FreshControlIsEarliest | benches/ordered_stream_model.rs:992-1013 | the control pick is the fresh message released earliest, by id on a tie; none means none is fresh |
| StreamRun.FreshBulkIsFirstInTurn | benches/ordered_stream_model.rs:1015-1035 | the bulk pick is the first fresh message in round-robin order from the cursor; none means none is fresh |
| StreamRun.PickedTaskIsFirst | benches/ordered_stream_model.rs:1037-1059 | the picked retransmission precedes every ready one of its class; none means none is ready |
| StreamRun.NextFreshIsEarliest | benches/ordered_stream_model.rs:1061-1072 | the earliest release among messages with fresh chunks |
| StreamRun.NextRetryIsEarliest | benches/ordered_stream_model.rs:1073-1076 | the earliest release among queued tasks |
| StreamRun.StepSpends | benches/ordered_stream_model.rs:352-519 | every packet uses up exactly one attempt of the total budget, and idling none |
| StreamRun.IdlingHelps | benches/ordered_stream_model.rs:516-519 | an unfinished simulation always has a future packet, and idling makes one ready |
| StreamRun.InvAlwaysHolds | benches/ordered_stream_model.rs:352-519 | at every iteration: a sent, unarrived stream chunk has exactly one queued task; a datagram message's tasks number its pending count; a chunk has arrived exactly when its first surviving attempt was made; after so many reports the missing chunks of a selective message have had equally many attempts; attempts never exceed what the losses dictate |
| StreamRun.AttemptsStayBounded | benches/ordered_stream_model.rs:842-860 | after every iteration each chunk's attempts are within what the losses dictate and so within the source's bound, and it has a first-send time exactly if it was sent |
| StreamRun.ReportsGetThrough | benches/ordered_stream_model.rs:966-971 | a report is only ever sent for a message whose reports get through within the bound |
| StreamRun.SelectFreshBulk | benches/ordered_stream_model.rs:1015-1035 | the search loop and the cursor it leaves |
| StreamRun.DeliverControl | benches/ordered_stream_model.rs:956-990 | the control loop's arrival time, packets and bytes; no result exactly where the retry bound is hit |
| StreamRun.Iterate | benches/ordered_stream_model.rs:352-519 | one loop iteration, equal to the scheduler's step; `StreamOrder.SentIffDue` says which chunk that step sends without naming the scheduler |
| StreamRun.Simulate | benches/ordered_stream_model.rs:352-519 | the loop terminates and exits with all chunks sent and no task queued, whenever every chunk and every report that is sent gets through within the bound |
| StreamRun.EveryRunEnds | benches/ordered_stream_model.rs:352-519 | every case has a number of iterations after which the loop exits |
| StreamRun.ExitMeansDelivered | benches/ordered_stream_model.rs:868-953 | at the exit every chunk has arrived, after its first surviving attempt, or after the message's greatest one under whole-message recovery |
| StreamRun.ExitReports | benches/ordered_stream_model.rs:893-953 | at the exit a selective message has caused one report for each attempt of its slowest chunk but the first, every other message none |
| StreamOrder.SentIffDue | benches/ordered_stream_model.rs:352-519 | iteration by iteration exactly the chunk that is due gets one more attempt: a released fresh control chunk, else a released control retransmission, else a bulk one, else a fresh bulk chunk, each the first of its class by release and id, or by turn |
| StreamOrder.DueIsUnique | benches/ordered_stream_model.rs:352-514 | at most one chunk is due, in one rank |
| StreamOrder.DueHasItsRank | benches/ordered_stream_model.rs:992-1059 | what is due in a control rank is control, in a bulk rank bulk; new ranks are the next chunk of a released message, old ranks a released task |
| StreamOrder.WaitsForTheEarliest | benches/ordered_stream_model.rs:516-519 | when nothing is due the loop changes nothing but its clock, which moves exactly to the earliest release of what is left |
| StreamOrder.CursorFollows | benches/ordered_stream_model.rs:1015-1035 | only a fresh bulk chunk moves the cursor, to the message after its own |
| StreamOrder.TurnComesCloser | benches/ordered_stream_model.rs:1015-1035 | while a bulk message waits with a fresh chunk, every fresh bulk chunk of another message brings its turn strictly closer |
| StreamTiming.RunIsAfter | benches/ordered_stream_model.rs:352-519 | a sequence of states linked by iterations is the run, so the laws stated over such sequences hold of it |
| StreamTiming.ArrivalIsEarliestLanding | benches/ordered_stream_model.rs:854-890 | a chunk has arrived exactly if some attempt landed, and at the earliest landing, half a round trip after it left or a whole one if reordered |
| StreamTiming.FirstSendIsFirstAttempt | benches/ordered_stream_model.rs:854-858 | a chunk's first-send time is the end of its first attempt |
| StreamTiming.LinkTimeAddsUp | benches/ordered_stream_model.rs:343-519 | after every iteration the link's clock is the setup's blocking time, the serialization of every setup and data byte, and the time waited |
| StreamTiming.TasksAreTimed | benches/ordered_stream_model.rs:868-953 | every queued retransmission was released by a packet of its message, the right delay after it left, and not sent since |
| StreamTiming.RetransmissionsWait | benches/ordered_stream_model.rs:868-953 | no chunk is sent again before a round trip has passed since its last attempt left |
| StreamCost.CostAlwaysAddsUp | benches/ordered_stream_model.rs:807-953 | at every iteration wire bytes are setup plus every attempt of every chunk plus control, retransmitted bytes are the attempts past the first, control bytes are the reports, and packets are setup packets, attempts and report packets |
| StreamCost.PacketsMultiply | benches/ordered_stream_model.rs:561-575 | the bytes charged for a chunk, packet by packet, are its wire length times its attempts |
| StreamCost.FinalWireBytes | benches/ordered_stream_model.rs:337-519 | a finished run's wire bytes are setup, the sum over chunks of length times attempts dictated by the losses, and for each selective message its slowest chunk's attempts but one times the cost of a report |
| StreamCost.AttemptsAreScheduleIndependent | benches/ordered_stream_model.rs:807-953 | finished runs of two cases with the same losses make the same attempts per chunk, whatever the times, bandwidth, reordering and releases |
| StreamCost.DataBillIsScheduleIndependent | benches/ordered_stream_model.rs:807-953 | so their data bytes are equal |
| StreamCost.Acknowledge | benches/ordered_stream_model.rs:529-546 | the closing loop's acknowledgement bytes, packets and sender quiescence; no result exactly where a retry bound is hit |
| StreamCost.WireBytesAreScheduleIndependent | benches/ordered_stream_model.rs:337-546 | finished runs with the same losses put the same bytes on the wire, reports and acknowledgements included, whatever the times, bandwidth, reordering and releases |
| StreamCost.MissingOnlyBillsNoMore | benches/ordered_stream_model.rs:893-953 | missing-only data bytes never exceed whole-message data bytes |
| StreamLockstep.AssignRefines | benches/ordered_stream_model.rs:797-841 | assigning a position keeps every stream's own order inside the shared order |
| StreamLockstep.RunsInLockstep | benches/ordered_stream_model.rs:352-519 | after every number of iterations one shared stream and one stream per message agree on attempts, arrivals, queue, clock and cost, and each own order refines the shared order |
| StreamDelivery.SortKeeps | benches/ordered_stream_model.rs:1113-1131 | segments are a permutation of the stream's chunks in position order |
| StreamDelivery.RunningIsLatest | benches/ordered_stream_model.rs:1131-1136 | the running maximum over sorted segments is the latest arrival at or before a chunk's position |
| StreamDelivery.DeliveryTimes | benches/ordered_stream_model.rs:1092-1139 | every datagram is delivered on arrival, and every stream chunk once everything up to its position has arrived |
| StreamHol.PlacesAlwaysHold | benches/ordered_stream_model.rs:833-841 | at every iteration exactly the sent stream chunks hold a position, unique within their stream |
| StreamHol.PositionsFollowFirstSends | benches/ordered_stream_model.rs:832-841 | after every iteration a stream's positions follow the order in which its chunks were first sent |
| StreamHol.PositionsHaveNoGaps | benches/ordered_stream_model.rs:835-840 | after every iteration the positions of a stream are numbered without gaps |
| StreamHol.ExitLands | benches/ordered_stream_model.rs:1092-1139 | at the exit no chunk lacks an arrival or a position, so no expectation of the delivery step fails |
| StreamHol.PlacedMeansSent | benches/ordered_stream_model.rs:1217-1233 | after every iteration whatever holds a stream position has a first-send time, so the sender-state expectation never fails |
| StreamHol.HolMetrics | benches/ordered_stream_model.rs:1141-1164 | the loop computes total, greatest and peak buffered head-of-line delay of the listed chunks; `StreamMetrics.TotalHolIsLateness`, `MaxHolIsGreatest` and `PeakHolIsGreatestBuffer` say what those are in terms of deliveries and arrivals |
| StreamHol.CompletionIsLastArrival | benches/ordered_stream_model.rs:521-527 | whatever the position layout, the receiver completes with the last arrival |
| StreamHol.MultipleStreamsNeverWorse | benches/ordered_stream_model.rs:1092-1164 | for every finished pair of runs packets, times and cost are equal, every chunk is delivered and every set of chunks completed no later with one stream per message, and total, greatest and peak buffered head-of-line delay are no larger |
| StreamHol.EndpointsSeeNoDifference | benches/ordered_stream_model.rs:521-559 | receiver completion, sender quiescence and peak sender state are exactly equal |
| StreamMetrics.TotalHolIsLateness | benches/ordered_stream_model.rs:1141-1164 | the total delay is the sum of deliveries less the sum of arrivals of the stream chunks |
| StreamMetrics.MaxHolIsGreatest | benches/ordered_stream_model.rs:1141-1164 | the greatest delay bounds delivery minus arrival of every stream chunk and is attained, or nothing is delayed |
| StreamMetrics.PeakHolIsGreatestBuffer | benches/ordered_stream_model.rs:1141-1164 | the peak is the greatest number of bytes of arrived and undelivered chunks at any instant, and some instant attains it |
| StreamMetrics.PeakSenderIsGreatest | benches/ordered_stream_model.rs:1218-1238 | the sender's peak is the greatest number of stream bytes first sent and not yet acknowledged at any instant, and some instant attains it |
| StreamMetrics.ArrivesAfterFirstSend | benches/ordered_stream_model.rs:854-890 | nothing arrives sooner than half a round trip after it was first sent |
| StreamMetrics.QuiescenceIsLast | benches/ordered_stream_model.rs:528-559 | the sender is quiet once the receiver has completed and the last stream chunk's acknowledgement is back, and not later |
| StreamMetrics.StartsAfterSetup | benches/ordered_stream_model.rs:774-795 | sessions start after paying for their handshake, a cold one a round trip later, and datagrams start at once |
| StreamMetrics.OrderedCandidates | benches/ordered_stream_model.rs:797-841 | at the exit exactly the chunks of ordered candidates hold positions: all of them, or the bulk of the hybrid |
| StreamMetrics.HybridControlIsNeverBlocked | benches/ordered_stream_model.rs:1101-1112 | under the hybrid every control chunk is delivered on arrival |
| StreamMetrics.BillIsLengthTimesAttempts | benches/ordered_stream_model.rs:561-575 | a chunk costs its length on its own transport times the attempts the losses dictate |
| StreamMetrics.OnlyFragmentsReport | benches/ordered_stream_model.rs:923-938 | only fragmented messages under missing-only recovery ever cause a report |
| StreamMetrics.ReportHasABitPerChunk | benches/ordered_stream_model.rs:1297-1306 | a report is an acknowledgement, a chunk count and a bitmap with a bit for every chunk and no spare byte |
| StreamMetrics.AcksAddUp | benches/ordered_stream_model.rs:529-546 | acknowledgement bytes are their packets times their length |
| StreamMetrics.QuietWithTheLastAck | benches/ordered_stream_model.rs:528-546 | under missing-only the sender is quiet once the receiver has completed and the last acknowledgement is back, and not later |
| SweepLine.PeakFromEvents | benches/ordered_stream_model.rs:1241-1254 | the loop computes the greatest prefix sum over the sorted events, at least zero |
| Sorting.SortSorts | benches/ordered_stream_model.rs:1242-1246 | events and segments sorted under a total order are a sorted permutation of the input |
| SweepLine.PeakIsGreatestCover | benches/ordered_stream_model.rs:1241-1254 | for any intervals with start not after end the sweep returns the greatest total weight of half-open intervals covering one instant, and some instant attains it |
| SweepLine.PeakIsMonotone | benches/ordered_stream_model.rs:1141-1254 | more coverage at every instant gives no smaller peak |

## Left out

- Async I/O, sockets, discovery, pacing, egress budgets: plumbing; a broadcast skipped by the egress budget is a message nobody picks.
- Authentication, encryption, BLAKE3 and serialization: used only through lengths; `version_hash` is a token that determines its entry, so 64-bit digest collisions are not modelled.
- Range comparison (`rbsr`), snapshots, persistence, restart and replay filtering: other state machines; `Convergence` assumes no restart.
- Hooks (`pre_insert`) and re-entrant writes: represented by the arbitrary steps between a batch's snapshot and its merge.
- `BoundedInstant` and the 64-bit ceiling of physical time: the clock's physical part is unbounded.
- Clock.ObserveCatchesUp: the body of `advance_past_remote` is in the crate lww-register, which is not part of this model; it is taken to be the least reading not behind its inputs, as the clock tests describe.
- Acknowledgment.ResendCoversHeld: the receipts of a round go out together; the byte budget and the key cursor that spread them over rounds are not modelled.
- Admission.NewConfig: the reciprocal is rounded to the nearest nanosecond in exact arithmetic instead of through a double; instants are unbounded integers.
- StabilityLimits.ComesBackIffOlderCirculates: continuations that stamp new writes are not covered, since any clock behind the tombstone may write below it.
- AdmissionRate.WindowBound: calls are ordered by time, as a monotonic clock delivers them; a rate above two per nanosecond gives a zero interval, which bounds nothing.
- FragmentRecovery.Simulate: a control exchange is described by how many of its transmissions are lost.
- StreamRun.Simulate: loss draws must let every chunk and every report that is sent through before the attempt bound, where the source panics otherwise.
- StreamHol.EndpointsSeeNoDifference: stated for the two stream candidates; the sender's retained bytes under the datagram candidates are not modelled.
- Reassembly peak (`peak_reassembly_state`), latency means and percentiles: they depend on floating-point epsilon and rounding.
- Interruption simulations of both benches: closed-form arithmetic with no run to reason about.
- Rounding of doubles in both simulators: times are exact reals, so ties are exact.
- `get_mut`, bulk inserts and the value-only dump path: the same insert and merge steps again.
