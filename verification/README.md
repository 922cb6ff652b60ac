# Verified model of the stream coordinator and its neighbours

The repository runs video streams through several services. This project models the parts of it
where several actors, retries or failures meet, and proves what those parts keep.

**Stream placement (SDRC).** Several coordinator replicas place streams on pods. A placement takes a
lease on the stream, walks candidate pods picked from a possibly stale snapshot, reserves a slot under
a threshold, starts a heartbeat, calls the pod, looks three times at a "lease lost" flag, and either
writes the route or rolls back.

- `Store` gives the shared store's commands: leases with expiry, per-pod reservations, routes.
- `Placement` is the step system. Any number of attempts, the clock, the heartbeats and the delete
  handler interleave between any two store commands. What an attempt read before its lease restricts
  nothing, so every theorem holds for arbitrarily stale reads.
- `PlacementSafety` holds for every run: capacity, lease exclusion, the lease-lost flag, the abort.
- `PlacementAgreement` has the exact condition for routes and reservations to stay in agreement: a
  guard for every step, and a run agrees all along if and only if each of its steps meets its guard.
  `PlacementDiscipline` is a discipline of lease holders that meets every guard. `PlacementRaces`
  shows that the leases alone do not: for each clause of the discipline it gives a run whose only
  undisciplined steps are the named ones and which ends with the agreement broken.
- `Replica` is one attempt as the code runs it, a class whose methods issue those same steps.
  `Events` says what an add, a delete or a reprovision comes to and exactly when it keeps the
  agreement; `Handlers` are these handlers of a replica that works alone.
- `Selection`, `OrdinalKey` and `RoundRobin` are the choice of a pod, the key that breaks ties, and
  what repeated choices lead to;
  `Spreading` carries that over to the reservations the add handler makes.
- `Heartbeat` is the renewing loop in real time.

**Bus consumption (SDRC).** `BusOutcomes` is the retry table and the commit decision.
`BusEvents` joins it to the handlers: which results are retried and which are lost.
`KafkaPartition` is one partition: position, committed offset, the one-shot park that replaces the
consumer's commit, the commit the consuming loop always issues, restarts.

**Alert verifier.** `AlertEvents` accounts for every event of a batch and for the retries of the model
call. `WorkerSlots` is the scheduling of sub-batches on worker slots.

**Smaller cores.** `BackoffRetry` is the budgeted retry of the codec installer. `LifecyclePaths` is
the path rewrite of the proxy in front and the split that the router undoes it with.

## What the proofs found

- One pod per stream is not kept by the leases. The route and the reservations are read before the
  lease is taken (`services/sdrc/app.py:2572-2578`), so a replica that waited places the stream again
  (`PlacementRaces.StaleReadRace`, no lease ever runs out in it). It is kept exactly by the runs in
  which no reservation is granted to a stream reserved elsewhere, no route is written without its
  reservation, and no delete hits the pod a stream is routed to
  (`PlacementAgreement.AgreesIffHarmless`).
- The early failures release the lease before they delete the reservation
  (`services/sdrc/app.py:2335-2336`, `2358-2363`, `2390-2394`, `2404-2408`), so the late delete can hit
  a replacement (`PlacementRaces.LateRollbackRace`).
- The abort's docstring says a replacement is left alone (`services/sdrc/app.py:2138-2141`). That holds
  while the replacement still has its lease (`PlacementSafety.AbortSparesReplacement`), not once it has
  finished and released (`PlacementRaces.LateAbortRace`). Whoever holds the lease, the late deletes
  spare a replacement exactly when the stream is not routed to the deleting attempt's own pod
  (`PlacementAgreement.LateDeleteSparesIff`).
- Anything that raises after the route write rolls the reservation back and leaves the route
  (`services/sdrc/app.py:2540-2545`, `2424-2427`): `PlacementRaces.RaiseAfterCommitRace`.
- A health wait that raises is not caught (`services/sdrc/app.py:2358`): lease, heartbeat and
  reservation stay behind. `Replica.KeptIffRouted` names both exceptions to its claim exactly.
- An add returns True although nothing was placed when a Docker cluster is full
  (`services/sdrc/app.py:2830-2846`), and a scale-up drops a refusal of the nested call
  (`services/sdrc/app.py:2870-2874`). The result `Placed` of `Events` covers these; `Events.AddResult`
  says exactly when a held lease reads as refused and when as done.
- An add refused because another replica holds the lease is committed as handled and never tried
  again (`services/sdrc/app.py:2752-2760`, `3527`), although that replica may yet roll back
  (`BusEvents.Consume`, `BusEvents.RefusedAddIsCommitted`).
- A clear lease-lost flag does not mean that the lease still runs. It does exactly as long as the
  heartbeat's lateness since the last extension fits into the intervals left (`Heartbeat.LeasedIff`).
- The park protects one commit. Its comment promises that the record is not acknowledged past
  (`services/sdrc/lib/bus_outcomes.py:226-229`), but the position in memory has already moved on, so
  without a restart the next success skips the record (`KafkaPartition.ParkWithoutCrashSkips`).
- In the alert verifier an enrichment that raises after completion completes the event twice
  (`services/alert/enhance_alert_with_vlm.py:1515-1541`), and a raising prompt lookup ends the whole
  batch (`services/alert/enhance_alert_with_vlm.py:1593`). `AlertEvents.ReconciledIff` has the exact
  condition.

## Model

| member | source | states |
|---|---|---|
| Store.LeaseCommands | services/sdrc/lib/parameters/redisconfig.py:91-135 | an acquire succeeds iff nobody holds the lease and a renew iff this owner does, then the owner holds it for the time to live and no longer; a release by the holder frees it; a command that fails changes nothing |
| Store.LateOwnerIsHarmless | services/sdrc/lib/parameters/redisconfig.py:102-135 | a renew or release by an owner that lost the lease, or for another stream, changes no holder |
| Store.WithoutFreesOneSlot | services/sdrc/lib/parameters/redisconfig.py:400-421 | deleting a reserved stream frees exactly one slot, deleting an absent one frees none |
| Store.ReserveAddsOneEntry | services/sdrc/lib/parameters/redisconfig.py:423-442 | a reservation call adds exactly its pair and only when granted; it refuses iff the pod is full and does not hold the stream, and reports already held iff it does |
| Store.DeleteRemovesOneEntry | services/sdrc/lib/parameters/redisconfig.py:400-421 | a delete removes exactly the pair of pod and stream |
| PlacementSafety.StepKeepsCapacity | services/sdrc/app.py:2762-2781 | every step of every actor keeps each pod within the threshold and free of duplicates |
| PlacementSafety.CapacitySafety | services/sdrc/app.py:2700-2781 | over every interleaving, with arbitrarily stale snapshots, no pod ever holds more reservations than the threshold nor a stream twice |
| PlacementSafety.StepKeepsLeaseInv | services/sdrc/app.py:2751-2760 | every step keeps the invariant that ties each unexpired attempt or cleanup to the lease in the store |
| PlacementSafety.LeaseExclusion | services/sdrc/app.py:2578-2600 | two attempts on one stream are both between acquire and release only if one of their leases has run out; unexpired means being the store's holder, and the same for cleanup owners |
| PlacementSafety.LostNeverCommits | services/sdrc/app.py:2444-2451 | once the flag is set before an attempt's last check, no continuation under any interleaving contains its route write |
| PlacementSafety.UnflaggedCanCommit | services/sdrc/app.py:2529-2541 | conversely an attempt the flag has not stopped has a continuation that writes the route |
| PlacementSafety.AbortSparesReplacement | services/sdrc/app.py:2131-2210 | in every reachable state an abort deletes only under its own fresh cleanup owner, while whose lease runs no attempt on the stream is unexpired; if anybody holds the stream's lease when it asks, it changes nothing |
| PlacementDiscipline.StepKeepsDiscipline | services/sdrc/app.py:2562-2829 | a disciplined step keeps routes reserved and the lease holder's pre-lease reads true |
| PlacementAgreement.StepAgreesIff | services/sdrc/app.py:2562-2829 | from agreement a step leaves agreement iff it meets its guard: no grant to a stream reserved elsewhere, no route without its reservation, no delete of a routed pod's entry |
| PlacementAgreement.AgreesIffHarmless | services/sdrc/app.py:2562-2829 | in every interleaving of any number of replicas routes and reservations agree after every step iff every step meets its guard |
| PlacementAgreement.HarmlessRoutedExactlyOnce | services/sdrc/app.py:2572-2600 | in such runs a routed stream is reserved on its routed pod and on no other |
| PlacementAgreement.DisciplinedIsHarmless | services/sdrc/app.py:2562-2829 | a run in which leases cover reads and writes as the discipline asks meets every guard |
| PlacementAgreement.LateDeleteSparesIff | services/sdrc/app.py:2155-2187 | the abort's cleanup and the rollback after an early release keep agreement iff the stream is not routed to the attempt's own pod, and remove no other reservation |
| PlacementDiscipline.RoutedExactlyOnce | services/sdrc/app.py:2572-2600 | in every disciplined interleaving a routed stream is reserved on its routed pod and on no other, and no stream is reserved twice |
| PlacementDiscipline.RoutedLoadWithinThreshold | services/sdrc/app.py:2700-2711 | in every disciplined interleaving the streams routed to a pod are at most the threshold |
| PlacementRaces.UndisturbedPlacement | services/sdrc/app.py:2747-2829 | from any state with room and a free lease a placement left alone runs to its end: routed, reserved, lease released |
| PlacementRaces.StaleReadRace | services/sdrc/app.py:2572-2578 | with no lease ever expiring, one stale pre-lease read alone leads to a stream reserved on two pods |
| PlacementRaces.LateRollbackRace | services/sdrc/app.py:2358-2363 | the rollback after the release alone leaves a replacement routed without reservation |
| PlacementRaces.LapsedCommitRace | services/sdrc/app.py:2529-2541 | a lease that runs out between the last check and the route write alone leaves route and reservation on different pods |
| PlacementRaces.LateAbortRace | services/sdrc/app.py:2155-2187 | a cleanup after the replacement has released alone removes the replacement's reservation |
| PlacementRaces.RaiseAfterCommitRace | services/sdrc/app.py:2540-2545 | an exception after the route write leaves a route without reservation |
| PlacementRaces.LapsedReserveRace | services/sdrc/app.py:2762-2770 | a reservation made after the lease ran out alone leaves the stream reserved on two pods |
| PlacementRaces.StaleSweepRace | services/sdrc/app.py:2577-2600 | an orphan sweep decided on a stale read alone removes a routed stream's reservation |
| Replica.EndingIff | services/sdrc/app.py:2317-2559 | which ending an attempt has, in terms of what started, the flag at the three checks, the answer and the route write; in particular when it commits |
| Replica.AllGoesWellCommits | services/sdrc/app.py:2434-2559 | an attempt commits iff everything starts, the pod is healthy and answers with a good status, the lease is kept and the route write works |
| Replica.EscapesIff | services/sdrc/app.py:2330-2431 | which attempts raise to their caller |
| Replica.KeptIffRouted | services/sdrc/app.py:2317-2431 | with the lease kept the reservation survives iff the route was written, except exactly when the health wait raises or something raises after the route write |
| Replica.AbortLeavesReservationIff | services/sdrc/app.py:2155-2170 | an aborted attempt leaves its reservation behind iff its own lease still ran at the check that saw the flag, which takes renewals that raised; never with the lease kept |
| Replica.DeleteTwice | services/sdrc/app.py:2468-2476 | the worker's and its caller's rollback together are one rollback |
| Replica.Coordinator.AbortAfterLeaseLoss | services/sdrc/app.py:2131-2210 | the reservation is removed iff nobody holds the stream's lease; routes, other streams and other attempts stay as they were |
| Replica.Coordinator.AddStreamToPod | services/sdrc/app.py:2434-2559 | the worker's whole effect: ending, exception, reservation and route as a function of what the outside did |
| Replica.Coordinator.RunAddStream | services/sdrc/app.py:2317-2431 | whatever happens, synchronous or not, the thread entry is gone, the lease released unless the health wait raised, reservation and route as the ending says |
| Replica.Coordinator.RunWorker | services/sdrc/app.py:2213-2265 | the worker's wind-up removes the thread entry and releases the lease on every path; only a synchronous worker's exception reaches the caller |
| Replica.Coordinator.Place | services/sdrc/app.py:2747-2829 | refuses iff somebody holds the lease, then changing nothing; otherwise reserves the preferred accepting candidate or none if all refuse; if a candidate accepts and nothing goes wrong the stream is then routed to and reserved on that pod, and if something goes wrong short of an exception after the write no route is written |
| Replica.Coordinator.ReserveFirst | services/sdrc/app.py:2762-2784 | the shrinking candidate loop ends where the recursive walk over the candidates does, with exactly that candidate reserved or nothing changed |
| Selection.WalkIsChoice | services/sdrc/app.py:2762-2784 | the walk ends with the preferred accepting candidate, with none only if all refuse, or at a call that raises |
| Replica.Coordinator.SweepOrphans | services/sdrc/app.py:2577-2600 | removes every reservation of the stream and no other iff its lease is free, and releases it |
| Events.EligibleIff | services/sdrc/app.py:2671-2724 | a pod is a candidate iff its count is below the threshold and it is healthy, or it is unhealthy and every listed healthy pod is full |
| Events.EligibleInOrder | services/sdrc/app.py:2673-2711 | candidates are tried by first-fit in the order the cluster lists its pods |
| Events.OnlyStreamKeepsOthers | services/sdrc/app.py:2562-2933 | a handler that touches one stream keeps the agreement and the leases of all others |
| Events.PlacedReservations | services/sdrc/app.py:2782-2829 | what a placement leaves reserved: the attempt's own reservation iff its ending keeps it, and nothing else changed |
| Events.CleanMeans | services/sdrc/app.py:2317-2559 | an attempt fails to end clean in three ways only: raised after the route write, left behind by a raising health wait, or aborted while its own lease still ran |
| Events.AttemptResultIff | services/sdrc/app.py:2803-2829 | an attempt is deferred iff its pod did not become healthy in time, and raises for every other exception that escapes it |
| Events.AddSucceededMeans | services/sdrc/app.py:2671-2829 | an add that nothing goes wrong for, with a free lease and a pod that may take the stream and has room, ends with the stream routed to and reserved on such a pod |
| Events.AddAgreesIff | services/sdrc/app.py:2747-2829 | after the add of an unrouted stream route and reservation agree iff the attempt ended clean |
| Events.StaleRouteRepairedIff | services/sdrc/app.py:2572-2578 | a route without reservation is repaired iff the next add keeps a reservation on the pod then routed to; a committed one does, one rolled back keeps the stale route |
| Events.DeleteAgreesIff | services/sdrc/app.py:3142-3151 | a delete keeps agreement iff it does not remove the entry and fail to remove the route |
| Events.DeleteMeans | services/sdrc/app.py:3059-3198 | a delete changes nothing unless the routed pod is listed, answers, and agrees or has no list; then the entry is gone, and the route unless its write fails |
| Events.OrderlyKeeps | services/sdrc/app.py:2562-2829 | in every state an event keeps agreement when leases are kept, the health wait returns and nothing raises after a route write, even if pods refuse, fail or raise |
| Handlers.Handler.Provision | services/sdrc/app.py:2562-2933 | terminates over scale-ups; nothing to do iff routed and reserved; refused iff the lease is held and wanted; an attempt is on a pod below the threshold that is healthy, or unhealthy with every healthy pod full; when nothing goes wrong the stream is routed and reserved; otherwise the last pass explains the result, where outside Docker max-replicas is raised iff replicas are at the maximum, all are ready, and no pod is down or some pod is healthy; with a free lease the placement is the one computed from pass to pass |
| Handlers.Handler.Deprovision | services/sdrc/app.py:3049-3198 | removes entry and route iff the routed pod is listed and agrees or has no list; exactly when it raises and what is then left |
| Handlers.Handler.Reprovision | services/sdrc/app.py:1961-2073 | touches nothing while pods are not ready; otherwise deletes, then places a second apart until something other than a refusal; refused throughout only if the lease outlived the tries |
| Handlers.Handler.Handle | services/sdrc/app.py:3049-3198 | from agreement an event leaves agreement iff its condition holds, a condition on the event and the store before it |
| Handlers.Handler.HandleAll | services/sdrc/app.py:2562-2829 | over any sequence of events route and reservation agree all along, so one pod per stream, iff every event meets its condition in the state it finds; orderly events never break it |
| OrdinalKey.OrdinalOfIndexed | services/sdrc/app.py:1032-1033 | a name that ends in a dash and a number in decimal has that number as its ordinal, whatever the prefix and the number of digits |
| OrdinalKey.LeadingZero | services/sdrc/app.py:1032-1033 | zeros in front of the digits change nothing |
| OrdinalKey.OrdinalOfOthers | services/sdrc/app.py:1032-1033 | every other name has ordinal 0 |
| OrdinalKey.NameLessIff | services/sdrc/app.py:1032-1044 | equal ordinals are ordered by name as in a dictionary |
| OrdinalKey.Cycle | services/sdrc/app.py:2726-2738 | pods b-0 to b-(n-1), beyond ten as well, are filled in the cycle 0, 1, ..., n-1 from empty: so many rounds and one more on the first few, and the next stream to the pod after them |
| Selection.PodOrderTransitive | services/sdrc/app.py:1013-1033 | the ordinal key orders pods transitively |
| Selection.PodOrderTotal | services/sdrc/app.py:1013-1033 | the ordinal key separates any two differently named pods |
| Selection.SelectIsLeast | services/sdrc/app.py:1036-1044 | the winner precedes every other candidate by count, ordinal and name |
| Selection.SelectIgnoresListingOrder | services/sdrc/app.py:1036-1044 | the winner does not depend on the order pods are listed in |
| Selection.RefusalLeavesRest | services/sdrc/app.py:2762-2781 | dropping a refused winner keeps exactly the candidates nobody has refused, from the front for first-fit |
| Selection.AcceptanceIsChoice | services/sdrc/app.py:2762-2775 | the first acceptance is the least accepting candidate, or the first in listing order for first-fit |
| RoundRobin.RoundRobinClosedForm | services/sdrc/app.py:2717-2738 | from empty pods, adds fill them in key order: rounds each and one more for the first few, the next goes to the pod after them, and none when all are full, whatever the listing orders |
| RoundRobin.AddsKeepSpread | services/sdrc/app.py:2729-2732 | from any counts, adds never widen the spread beyond the larger of 1 and the initial one |
| RoundRobin.AddsLevelPods | services/sdrc/app.py:2729-2732 | uneven pods are level at the top count after exactly the missing number of adds and not before |
| Spreading.FreshPlacementIsWinner | services/sdrc/app.py:2671-2711 | on a fresh snapshot a placement tries the round-robin winner first and it takes the stream; without a winner no pod would |
| Spreading.FreshPlacementCounts | services/sdrc/app.py:2762-2781 | a committed placement changes the stream counts as one round-robin add |
| Spreading.AddStreams | services/sdrc/app.py:2562-2933 | the reservations that adds of new streams leave on any store are those of the round-robin counts, so the closed form, the spread and the levelling hold of them |
| Spreading.FillEmptyStore | services/sdrc/app.py:2717-2738 | from an empty store rounds times the pods plus a few adds leave rounds streams on every pod and one more on the first few in key order |
| Heartbeat.Renew | services/sdrc/app.py:2087-2115 | after any turns the flag is set iff some renewal was rejected, or raised and was over a lease length or more after the last successful one |
| Heartbeat.FlagSetIff | services/sdrc/app.py:2087-2115 | the same of the turn-by-turn heartbeat, on times added up from the turns |
| Heartbeat.ErrorsSetTheFlag | services/sdrc/app.py:2087-2115 | whatever the delays, the flag is set by the third raising renewal in a row, by the first or second for leases of one or two seconds |
| Heartbeat.LeasedIff | services/sdrc/app.py:2087-2115 | under a clear flag, for any delays and calls, the lease runs at a given time iff the time since the last turn and the drift since the last extension are less than the intervals left |
| Heartbeat.LeasedUntilWakeUpIff | services/sdrc/app.py:2103-2115 | so it lasts through the next wait iff that wait and the drift fit into the intervals left |
| Heartbeat.ClearFlagMeansLeased | services/sdrc/app.py:2087-2115 | with punctual wake-ups a clear flag means the lease has not run out, at any time up to the next wake-up |
| Heartbeat.LateWakeUpMissesExpiry | services/sdrc/app.py:2103-2115 | after punctual turns the lease runs out under a clear flag during the next wait iff that wait is longer than the intervals left |
| BusOutcomes.RetryTable.DecideCommit | services/sdrc/lib/bus_outcomes.py:127-150 | the decision and the table afterwards, for every outcome and configured limit |
| BusOutcomes.CounterIsStreakModuloLimit | services/sdrc/lib/bus_outcomes.py:116-150 | after any history over many messages a counter is the message's streak of retryable outcomes modulo the limit, below it, and has an entry only while not 0 |
| BusOutcomes.DecisionFromHistory | services/sdrc/lib/bus_outcomes.py:127-150 | a retryable outcome is refused unless it is a limit-th of its streak, which is committed as terminal; every other known outcome is committed as it is, an unknown one as terminal |
| BusEvents.RetriedIff | services/sdrc/app.py:3518-3568 | the events that get another chance are exactly the deferred ones, those that raised a transient exception and, without eviction, those that found no capacity; exactly those refused, placed or with nothing to do count as handled |
| BusEvents.Consume | services/sdrc/app.py:3494-3583 | an event's decision is that of its result's outcome; an add refused on a held lease is committed at once with the store untouched |
| BusEvents.RefusedAddIsCommitted | services/sdrc/app.py:2752-2760 | whatever its message's history, a refused add is committed, never retried |
| KafkaPartition.Consumer.HandleRecord | services/sdrc/app.py:3574-3623 | commit, rewind, park or raise, as the decision and the consumer allow |
| KafkaPartition.Consumer.Turn | services/sdrc/app.py:3574-3627 | one turn of the loop, with the commit after the handler, is one step of the partition model |
| KafkaPartition.SafeIffNeverOverruns | services/sdrc/lib/bus_outcomes.py:202-250 | over any run of turns and crashes, every offset below the committed one had a committing decision iff no commit ever landed while the position was past an undecided record |
| KafkaPartition.ExposedIffPending | services/sdrc/lib/bus_outcomes.py:223-250 | as long as no commit overruns, the position is past an undecided record iff a park of an undecided record is pending, that is, not yet followed by a restart |
| KafkaPartition.SafeIffNoCommitWhilePending | services/sdrc/lib/bus_outcomes.py:202-250 | so a run acknowledges past no undecided record iff no commit after the parking turn lands while such a park is pending |
| KafkaPartition.ParkThenCrashIsSafe | services/sdrc/lib/bus_outcomes.py:223-250 | if every park is followed by a restart before the next record, no record is acknowledged past |
| KafkaPartition.ParkWithoutCrashSkips | services/sdrc/lib/bus_outcomes.py:239-247 | a park and then a success acknowledge past a record that was never decided |
| KafkaPartition.LandingCommits | services/sdrc/app.py:3582-3596 | a turn whose commit lands leaves the group at the position, one that parks at the parked record, and any other leaves it where it was |
| KafkaPartition.RestartResumes | services/sdrc/lib/bus_outcomes.py:49-50 | a restart resumes at the committed offset with an empty retry table and no park |
| KafkaPartition.SmoothRun | services/sdrc/app.py:3574-3596 | without crashes and with working seeks, records are decided in offset order, each within the limit of turns |
| KafkaPartition.AllDecidedInTime | services/sdrc/app.py:3574-3596 | n records are decided after at most n times the limit turns |
| AlertEvents.DroppedIsRejected | services/alert/enhance_alert_with_vlm.py:136-154 | the messages reported dropped are exactly those the filter rejected, and as many as the count says |
| AlertEvents.Begun | services/alert/enhance_alert_with_vlm.py:1430-1495 | the attempts begun: at least one unless retries are negative, at most retries plus one, all but the last failing retryably |
| AlertEvents.Pipeline.CallModel | services/alert/enhance_alert_with_vlm.py:1425-1495 | one duration is observed per attempt begun, and the verdict is the last attempt's |
| AlertEvents.Pipeline.ProcessMessage | services/alert/enhance_alert_with_vlm.py:1348-1541 | which records a message gets, what is published about it, how many model calls are observed, and when an exception leaves it |
| AlertEvents.RecordsIff | services/alert/enhance_alert_with_vlm.py:1348-1541 | when a message is skipped, completed twice, left without a record, or ends its batch, in terms of the outcomes outside |
| AlertEvents.SuccessIffVerified | services/alert/enhance_alert_with_vlm.py:1497-1505 | a success is published iff the message reached the model, the final attempt verified a response with text, and the sink took it |
| AlertEvents.Pipeline.ProcessBatch | services/alert/enhance_alert_with_vlm.py:1031-1112 | input equals the three kinds of drops plus what is processed, in numbers iff no filter raised and then message by message; each counter grows by exactly the messages its filter is the first to drop; what is processed keeps its order |
| AlertEvents.ReconciledIff | services/alert/enhance_alert_with_vlm.py:1348-1541 | every processed message gets exactly one skip or completion record iff each does by itself and none before the last raises |
| AlertEvents.NormalReturnsReconcile | services/alert/enhance_alert_with_vlm.py:1348-1541 | that is so for all video store, model and parser outcomes when prompt lookup, publish and enrichment return |
| WorkerSlots.Scheduler.SlotsAreConserved | services/alert/enhance_alert_with_vlm.py:256-258 | queued and running slot ids are exactly 0 to workers minus 1, each once, so putting one back never blocks |
| WorkerSlots.Scheduler.Finish | services/alert/enhance_alert_with_vlm.py:854-859 | a finished sub-batch returns its slot and keeps the conservation |
| WorkerSlots.Scheduler.Schedule | services/alert/enhance_alert_with_vlm.py:803-859 | whatever finishes meanwhile, the chunks submitted concatenate to the batch in order, each full but the last, of the configured size or of 2 |
| WorkerSlots.ChunksFlatten | services/alert/enhance_alert_with_vlm.py:803-806 | cutting a batch into chunks loses, repeats and reorders nothing |
| WorkerSlots.ChunksAreFull | services/alert/enhance_alert_with_vlm.py:766-770 | no chunk is empty and every chunk but the last is full |
| BackoffRetry.Retry | services/agent/docker/install_proprietary_codecs.py:96-128 | terminates for any failures, jitter and clock: first success, first permanent error, or a transient error with the budget spent; every sleep is half the backoff and the jitter, only the last cut short by the deadline; total sleep within the budget; no retry at a budget of 0; the least sleeps after all attempts but two fit into the budget |
| BackoffRetry.TransientIff | services/agent/docker/install_proprietary_codecs.py:67-82 | exactly network failures, timed-out, early or throttled requests and the server errors 500 and 502 to 504 are retried |
| BackoffRetry.BackoffSchedule | services/agent/docker/install_proprietary_codecs.py:62-64 | the backoffs are 5, 10, 20, 40 and 80 seconds, then two minutes |
| BackoffRetry.DefaultBudgetAttempts | services/agent/docker/install_proprietary_codecs.py:62-64 | the default twenty minutes allow at most 25 attempts |
| LifecyclePaths.NormalizePath | services/sdrc/envoy/generate_envoy_config_xds_mw.py:131-138 | the trimming loop computes the normal form |
| LifecyclePaths.NormalIsFixed | services/sdrc/envoy/generate_envoy_config_xds_mw.py:131-138 | the normal paths are exactly those it leaves alone |
| LifecyclePaths.BackendPathDropsPrefix | services/sdrc/envoy/generate_envoy_config_xds_mw.py:141-147 | the backend path is the normal path without the router's prefix where it has one, and the normal path itself otherwise |
| LifecyclePaths.EnvoyPathMeans | services/sdrc/envoy/generate_envoy_config_xds_mw.py:131-138 | normalizing puts a slash in front if there is none and takes off exactly the slashes at the end, but for the root's |
| LifecyclePaths.RouterUndoesRewrite | services/sdrc/run_workloads.py:1349-1353 | for every lifecycle path and non-empty slash-free workload name the router recovers the name and the backend path |
| LifecyclePaths.RouterUndoesRewriteIff | services/sdrc/run_workloads.py:1349-1353 | it recovers them for exactly those names, and for the empty name when the backend path is the root |
| LifecyclePaths.BuildRoutes | services/sdrc/envoy/generate_envoy_config_xds_mw.py:157-189 | one route, in order, for each of the first indices |
| LifecyclePaths.FirstIndicesAreFirsts | services/sdrc/envoy/generate_envoy_config_xds_mw.py:162-174 | these are, in order, exactly the usable fields that no earlier usable field shares method and path with |
| LifecyclePaths.OneRoutePerBinding | services/sdrc/envoy/generate_envoy_config_xds_mw.py:162-174 | every usable field's method and path has exactly one route |

## Left out

- Errors inside the store's delete: `deleteFromWorkLoadSpec` logs and swallows them, so a delete that failed looks like one that worked; here it always works.
- The file-backed configuration store, whose leases ignore expiry on renewal; the model is the Redis store.
- `addWorkLoadSpec` and the worker-side reservation of callers that did not reserve first; the add handler always reserves.
- Regex pod mapping, name ignoring, field validation and same-id replacement before an add: they return early or narrow the candidates.
- The undo of the pod-side add in an abort, notices, webhooks, tracing and the route service's updates: calls without effect on store state.
- Placement by `podWatch`, `preLoad`, `removeAllStreams` and `readdStreams`: driven by cluster state that is not part of this model.
- Handlers.Handler.Provision: scaling is assumed to take effect at once, and a workload object that cannot be read, which the code treats like zero replicas, is not modelled; an unavailable pod list is.
- Handlers.Handler.Deprovision: runs alone, so the wait for background adds always ends with none left; the interleaved delete is the step system's.
- Heartbeat.LeasedIff: assumes that nobody takes the lease by force, and takes seconds as real numbers without clock rounding.
- KafkaPartition.SafeIffNeverOverruns: one partition and one consumer; rebalancing and the consuming library's own behaviour on a failing commit beyond "it did not land" are not modelled.
- BusEvents.RetriedIff: exceptions are given by the kinds they belong to; which library class is of which kind is not modelled, nor are pod configuration events.
- PlacementDiscipline.RoutedExactlyOnce: the discipline is sufficient; the exact condition is that of PlacementAgreement.AgreesIffHarmless.
- The asynchronous, event-loop and pass-through modes of the alert verifier, and message decoding before the filters.
- WorkerSlots.Scheduler.Schedule: a submit that raises while the pool shuts down, which would lose its slot, is not modelled.
- BackoffRetry.Retry: durations are real numbers; infinite or not-a-number budgets and the overflow of the power of two past a thousand attempts are not modelled.
- LifecyclePaths.RouterUndoesRewrite: URL splitting and the web framework's own slash merging are outside; paths are what is left after them.
- Pod names ending in a newline and digits outside 0 to 9, which the ordinal's regular expression would also match.
- The supervisor, settings lookup, dashboards, HTTP, Kubernetes and Envoy plumbing.
