# A verified model of the hard-capped counter

The repository keeps one hot counter under a hard limit while requests arrive on many threads, while the
engine moves the count between a strict counter and sharded escrow, and while several machines hand their
escrow over to one strict owner. This project models that behaviour in Dafny and proves it safe. Check it
with `dafny verify --verification-time-limit 0 dfyconfig.toml`.

## Layers

1. **The distributed handoff** (`HandoffProtocol`, `HandoffCluster`, `HandoffInvariant`, `HandoffTheorems`,
   `HandoffFullFollowers`, `HandoffAbandon`, `HandoffGather`, `HandoffStaleReport`, `HandoffGivingUp`,
   `HandoffHypotheses`, `HandoffRecovery`). `HandoffProtocol` gives each branch of the controller as a
   transition of one node: engine, journal, protocol state. `HandoffCluster` interleaves N nodes over a
   network that is a growing set of packets, so any packet may be lost, delayed, duplicated or reordered, and
   over journal writes that may end in three ways: durable, not written, or in place although reported as
   failed (the directory sync comes after the rename, `cpp/src/distributed_handoff.cpp:202-213`). A crash may
   undo a rename that was never synced.
   Four modules work out what happens when a follower gives up a term too early: `HandoffFullFollowers` has an
   invariant that survives it, `HandoffAbandon` and `HandoffGather` build the continuations that exceed the
   limit, `HandoffStaleReport` relates a cluster to one in which the stale report was never sent, and
   `HandoffGivingUp` puts the three together.
   `HandoffController` is the same code in the form it runs in: an object whose methods update its fields,
   each method proved to be exactly the transition that `HandoffProtocol` gives. `HandoffAnswers` says what every
   frame, every turn and every teardown does to the fields and what it sends, for every node a controller can have.
2. **The engine under concurrency** (`EngineSteps`, `EngineInvariant`, `EngineEvents`, `EngineTheorems`,
   `EngineCache`, `EngineAnswers`, `EngineAlone`, `EngineTransitions`, `Modulo`). Any number of request threads, one atomic instruction at a time, beside the control thread that
   closes the gate, drains, scans, seeds, publishes and reopens. `EngineTheorems.RunRefines` shows that every
   run of this machine is a run of the engine that layer 1 assumes, so layer 1's "closed and drained means
   exact and frozen" is a theorem here. `EngineAnswers` ties what clients are told to the swaps; `EngineAlone` and
   `EngineTransitions` say what a request and a control operation accomplish when nobody interferes.
3. **The bounded queue** (`MpmcQueue`, `MpmcQueueAlone`), again one atomic instruction at a time.
4. **Sequential parts** as classes and array loops: streaming SHA-256 and the control tags (`Sha256Spec`,
   `Sha256Stream`, `Sha256Padding`, `Sha256Example`, `ControlAuthenticator`), the UDP replicator (`ReplicaMerge`, `Replicator`),
   the line framer (`LineFramer`), the sharded counter (`ReservedCounter`), the escrow plan (`ReservationPlan`).

`Sums` and `CounterTypes` are shared helpers.

## Hypotheses

The theorems about runs of a cluster name these openly; each is a definition in `HandoffCluster`.

- `ValidConfig`: at least two members, every reservation non-zero, all of them together within the limit. Start-up
  itself checks less: that the plan's total is within the limit and that the node's own reservation is not zero
  (`cpp/src/runtime_config.cpp:155-169`); two members and the other reservations are a hypothesis here.
  `ReservationPlan` proves that an accepted plan of that kind satisfies it.
- `FreshTerm`: the clock that numbers terms has moved past every term opened before
  (`cpp/src/distributed_handoff.cpp:339-346`).
- `MayAbandon`: no follower abandons, by timeout or by teardown, a term that the leader still collects or has
  committed. The timers do not enforce this. `HandoffFullFollowers.LimitHoldsWhenOnlyFullFollowersGiveUp` needs
  less: a follower that has spent its whole reservation may give up whenever it likes.
- Runs are free of crashes. What a restart does is stated separately, in `HandoffRecovery`.

The theorems about runs of the engine have one hypothesis, `EngineSteps.IncludesOwnPart`: a committed total is at
least what this node drained. `HandoffTheorems.CommitIncludesOwnPart` proves it of the cluster protocol.

Atomics are read as sequentially consistent throughout.

## What the code does not promise

- **Early follower timeout.** The repository's README says that after commit the cluster is not reopened in a split state
  (`README.md:240-242`). The code allows it: the attempt to commit never looks at the deadline, and a commit may be
  delayed past a follower's (`cpp/src/distributed_handoff.cpp:377-409`, `:553-557`).
  `HandoffHypotheses.LimitFailsWhenAFollowerGivesUpTooEarly` is a run of six steps that accepts three units under a
  limit of two, and it violates `MayAbandon` in exactly one step.
  `HandoffGivingUp.GivingUpBreaksTheLimitIff` is the exact condition, in every state of every run and for every
  follower, the owner included: after it gives up, some continuation that is timely from there on exceeds the limit
  if and only if it has unspent reservation left, and the leader has committed the term or still collects it with
  every member's report able to agree with its own in epoch and counter. The six-step run is an instance
  (`HandoffHypotheses.LateTimeoutMeetsTheCondition`).
- **A cached rejection can hide a redirect.** On a node that is not the strict owner, a commit of the whole limit
  marks the exhausted cache (`cpp/src/engine.cpp:124-128`), and the cache is looked at first
  (`cpp/src/engine.cpp:46`): the request is rejected where it would have been sent to the owner. The rejection is
  never wrong about the count. `EngineCache.CacheHitAgreesIff` shows that the cached answer is the uncached one if
  and only if the node is not open in remote mode, and `EngineCache.CacheCanHideARedirect` reaches a state where
  they differ.
- **A limit of zero.** The positional argument accepts it (`cpp/server/main.cpp:51`). Such a limit is reached before
  anybody can announce it, so an engine at rest may not know. `EngineTheorems.RestTellsTheLimitIffItIsPositive`.
- **One-cell queue.** The size check of the queue admits a capacity of one
  (`cpp/include/counter_poc/mpmc_queue.hpp:10`), where "published" and "free for the next lap" are the same number.
  `MpmcQueue.BoundHoldsIffTwoCells` shows that the bound holds if and only if there are at least two cells.
- **Second start.** The very first idle record names owner 0, and the next start compares the recorded owner with
  the configured one. `HandoffRecovery.RestartSucceedsIffRecordedOrOwnerIsZero`: after any life, the next start
  succeeds if and only if some other record has been written or the configured owner is 0.
- **Fence after a prepared restart.** It holds if and only if the node owns less than the whole limit, because a
  node that owns all of it may collapse locally and reopen its gate.
  `HandoffRecovery.FenceHoldsIffReservationIsPartial`.

## Model

| member | source | states |
|---|---|---|
| `HandoffTheorems.GlobalHardLimit` | cpp/src/distributed_handoff.cpp:335-573 | In every state of every run, under any loss, duplication, reordering and journal failure, the sum of all deltas accepted anywhere is within the limit |
| `HandoffTheorems.AcceptedIsAccounted` | cpp/src/distributed_handoff.cpp:377-409 | Everything accepted is either in the frozen peak totals or, once the owner is strict, exactly the owner's strict value |
| `HandoffInvariant.RunKeepsInv` | cpp/src/distributed_handoff.cpp:411-573 | The inductive invariant of the cluster holds in every reachable state |
| `HandoffInvariant.StepKeepsInv` | cpp/src/distributed_handoff.cpp:411-573 | Every step of any node keeps the invariant: node shape, collected reports, follower promises, the decided total, the truth of acknowledgements and of every packet in flight |
| `HandoffInvariant.CompleteReportsAreExact` | cpp/src/distributed_handoff.cpp:374-390 | When the leader has all reports, their sum is the sum of the members' actual drained totals |
| `HandoffTheorems.DecisionIsExact` | cpp/src/distributed_handoff.cpp:377-409 | At the moment of decision every gate is closed and the committed total equals everything accepted so far |
| `HandoffTheorems.ReportStaysExact` | cpp/src/distributed_handoff.cpp:421-463 | From the sending of a report until after its term is committed, the total it carries stays the sender's exact total, whatever duplicates and old prepares arrive |
| `HandoffTheorems.Agreement` | cpp/src/distributed_handoff.cpp:335-409 | At most one term is ever committed: any two nodes that ever install a handoff hold the same term and total |
| `HandoffTheorems.NoTermIsAbortedAndCommitted` | cpp/src/distributed_handoff.cpp:360-409 | No term has both an abort on the wire and an installation anywhere, in whatever order |
| `HandoffTheorems.ModesAreAbsorbing` | cpp/src/distributed_handoff.cpp:417-504 | A node that has left peak mode stays in the strict mode of its role through every later frame, timer and local transition |
| `HandoffTheorems.LeaderStopsOnlyWhenAllInstalled` | cpp/src/distributed_handoff.cpp:490-499 | The leader leaves its committing state only when every member has journaled and installed that term and total |
| `HandoffTheorems.DuplicateCommitIsIdempotent` | cpp/src/distributed_handoff.cpp:464-472 | A commit delivered again to an installed node changes nothing and is acknowledged: the strict counter is not seeded again |
| `HandoffTheorems.ReportsAreWrittenAhead` | cpp/src/distributed_handoff.cpp:444-455 | Every report in the network was durable in its sender's journal when it was first sent |
| `HandoffTheorems.StrictModeIsRecorded` | cpp/src/distributed_handoff.cpp:395-404 | A node in a handoff-installed mode has the decided term and the exact frozen total in its journal |
| `HandoffTheorems.InstalledTermStays` | cpp/src/distributed_handoff.cpp:479-483 | An installed term is never given up or replaced |
| `HandoffHypotheses.LimitFailsWhenAFollowerGivesUpTooEarly` | cpp/src/distributed_handoff.cpp:553-557 | A concrete run, with one early follower timeout and no other fault, that exceeds the limit by one |
| `HandoffGivingUp.GivingUpBreaksTheLimitIff` | cpp/src/distributed_handoff.cpp:553-557 | In any state of any run, once a follower gives up a prepared term, some timely continuation exceeds the limit if and only if the follower has unspent reservation and the term is committed, or is being collected with every report still able to agree |
| `HandoffGivingUp.GivingUpBreaksIff` | cpp/src/distributed_handoff.cpp:377-409 | The same for every state of the invariant in which prepared followers were asked for their term and have answered |
| `HandoffGivingUp.RunIsHeard` | cpp/src/distributed_handoff.cpp:421-463 | In every run, a prepared follower was sent a prepare for its very term, and its report is on the wire |
| `HandoffAbandon.DecidedTermBreaks` | cpp/src/distributed_handoff.cpp:464-489 | Giving up a committed term with anything left lets a timely continuation exceed the limit: through an owner that is strict, still joined, or rejoining on an old prepare |
| `HandoffGather.GatherExceeds` | cpp/src/distributed_handoff.cpp:456-463 | While every member's report can agree, the leader can be brought to decide on a report that no longer holds, and the limit exceeded |
| `HandoffStaleReport.HarmlessStep` | cpp/src/distributed_handoff.cpp:377-390 | A stale report that cannot be part of an agreement stays harmless through every step: the cluster goes on as if it had never been sent, apart from aborts |
| `HandoffFullFollowers.StepIsSound` | cpp/src/distributed_handoff.cpp:411-573 | A weaker invariant than that of the cluster, kept by every step even when full followers give up as they please |
| `HandoffFullFollowers.LimitHoldsWhenOnlyFullFollowersGiveUp` | cpp/src/distributed_handoff.cpp:553-557 | The hard limit, in every run in which only followers that have spent their whole reservation abandon a term the leader holds |
| `HandoffTheorems.CommitIncludesOwnPart` | cpp/src/distributed_handoff.cpp:379-390 | Every commit on the wire carries at least what its receiver and the leader had drained, and at most the limit |
| `HandoffRecovery.PreparedRestartNeverAdmits` | cpp/src/distributed_handoff.cpp:665-673 | A start on a prepared record is accepted exactly when owner and total fit the configuration; a node that owns less than the limit then never admits again and never changes, whatever arrives |
| `HandoffRecovery.FenceHoldsIffReservationIsPartial` | cpp/src/engine.cpp:184-191 | The fence holds if and only if the reservation is below the limit |
| `HandoffRecovery.CommittedRestartStaysStrict` | cpp/src/distributed_handoff.cpp:674-679 | A restart on a committed record yields the role's strict mode seeded with the recorded total, kept through every later step |
| `HandoffRecovery.StartsByRecord` | cpp/src/distributed_handoff.cpp:655-690 | Which starts succeed, and how the node comes up: open with its whole reservation on a missing or idle record, fenced and shut on a prepared one, strict in its role on a committed one |
| `HandoffRecovery.CrashNeverReopensAPledge` | cpp/src/distributed_handoff.cpp:664-681 | A crash at any moment of any run, even one that undoes a rename that was never synced: a node that owes the leader a report comes back fenced, strict or not at all |
| `HandoffRecovery.CrashKeepsTheCommit` | cpp/src/engine.cpp:134-157 | A crash of an installed node brings back its mode, its term and the exact committed total, whichever record the disk holds |
| `HandoffRecovery.RestartSucceedsIffRecordedOrOwnerIsZero` | cpp/src/distributed_handoff.cpp:658-668 | After a first start and any sequence of frames, timers and failed writes, the next start succeeds if and only if the record found is not the blank one or the configured owner is 0 |
| `HandoffController.PeakEngine.Begin` | cpp/src/engine.cpp:93-106 | Closes, drains and reports the exact state, or refuses and changes nothing |
| `HandoffController.PeakEngine.Abort` | cpp/src/engine.cpp:108-111 | Reopens the gate only for an active handoff still in peak mode |
| `HandoffController.PeakEngine.Commit` | cpp/src/engine.cpp:113-132 | Seeds and publishes the role's mode exactly when a handoff is active in peak mode and the total is within the limit |
| `HandoffController.Controller.Store` | cpp/src/distributed_handoff.cpp:175-214 | True exactly for a durable write; the record may be in place even when the write is reported as failed |
| `HandoffController.Controller.BeginPrepare` | cpp/src/distributed_handoff.cpp:335-358 | The new state is the leader's prepare transition |
| `HandoffController.Controller.Abandon` | cpp/src/distributed_handoff.cpp:360-372 | The new state and what is sent are the abort transition |
| `HandoffController.Controller.AddReports` | cpp/src/distributed_handoff.cpp:379-390 | In any iteration order: agreement exactly when all reports match the leader's counter and epoch and their sum fits 64 bits, and then the exact sum |
| `HandoffController.Controller.TryCommit` | cpp/src/distributed_handoff.cpp:377-409 | The new state and what is sent are the commit attempt: abort, block or decide |
| `HandoffAnswers.FrameIsAnswered` | cpp/src/distributed_handoff.cpp:411-504 | What each frame does to the fields and sends, in every case: an abort reopens a prepared follower on what it closed on, a trigger opens the next term, a commit is written down and then installed in the role's mode, the last acknowledgement closes the term, and whatever is late, foreign or of another term changes nothing |
| `HandoffAnswers.TurnIsAnswered` | cpp/src/distributed_handoff.cpp:525-573 | What one timer turn does in each state: an idle peak node with at most the threshold left opens a term or asks its leader to, a passed deadline rolls back, a due retry repeats exactly the term's own packet to exactly those it is for |
| `HandoffAnswers.StopIsAnswered` | cpp/src/distributed_handoff.cpp:713-726 | Teardown rolls back the two prepared states and leaves the others alone |
| `HandoffAnswers.EveryLifeIsCoherent` | cpp/src/distributed_handoff.cpp:411-573 | The answers hold of every controller: whatever the journal held at the start and whatever frames of any content arrived since, a node in a handoff is shut on the exact state it drained to, and a node at rest is not |
| `HandoffAnswers.EveryRunIsCoherent` | cpp/src/distributed_handoff.cpp:411-573 | The same for every node in every state of every run of a cluster |
| `HandoffController.Controller.OnFrame` | cpp/src/distributed_handoff.cpp:411-504 | The new state and what is sent are the reaction to the frame, branch by branch, and answer it as stated above |
| `HandoffController.Controller.OnTick` | cpp/src/distributed_handoff.cpp:525-573 | The new state and what is sent are one timer turn, and answer it as stated above |
| `HandoffController.Controller.OnStop` | cpp/src/distributed_handoff.cpp:713-726 | Teardown aborts a prepared term and nothing else |
| `EngineTheorems.DrainedIsQuiescent` | cpp/include/counter_poc/admission_gate.hpp:13-25 | Once the closer has seen nobody in flight, nobody is inside until the gate reopens; late threads change only the in-flight count |
| `EngineTheorems.CountIsConserved` | cpp/src/engine.cpp:45-83 | In every state of every interleaving and in every mode, the count equals what was imported plus what was accepted, and is within the limit |
| `EngineTheorems.LocalModeChangesConserve` | cpp/src/engine.cpp:167-203 | Through any number of local mode changes the count is exactly the sum of accepted deltas |
| `EngineTheorems.StrictDecidesExactly` | cpp/src/strict_counter.cpp:4-12 | The compare-and-swap of a strict request takes the delta if and only if it fits and the counter is the expected one |
| `EngineAnswers.AcceptedIffSwapped` | cpp/src/engine.cpp:45-83 | In every interleaving, a request is answered Accepted if and only if its own swap has succeeded since it arrived, and it swaps at most once |
| `EngineAnswers.ToldIsCounted` | cpp/src/engine.cpp:45-83 | In every state, what has been accepted is the sum of what clients were told plus what is about to be told |
| `EngineAnswers.CountIsWhatClientsWereTold` | cpp/src/engine.cpp:45-83 | With nobody under way, the count is what was imported plus exactly the deltas answered Accepted |
| `EngineAlone.AnsweredAlone` | cpp/src/engine.cpp:45-83 | In every reachable state a request that is left alone is Accepted if and only if cache and gate let it in, the count lives here and the delta fits the counter or the selected shard; then exactly that delta is added, and otherwise nothing changes; Moved exactly in remote mode |
| `EngineAlone.RequestsEndAlone` | cpp/src/engine.cpp:45-83 | From wherever it stands, a request that is left alone is answered within thirteen instructions |
| `EngineTransitions.OperationsAccomplish` | cpp/src/engine.cpp:93-203 | With nobody inside, each control operation ends and does the whole of what it is for: entering peak mode, collapsing, holding the barrier on the exact drained total, aborting, installing a commit; a refused one changes nothing |
| `EngineTheorems.PeakErrsOnlyByRejecting` | cpp/src/reserved_counter.cpp:10-20 | A peak request is accepted only if it fits the reservation and rejected only because its shard is too full |
| `EngineTheorems.RetriesAreBounded` | cpp/src/strict_counter.cpp:4-12 | A request suffers at most limit minus first-observed value failed swaps, per strict counter and per shard |
| `EngineTheorems.FailureMeansGrowth` | cpp/src/strict_counter.cpp:4-12 | A non-spurious failed swap means the counter strictly grew; a zero delta never causes one |
| `EngineTheorems.ShardFailureMeansGrowth` | cpp/src/reserved_counter.cpp:10-20 | The same for the loop of a shard |
| `EngineTheorems.PublishedOnceAndOnlyAtTheLimit` | cpp/src/engine.cpp:255-263 | The limit event is published at most once in a run and only while the count equals the limit |
| `EngineTheorems.EventIffLimit` | cpp/include/counter_poc/limit_reached.hpp:11-18 | At rest, in every mode: the cache is set only at the limit, and exactly there if the limit is not zero; except on a node in remote mode, the event has been published exactly when the cache is set |
| `EngineTheorems.RestTellsTheLimitIffItIsPositive` | cpp/src/engine.cpp:255-263 | From a given start, the cache tells at every rest whether the limit is reached if and only if the limit is positive |
| `EngineTheorems.AnnouncedCountIsExact` | cpp/src/engine.cpp:75-80 | At rest with a full reservation, the announced count is the number of full shards, so it reaches the shard count exactly when all are full |
| `EngineCache.CacheHitIsSound` | cpp/src/engine.cpp:46 | In every mode, a request rejected from the cache would not have fitted under the limit |
| `EngineCache.CacheHitAgreesIff` | cpp/src/engine.cpp:46 | The cached answer is the one the request would get without the cache if and only if the node is not open in remote mode |
| `EngineCache.CacheCanHideARedirect` | cpp/src/engine.cpp:124-128 | From a start that owns one of two units, a reachable state in which the cache rejects what would be redirected |
| `EngineTheorems.ScanLiesBetween` | cpp/src/reserved_counter.cpp:21-25 | A total read shard by shard during requests lies between the true totals at its start and its end |
| `EngineTheorems.EngineRefinesProtocolEngine` | cpp/src/engine.cpp:45-203 | Every atomic step is a step of the engine of the cluster model, or none |
| `EngineTheorems.RunRefines` | cpp/src/engine.cpp:45-203 | Every run of the atomic engine is a run of the engine of the cluster model |
| `EngineTheorems.HeldTotalIsExact` | cpp/src/engine.cpp:102-104 | While a handoff is held, the drained total is exact and no request can move it |
| `EngineInvariant.SeedingCompletes` | cpp/src/reserved_counter.cpp:40-51 | Greedy seeding of a value within the reservation leaves nothing over and every shard within its reserve |
| `EngineEvents.Reachable` | cpp/src/engine.cpp:45-203 | The invariant of the atomic engine holds in every reachable state |
| `MpmcQueue.Reachable` | cpp/include/counter_poc/mpmc_queue.hpp:14-31 | The ownership invariant of the queue holds in every reachable state |
| `MpmcQueue.PopsReturnTheirPosition` | cpp/include/counter_poc/mpmc_queue.hpp:23-31 | A pop that has claimed a position holds the value claimed for it: never an unwritten or a foreign one |
| `MpmcQueueAlone.PopAtRest` | cpp/include/counter_poc/mpmc_queue.hpp:23-31 | At rest a pop takes the oldest value not yet taken and returns it, or returns nothing and changes nothing if there is none |
| `MpmcQueueAlone.PushAtRest` | cpp/include/counter_poc/mpmc_queue.hpp:14-22 | At rest a push appends its value, or is refused and changes nothing exactly when a whole lap is outstanding |
| `MpmcQueueAlone.OperationsEndAlone` | cpp/include/counter_poc/mpmc_queue.hpp:14-31 | From wherever it stands in any reachable state, an operation that is left alone ends within six instructions |
| `MpmcQueue.PositionsAreHandedOutInOrder` | cpp/include/counter_poc/mpmc_queue.hpp:14-31 | Values are taken in the order of the enqueue swaps |
| `MpmcQueue.DeliveredOnce` | cpp/include/counter_poc/mpmc_queue.hpp:28 | No position is read twice |
| `MpmcQueue.NothingIsLost` | cpp/include/counter_poc/mpmc_queue.hpp:14-31 | At rest every claimed value has been delivered or waits in its cell |
| `MpmcQueue.CellsAreOwnedExclusively` | cpp/include/counter_poc/mpmc_queue.hpp:19 | Between its swap and its sequence store a thread has its cell to itself |
| `MpmcQueue.CapacityIsRespected` | cpp/include/counter_poc/mpmc_queue.hpp:14-31 | At most the capacity is outstanding |
| `MpmcQueue.PushFailsOnlyWhenFull` | cpp/include/counter_poc/mpmc_queue.hpp:20 | A push is refused only while the position a lap behind is still in use |
| `MpmcQueue.PopFailsOnlyWhenNothingIsPublished` | cpp/include/counter_poc/mpmc_queue.hpp:29 | A pop is refused only when the next value is not published |
| `MpmcQueue.SingleCellOverwrites` | cpp/include/counter_poc/mpmc_queue.hpp:10 | With one cell, two pushes in a row both succeed |
| `MpmcQueue.BoundHoldsIffTwoCells` | cpp/include/counter_poc/mpmc_queue.hpp:10 | The bound holds in every run if and only if there are at least two cells |
| `Modulo.SelectIsRemainder` | cpp/src/reserved_counter.cpp:11 | Shard and cell selection is the remainder |
| `Sha256Stream.Expand` | cpp/src/auth.cpp:66-79 | The 64-word schedule, equal to the one of section 6.2.2 of FIPS 180-4 |
| `Sha256Stream.Mix` | cpp/src/auth.cpp:80-104 | The 64 rounds of section 6.2.2 of FIPS 180-4 |
| `Sha256Stream.AbsorbIsPrefixOnly` | cpp/src/auth.cpp:37-42 | Blocks already compressed do not depend on later input |
| `Sha256Stream.Sha256.Transform` | cpp/src/auth.cpp:65-113 | The state becomes the compression of the old state and the block |
| `Sha256Stream.Sha256.Update` | cpp/src/auth.cpp:35-44 | However a message is split into calls, state, buffer and bit count describe the whole message |
| `Sha256Stream.Sha256.Final` | cpp/src/auth.cpp:46-62 | The digest of everything fed, through all block boundaries of the padding |
| `Sha256Example.DigestOfAbc` | cpp/src/auth.cpp:10-113 | The hash as defined here yields the digest of "abc" that is published with the standard (FIPS 180-2, appendix B.1) |
| `Sha256Padding.PadIsInjective` | cpp/src/auth.cpp:46-55 | Two messages with the same padding are equal, even where the 64-bit length has wrapped |
| `ControlAuthenticator.Sign` | cpp/src/auth.cpp:130-157 | The first 16 bytes of H(K xor 0x5c.., H(K xor 0x36.., message)) for the key padded or hashed to one block, stated byte by byte (section 2 of RFC 2104), for keys of any length |
| `ControlAuthenticator.TagIsTheFormula` | cpp/src/auth.cpp:132-152 | That formula has exactly one value for every key and message |
| `ControlAuthenticator.Verify` | cpp/src/auth.cpp:159-166 | True if and only if the tag satisfies that formula |
| `ReplicaMerge.EntriesAreGreatest` | cpp/src/replication.cpp:230-235 | A view holds exactly the delivered keys, each with the greatest delivered value |
| `ReplicaMerge.ViewDependsOnTheSetOnly` | cpp/src/replication.cpp:230-235 | Duplicates and reordering leave no trace in the view |
| `ReplicaMerge.MergedTotal` | cpp/src/replication.cpp:373-383 | In any iteration order of the map: the sum of exactly the entries of that counter and epoch, cut to 64 bits |
| `ReplicaMerge.TotalsNeverShrink` | cpp/src/replication.cpp:373-383 | Further snapshots never lower a merged total |
| `Replicator.BooksBalanceInEveryRun` | cpp/src/replication.cpp:173-262 | In every reachable state: sequences issued equal acknowledged plus given up plus pending, pending is within its bound, and no sequence is transmitted more than one plus the retry bound times |
| `Replicator.IssueKeepsBooks` | cpp/src/replication.cpp:189-198 | Issuing a sequence keeps: issued = acknowledged + given up + pending, the table bound and the transmission bound |
| `Replicator.RemovalKeepsBooks` | cpp/src/replication.cpp:220-226 | Acknowledging or giving up a sequence keeps the same balance |
| `Replicator.ResendKeepsBooks` | cpp/src/replication.cpp:255-259 | A retry below the retry bound keeps every sequence at no more than one plus that bound of transmissions |
| `Replicator.OffersFillTheTable` | cpp/src/replication.cpp:184-203 | Exactly as many offers go out as the pending table has room for |
| `Replicator.FirstOffersAreSent` | cpp/src/replication.cpp:184-203 | The first offers that fit are sent in order, under consecutive numbers; earlier entries stay as they were |
| `Replicator.OffersAreAllPairs` | cpp/src/replication.cpp:184-203 | The offers are all pairs of a coalesced key and a peer, each once, key by key |
| `Replicator.ReliableUdpReplicator.Coalesce` | cpp/src/replication.cpp:173-183 | The batch is reduced to the greatest value of every key |
| `Replicator.ReliableUdpReplicator.DrainOutbound` | cpp/src/replication.cpp:173-205 | Each key's greatest value is offered once to every peer; as many as fit go out under consecutive numbers with counter, epoch, value and the 16-bit component; the rest are counted as dropped |
| `Replicator.ReliableUdpReplicator.ReceiveFrame` | cpp/src/replication.cpp:207-241 | An acknowledgement removes its sequence if it comes from the peer it was sent to, and otherwise changes nothing; a snapshot is merged under its counter, epoch and component and acknowledged to its sender |
| `Replicator.ReliableUdpReplicator.RetryExpired` | cpp/src/replication.cpp:243-262 | By time and attempts: an entry that is not due stays, a due one with retries left is sent again with its next time and one more attempt, a due one without is given up; drops and retries are counted exactly, and nothing else is sent |
| `Replicator.ReliableUdpReplicator.Start` | cpp/src/replication.cpp:299-306 | Refuses a component id over 16 bits or an empty table; otherwise clears the session and keeps the merged view |
| `Replicator.ReliableUdpReplicator.ComponentValue` | cpp/src/replication.cpp:366-371 | The greatest value delivered for the component, or zero |
| `Replicator.ReliableUdpReplicator.Total` | cpp/src/replication.cpp:373-383 | The sum, cut to 64 bits, of the greatest delivered value of every component of that counter and epoch |
| `LineFramer.Run` | cpp/src/tcp_server.cpp:36-73 | The lines given to the parser depend on the byte stream and on which replies can be written, not on how the stream was chunked: all of them if every reply is written, and otherwise those up to and including the first whose reply fails |
| `LineFramer.LinesAreTheOnlySplit` | cpp/src/tcp_server.cpp:44-70 | There is only one way to split a stream into short lines and a remainder, and the framer finds it |
| `LineFramer.LinesSplitTheStream` | cpp/src/tcp_server.cpp:44-70 | The framed lines and the remainder are the stream: nothing is lost or invented |
| `LineFramer.Scan` | cpp/src/tcp_server.cpp:45-65 | One pass over the buffer serves its complete lines, whatever follows in the stream, and stops at the first reply that fails |
| `LineFramer.Compact` | cpp/src/tcp_server.cpp:66-69 | The overlapping move brings the unfinished line to the front |
| `ReservedCounter.SplitSumsToTheLimit` | cpp/src/reserved_counter.cpp:4-9 | The shard reserves sum to the reservation for every limit and count |
| `ReservedCounter.SplitIsTheOnlyFairOne` | cpp/src/reserved_counter.cpp:4-9 | The reserves are the only ones that hand out the whole limit with no two differing by more than one, larger ones first |
| `ReservedCounter.FillingIsExact` | cpp/src/reserved_counter.cpp:40-51 | Greedy filling places exactly the value, within every reserve |
| `ReservedCounter.FillingIsGreedy` | cpp/src/reserved_counter.cpp:40-51 | Nothing goes into a shard while one before it has room |
| `ReservedCounter.ExhaustionIsTheLimit` | cpp/src/reserved_counter.cpp:33-39 | All shards are exhausted exactly when the whole reservation is spent |
| `ReservedCounter.Create` | cpp/src/reserved_counter.cpp:4-5 | Refuses zero shards and nothing else |
| `ReservedCounter.Counter.Apply` | cpp/src/reserved_counter.cpp:10-20 | Without contention: accepted exactly when the selected shard has room, and the total grows by the delta |
| `ReservedCounter.Counter.Total` | cpp/src/reserved_counter.cpp:21-25 | The sum of the shards, within the limit |
| `ReservedCounter.Counter.MarkExhaustionIfNew` | cpp/src/reserved_counter.cpp:26-32 | True exactly for a full shard not yet announced |
| `ReservedCounter.Counter.ExhaustedShards` | cpp/src/reserved_counter.cpp:33-39 | Equals the shard count exactly when the total equals the limit |
| `ReservedCounter.Counter.SeedTotal` | cpp/src/reserved_counter.cpp:40-51 | Succeeds exactly for values within the limit; then the total is the value and exactly the full shards are flagged |
| `ReservationPlan.Build` | cpp/src/reservation_plan.cpp:10-27 | A plan is accepted if and only if its ids are distinct and its total is within the limit; each error means what it says |
| `ReservationPlan.CapacityFor` | cpp/src/reservation_plan.cpp:29-36 | The binary search returns what a linear search of the unsorted input returns |
| `ReservationPlan.HasComponent` | cpp/src/reservation_plan.cpp:38-45 | True exactly for an id of the input |
| `ReservationPlan.LowerBound` | cpp/src/reservation_plan.cpp:30-34 | The first position whose id is not below the one sought |
| `ReservationPlan.AcceptedPlanIsAValidCluster` | cpp/src/runtime_config.cpp:155-169 | An accepted plan of at least two non-empty reservations satisfies the hypothesis of the cluster theorems |

## Left out

- HandoffTheorems.GlobalHardLimit: not claimed across restarts, because peak usage and accepts after a commit are not persisted and a recovered leader does not resume sending the commit.
- HandoffTheorems.ReportsAreWrittenAhead: a durable write is one of three outcomes of a step; files, the rename and the tag of the record are not modelled.
- HandoffController.Controller.Store: temporary file, writes, syncs and rename are not modelled; how they end is a parameter, one of three outcomes.
- HandoffController.Controller.OnFrame: takes decoded frames from their claimed sender; the endpoint comparison of `cpp/src/distributed_handoff.cpp:414-415` is part of that assumption.
- HandoffCluster.Enabled: a node of the cluster model may accept any delta that fits its whole reservation; that only some shards have room, and the cache, are left to the engine modules, which only accept less.
- EngineTheorems.DrainedIsQuiescent: read over sequentially consistent atomics; the close-then-load of the gate is only release/acquire in the source.
- EngineTheorems.CountIsConserved: one control thread; the handoff-active flag is implied by what that thread is doing, so two control-plane callers racing each other are not modelled.
- EngineSteps.MoveThread: remembering the counter of a request is one step, and the traffic detector that runs before it is not modelled.
- ReservedCounter.Counter.Apply: one caller at a time; the compare-and-swap races are in EngineTheorems.PeakErrsOnlyByRejecting and EngineTheorems.RetriesAreBounded.
- MpmcQueue.CapacityIsRespected: positions are unbounded, so the wrap-around of 64-bit positions is not modelled; terms and epochs are unbounded likewise.
- Replicator.ReliableUdpReplicator.Start: the worker thread, sockets and address resolution are not modelled, so neither is the early return while a worker runs, nor a start that fails on a socket or a peer; that a late acknowledgement from an earlier session can settle a reused sequence is not excluded.
- ReservationPlan.Build: the library sort is replaced by insertion; only the sorted result matters.
- LineFramer.Run: number parsing, the reply text and the engine behind it are not modelled; a reply either is or is not written.
- ControlAuthenticator.Verify: functional only, nothing is said about cryptographic strength.
- Fixed-offset wire codecs, option parsing, routing hashes, the hot-key detector, the grow-only counter, benchmarks, packet-I/O code and the legacy C tree: easy, or repeated above.
- Liveness of the handoff and clusters of one member.
