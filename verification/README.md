# Proofs about the replicated Algorand/PBFT system

This project models the shipped configuration of the system (PBFT, batches of requests,
Algorand voting on, view changes off; `Algorand/config.h:224-245`) and proves what the
protocol, its quorum logs, its sortition and its wire format promise. Everything is
symbolic: f >= 1 and n = 3f+1 nodes, batch size B > 5, any ring of slots not smaller than
a batch. The handlers carry the view-change switch too (`Protocol.Settings.views`): own votes
counted down, votes of another view put off, executed batches passed over. Safety
(`Preserve`, `Agreement`, `LogSafety`, `LogAgreement`, `ViewChangeRuns`) is proved for both
settings, liveness and failed assertions (`Delivery*`) for the shipped one.

## What the modules are

| file | what it models |
|---|---|
| `Protocol.dfy` | one replica's tables and every handler of the batched three-phase protocol, as functions; a failed assertion is the outcome `Crash` |
| `Replica.dfy` | the same handlers in the program's own form, a class updated in place by loops, each proved to compute the function |
| `Invariant.dfy`, `Preserve.dfy` | what every handler keeps, whatever order messages come in and however often |
| `Contents.dfy` | where stored votes come from, and what a node has when it sends a commit |
| `Quorum.dfy`, `Arith.dfy` | sets of nodes, slots read as sets of senders, division facts |
| `Agreement.dfy` | all runs of the cluster with at most f arbitrary nodes, the primary possibly among them: agreement |
| `LogSafety.dfy` | all runs with a correct primary and any number of arbitrary backups: one log |
| `LogAgreement.dfy` | all runs with at most f arbitrary nodes: exactly when two logs are comparable |
| `Equivocation.dfy` | one run with a faulty primary in which they are not |
| `Delivery.dfy` | each handler under votes of any digest and view: exactly when it fails, and what it does otherwise |
| `DeliveryRuns.dfy` | whole runs of deliveries in any order: exactly when one fails, exactly when a batch gets executed, and how many silent nodes that survives |
| `DeliveryCases.dfy`, `DeliveryExamples.dfy` | honest deliveries never fail; concrete orders of arrival that stall or stop a replica |
| `SecondBatch.dfy` | a second batch for one index: exactly when it is taken, and what it breaks |
| `Tables.dfy` | the quorum tests column by column, releasing managers, the view-change setting |
| `CheckpointRuns.dfy` | the checkpoint messages a correct node sends over every run |
| `OrderedBroadcast.dfy` | the primary's gate, what it announces, and the queue behind it |
| `Locking.dfy` | locks on transaction managers and the gate over every interleaving of workers |
| `RingStore.dfy` | stores addressed by `id % indexSize` against an unbounded log |
| `Checkpoint.dfy` | the checkpoint log and the stable checkpoint |
| `ClientReply.dfy` | the client's reply quorum |
| `ViewChange.dfy` | view-change reports, new-view numbering and choice |
| `ViewChangeRuns.dfy` | view change over whole runs: reports never fail, a batch committed at one node is in one of them, and the new view keeps its digest |
| `Sortition.dfy`, `Algorand.dfy` | the binomial search, verification, tally and seed chain, over exact reals |
| `Wire.dfy`, `WireLayout.dfy` | serializers and parsers over a byte buffer, and where each field stands |

## Hypotheses

They are written into the definitions named here.

* Sender ids are authentic, and votes are well formed: `txn_id == end_index` ends a batch and
  `index == end_index + 1 - B` (`Invariant.GoodVote`, `Invariant.GoodBatch`).
* A node meets at most one batch per index (`Invariant.Allowed`). The program does not check
  this; `SecondBatch.TakenExactlyWhen` says exactly when it takes a second one, and
  `SecondBatch.TwoBatchRun` what that breaks.
* Live indices fit in one ring window (`Agreement.Windowed`).
* For agreement, a correct sender's prepare never arrives behind one of its later prepares for
  the same slot (`Agreement.Genuine`). Faulty nodes may send anything well formed at any time.
* For the `Delivery` modules, each sender votes at most once per phase and batch, and no vote for an
  old batch arrives behind the same sender's vote for a later batch of its slot
  (`Delivery.Orderly`). Digests and views are arbitrary, EXECUTE messages are taken up in any
  order, and that a sender's prepare precedes its commit is not assumed; these are the
  conditions the results are about.
* For `ViewChangeRuns`, nodes follow the protocol until they stop; any number may stop.
* SHA-256 is injective on request texts; the client to answer is not part of what is hashed. The
  verifiable random function is a parameter of which only completeness is used (`Algorand.VrfOk`).
* For `Checkpoint`, votes are on checkpoint indices with the beginning that goes with them, and each
  sender's arrive in order; they may be repeated (`Checkpoint.GoodTrace`). What a correct node sends is so
  (`CheckpointRuns.ReceivedInOrder`).

## Properties that fail, and exactly when they hold

* *No assertion fails.* One commit with another digest stops a backup that has the batch and
  2f prepares (`DeliveryExamples.BadCommitStops`); one prepare with another digest in a low column does
  so although all commits agree with the batch, since commits are compared with the first stored
  prepare (`DeliveryExamples.BadPrepareStops`). For every run and every delivery, one fails if and only if
  the delivery is fatal in the sense of `Delivery.Fatal` (`DeliveryRuns.FailsExactlyWhen`): the vote is of
  another view; it is the (2f+1)-th commit of a prepared batch and some stored commit clashes with
  the first stored prepare; it is the 2f-th prepare the primary hears of a batch it has not made; a
  batch's hash or view is wrong or its votes, come before it, clash; or an EXECUTE is not of the
  next batch.
* *Executions come in order.* The second batch's quorum may complete first; its EXECUTE then stands
  ahead in the queue, and running it fails (`DeliveryExamples.OutOfOrderStops`). An EXECUTE a node queued
  fails if and only if its index is not the next (`DeliveryRuns.RunsInOrderOnly`).
* *A batch with all its messages is executed.* The prepare handler does not look at the commit
  counter again, so 2f+1 commits that overtake the 2f-th prepare strand a batch for good
  (`DeliveryExamples.CommitsFirstStrand`, `DeliveryRuns.OvertakenStaysStuck`). While no assertion has
  failed it is executed if and only if it was never overtaken in this way
  (`DeliveryRuns.ExecutedExactlyWhen`).
* *f silent nodes do no harm.* In the shipped configuration a node's own commit is not counted, so 2f+1
  others must be heard: with f silent nodes nothing is ever executed (`DeliveryRuns.SilentStall`), with
  fewer everything is (`DeliveryRuns.AllExecute`).
* *Correct nodes execute the same requests.* Prepares and commits carry the digest of the last request
  only. In one run of four nodes, only the primary faulty, two backups execute different first requests
  (`Equivocation.SameVotesDifferentLogs`). Over every run with at most f faulty nodes the executed texts of
  two correct nodes are comparable if and only if their batches have equal hashes before the last
  (`LogAgreement.ComparableExactlyWhen`); the last texts of batches always agree
  (`LogAgreement.SameLastRequests`), and with a correct primary there is one log.
* *One batch per index.* A second batch for a live index is taken if and only if its hashes and view
  fit and each hash differs from the one held (`SecondBatch.TakenExactlyWhen`); both are then run.
* *A batch reported done has 2f+1 servers behind it.* A server that answers twice is counted twice
  (`ClientReply.RepeatCountsTwice`); of the replies standing and the last one there are 2f+1 different
  servers' if and only if the last one had none standing (`ClientReply.DoneHasQuorum`).
* *Sortition ends.* For a hash below the chance of drawing nothing no `j` meets the exit test and
  the loop runs for ever; otherwise it ends (`Sortition.SearchEnds`).
* *The stable checkpoint never falls.* It is kept in 32 bits; past them it does fall
  (`Checkpoint.WrapFalls`, `Checkpoint.AdvanceKeepsOrder`).
* *New-view numbers are in range.* Only when the checkpoint ends a batch; at the initial value 0
  the first number is -1 (`ViewChange.PosInRange`).
* *The batch handlers find their manager free.* They assert it, and a worker holding it for
  an early vote makes the assertion fail (`Locking.AbortsExactlyWhen`, `Locking.BatchMeetsVote`).
* *Fixed Algorand fields survive the wire.* Exactly those of their declared length do; a short one is
  filled up with the byte copied last (`Wire.FieldSurvives`).

## Model

| member | source | states |
|---|---|---|
| Replica.Replica.constructor | Algorand/system/main.cpp:275-310 | a new replica has every slot tagged UINT64_MAX, next index 0 and the gate at B-3 |
| Replica.Replica.Prepared | Algorand/system/worker_thread.cpp:1619-1757 | the scan of a prepare slot answers yes exactly with 2f entries of the id, one common range and all of that range stored; it aborts on a differing range, on a missing pre-prepare and, at the primary, on a missing query; yes marks the manager and nothing else changes |
| Replica.Replica.ReferencePrepare | Algorand/system/worker_thread.cpp:1850-1856 | the prepare that commits are compared with is the first of the slot with the index, or the last looked at |
| Replica.Replica.CountCommits | Algorand/system/worker_thread.cpp:1858-1887 | counts the commits with the reference's index, and fails exactly when one of them differs in range, digest or view |
| Replica.Replica.CommittedLocal | Algorand/system/worker_thread.cpp:1835-1901 | committed_local is the verdict on 2f+1 agreeing stored commits of a prepared manager, and marks the manager committed |
| Replica.Replica.EnqueueIfCommitted | Algorand/system/worker_thread.cpp:1786-1829 | queues the EXECUTE built from the id before the last one exactly when committed_local says yes |
| Replica.Replica.AddAndValidate | Algorand/transport/message.cpp:2398-2488 | checks hashes and view, refuses a duplicate entry, and writes each entry to both stores in order |
| Replica.Replica.HandleBatch | Algorand/system/worker_thread.cpp:975-1163 | the batch handler at a backup equals install, own prepare, then catching up on votes that came first |
| Replica.Replica.HandlePrep | Algorand/system/worker_thread.cpp:1540-1614 | the prepare handler stores the vote, counts down, and runs prepared only when the counter meets 0 |
| Replica.Replica.HandleCommit | Algorand/system/worker_thread.cpp:1761-1829 | the commit handler stores the vote, counts down, and runs committed_local only when the counter meets 0 |
| Replica.Replica.HandleExecute | Algorand/system/worker_thread.cpp:1279-1462 | executes the whole range and one more, each being the next index, then sends its checkpoint or releases managers, as `ProcessExecute` does |
| CheckpointRuns.CheckpointsAreDue | Algorand/transport/message.cpp:2878-2888 | over every run each checkpoint message a correct node has sent is its own, has index + 5 a common multiple of B and the interval up to the next index, and begins one interval earlier |
| CheckpointRuns.OneCheckpointEach | Algorand/system/worker_thread.cpp:1413-1415 | and exactly one has been sent for each such multiple among the batches executed |
| CheckpointRuns.ReceivedInOrder | Algorand/transport/message.cpp:2944-2978 | taken in the order sent they are votes the checkpoint log of any other node counts on |
| Tables.PreparedByColumns | Algorand/system/worker_thread.cpp:1619-1757 | for slots of any contents: what decides prepared, in order, is a query of the first range that is missing, a pre-prepare that is missing, another range among the first 2f columns with the id, and the number of those columns |
| Tables.CommittedByColumns | Algorand/system/worker_thread.cpp:1835-1901 | for slots of any contents: committed_local fails exactly when a commit with the index of the prepare compared with differs from it in digest, view or end, and otherwise says yes exactly with 2f+1 of them |
| Tables.ReleasedExactly | Algorand/system/worker_thread.cpp:1434-1447 | an execution releases managers only after the first batch, when no checkpoint is due and the commit counter is f-1, and then those of ids 0 to B-6 |
| Tables.OwnVotesCount | Algorand/system/txn.cpp:571-626 | own votes count down in the view-change setting only, the commit only while the counter is above 0 |
| Tables.OtherView | Algorand/transport/message.cpp:3219-3240 | a vote of another view fails in the shipped setting and changes nothing in the view-change setting |
| Tables.ExecutedBatch | Algorand/system/worker_thread.cpp:1557-1562 | a vote for an executed batch is only stored in the view-change setting and counts down in the shipped one |
| Tables.StopsOnPurpose | Algorand/system/worker_thread.cpp:1786-1806 | in the view-change setting node 0, and no other, stops when it would commit a batch past the first checkpoint |
| Replica.Replica.NumberRequests | Algorand/system/worker_thread.cpp:657-735 | numbers a client batch consecutively and stores queries, managers and the set's first id |
| Replica.Replica.CopyFromTxn | Algorand/transport/message.cpp:2123-2253 | rebuilds exactly the numbered batch from the query store and fills the pre-prepare store; no entry is ever missing |
| Replica.Replica.HandleClientBatch | Algorand/system/worker_thread.cpp:596-795 | the primary's handler never fails and queues its numbered batch |
| Preserve.HandleInv | Algorand/system/worker_thread.cpp:975-1901 | every handler keeps the replica invariant, whatever message comes next: stored entries are of accepted batches, own votes carry the accepted last digest, each batch is queued at most once and only when accepted, and the log is the accepted requests in order |
| Preserve.OwnVoteCast | Algorand/system/txn.cpp:553-647 | the prepare and the commit a node sends for an accepted batch carry its last digest, range and view |
| Preserve.PreparedMeansAccepted | Algorand/system/worker_thread.cpp:1619-1757 | prepared says yes only for a batch the node has accepted |
| Preserve.TryExecuteInv | Algorand/system/worker_thread.cpp:1786-1829 | queueing an execution once keeps the invariant, given the counter has run out and nothing was queued |
| Preserve.RunExecInv | Algorand/system/worker_thread.cpp:1314-1378 | an execution advances the next index by exactly one batch and keeps log and batches in step |
| Quorum.CorrectInBoth | Algorand/system/global.cpp:177 | any two sets of 2f+1 among 3f+1 nodes share a node that is not faulty |
| Agreement.HandleGood | Algorand/system/worker_thread.cpp:975-1901 | a correct node's step keeps: a prepared node still holds its own commit, and each queued batch has 2f+1 nodes behind it whose correct members all sent a commit with the accepted last digest |
| Agreement.RunGoodAlways | Algorand/system/worker_thread.cpp:1835-1901 | that holds of every correct node over every run with at most f faulty nodes |
| Agreement.Agreement | Algorand/system/worker_thread.cpp:1835-1901 | over every run with at most f faulty nodes, the primary possibly one of them, two correct nodes that queue one batch accepted it with the same last digest |
| LogSafety.RunInvAlways | Algorand/system/worker_thread.cpp:975-1901 | the replica invariant holds of every correct node over every run, however many nodes are faulty |
| LogSafety.QueuedAtMostOnce | Algorand/system/worker_thread.cpp:1103-1163 | over every run a node queues one batch's EXECUTE at most once, by either route, and only if it accepted the batch |
| LogSafety.FollowsAlways | Algorand/system/worker_thread.cpp:1210-1269 | with a correct primary every batch a correct node accepted is the primary's own of that index |
| LogSafety.LogFollowsPrimary | Algorand/system/worker_thread.cpp:1314-1378 | with a correct primary a correct node's log is the concatenation of the primary's batches below its next index |
| LogSafety.LogsComparable | Algorand/system/worker_thread.cpp:1314-1378 | so of two correct nodes' logs one is a prefix of the other |
| Delivery.PreparedLive | Algorand/system/worker_thread.cpp:1619-1757 | on a live accepted batch prepared fails no assertion and says yes exactly when remote prepares and the own one make 2f |
| Delivery.PreparedWithoutBatch | Algorand/system/worker_thread.cpp:1619-1757 | without the batch prepared says no, but at the primary a stored prepare of it makes an assertion fail |
| Delivery.CommittedLive | Algorand/system/worker_thread.cpp:1835-1901 | on a live prepared batch committed_local fails an assertion if and only if some stored commit of the batch differs in digest, view or range from the first stored prepare of it, and otherwise says yes exactly with 2f remote commits and the own one |
| Delivery.ExecOrAbort | Algorand/system/worker_thread.cpp:1786-1829 | so, with 2f prepares and 2f+1 remote commits, the tail of the commit handler fails exactly on such a clash and queues the batch otherwise |
| Delivery.CatchUpStep | Algorand/system/worker_thread.cpp:1103-1163 | the tail of the batch handler fails exactly when both quorums came first and a commit clashes, the own one counted; otherwise the node is prepared and committed by what it has heard |
| Delivery.PrepFine | Algorand/system/worker_thread.cpp:1540-1614 | whatever the vote, the prepare handler fails if and only if it is of another view, or the 2f-th the primary hears of a batch it has not made; otherwise counters, rows and flags stay equal to what was heard |
| Delivery.CommitFine | Algorand/system/worker_thread.cpp:1761-1829 | the commit handler fails if and only if the vote is of another view, or is the (2f+1)-th of a prepared batch and some commit clashes; otherwise likewise |
| Delivery.BatchFine | Algorand/system/worker_thread.cpp:975-1163 | the batch handler fails if and only if hashes or view are wrong, or both quorums came first and a commit clashes; otherwise likewise |
| Delivery.RunFine | Algorand/system/worker_thread.cpp:1279-1462 | execution fails if and only if the index is not the next; otherwise likewise, and releasing managers touches none that ends a batch |
| DeliveryRuns.AlwaysFine | Algorand/system/worker_thread.cpp:975-1901 | over every run, as long as no assertion has failed, counters, rows and flags are what was heard makes them |
| DeliveryRuns.FailsExactlyWhen | Algorand/system/worker_thread.cpp:1835-1901 | after every run, the next delivery fails an assertion if and only if it is fatal, which the vote stores and the senders heard decide before it is handled |
| DeliveryRuns.RunsInOrderOnly | Algorand/system/worker_thread.cpp:1314-1378 | after every run, an EXECUTE the node has queued fails its assertion if and only if its index is not the next |
| DeliveryRuns.ExecutedExactlyWhen | Algorand/system/worker_thread.cpp:1103-1163 | over every run that has not failed the counters are 2f and 2f+1 less the remote senders heard, negative counts included, and a batch has been queued once if batch, 2f prepares and 2f+1 commits are there and it was never overtaken, otherwise not at all |
| DeliveryRuns.CountersCountSlots | Algorand/system/txn.cpp:288-291 | for a live batch the counters are the quorum sizes less the remote columns of its slot that carry its id |
| DeliveryRuns.OvertakenStaysStuck | Algorand/system/worker_thread.cpp:1599-1614 | a batch whose commits came before its prepares is never queued, whatever follows |
| DeliveryRuns.NoStuckBatch | Algorand/system/worker_thread.cpp:1599-1614 | if each sender's prepare precedes its commit, batch, 2f prepares and 2f+1 commits suffice and the batch is queued exactly once |
| DeliveryRuns.SilentStall | Algorand/system/txn.cpp:622-626 | a node that hears no commit of f others never queues the batch, since its own commit is not counted |
| DeliveryRuns.AllExecute | Algorand/system/worker_thread.cpp:1103-1163 | with fewer than f silent nodes, once the others have the batch and all each other has sent about it, every one of them has queued it exactly once |
| DeliveryCases.OneDigestNoClash | Algorand/system/worker_thread.cpp:1858-1887 | if all votes for a batch carry its digest and the view, no stored commit clashes with the first stored prepare |
| DeliveryCases.HonestNeverFails | Algorand/system/worker_thread.cpp:975-1901 | over every run of honest votes and batches, in any order of arrival, with executions in order, no assertion fails |
| DeliveryExamples.CommitsFirstStrand | Algorand/system/worker_thread.cpp:1599-1614 | a concrete order of arrival in which everything arrives and nothing is executed |
| DeliveryExamples.BadCommitStops | Algorand/system/worker_thread.cpp:1870-1882 | after the batch, both prepares and two commits, one commit with another digest stops a backup of four |
| DeliveryExamples.BadPrepareStops | Algorand/system/worker_thread.cpp:1850-1856 | after one prepare with another digest in column 1, the third commit stops backup 2 although all commits agree with the batch |
| DeliveryExamples.OutOfOrderStops | Algorand/system/worker_thread.cpp:1323-1327 | a run in which the second batch's quorum completes first: both are queued, running the second one first fails, running the first one does not |
| Contents.HandleContents | Algorand/system/worker_thread.cpp:975-1901 | after any event each stored vote is an old one, the one delivered or the own one that was sent, and each commit sent is for a batch with 2f stored prepares |
| LogAgreement.ComparableExactlyWhen | Algorand/transport/message.cpp:3078-3104 | over every run with at most f faulty nodes two correct nodes' executed texts are comparable if and only if their batches have equal hashes before the last, below both next indices; the whole logs, if and only if the clients to answer are equal too |
| LogAgreement.SameLastRequests | Algorand/transport/message.cpp:3078-3104 | over every such run two correct nodes execute the same text at the end of every batch, whatever the primary sent |
| Equivocation.SameVotesDifferentLogs | Algorand/transport/message.cpp:3078-3104 | one run of four nodes in which only the primary is faulty: backups 1 and 2 execute two batches that end alike, and their logs part company at the first request |
| OrderedBroadcast.AnnouncedInOrder | Algorand/system/worker_thread.cpp:516-525 | over every run, in any order of dequeuing and with any repetition, the i-th batch announced has the number of batch i and the gate waits for the next |
| OrderedBroadcast.AnnouncedContents | Algorand/transport/message.cpp:2123-2253 | with a correct primary it is built from the i-th set of requests handed to it in the run: txn_id iB+B-3, its view, and at each place the id, the request and its hash |
| OrderedBroadcast.EachIsQueued | Algorand/system/worker_thread.cpp:596-795 | over every run each batch a correct primary has made stands in its own queue for the gate |
| SecondBatch.TakenExactlyWhen | Algorand/transport/message.cpp:2435-2488 | a second batch for an index whose entries are still stored is taken if and only if its hashes and view fit and each hash differs from the one held |
| SecondBatch.SecondBatchBreaks | Algorand/transport/message.cpp:2435-2488 | taking it leaves a state no set of accepted batches explains |
| SecondBatch.TwoBatchRun | Algorand/transport/message.cpp:2398-2488 | a new backup handles two such batches in a row without a failure, and would then run the requests of both |
| OrderedBroadcast.Gate.Drain | Algorand/system/worker_thread.cpp:516-525 | a FIFO queue holding batches 0..m-1 in any order empties by rotation, and they leave in order |
| OrderedBroadcast.TurnDrains | Algorand/system/worker_thread.cpp:516-525 | each turn brings the expected batch nearer to the head or sends it |
| Locking.StepKeeps | Algorand/system/worker_thread.cpp:490-535 | every worker step keeps: each taken manager has exactly one holder, and the batch of the primary being handled is the one the gate expects |
| Locking.StepConserves | Algorand/system/worker_thread.cpp:490-525 | no step loses or doubles a message, a failed lock or a batch before its turn puts it back, and only a finishing handler adds messages |
| Locking.GateMovesInTurn | Algorand/system/worker_thread.cpp:516-525 | the gate moves only when the batch it expected is done, and then by one batch |
| Locking.RunsKeepOrder | Algorand/system/worker_thread.cpp:463-535 | both hold over every run from rest |
| Locking.WaitersHoldOther | Algorand/system/worker_thread.cpp:1366-1373 | the manager an execute waits for is never held by a worker that waits |
| Locking.ExecuteWaited | Algorand/system/worker_thread.cpp:1366-1373 | over every run from rest, a worker that finishes the execute of batch k has, since it took that up, got the manager of k at a moment when no worker held it |
| Locking.NoDeadlock | Algorand/system/worker_thread.cpp:1366-1373 | while some worker is busy some worker can take a step that changes who holds what |
| Locking.StepProgress | Algorand/system/worker_thread.cpp:463-535 | each such step uses up a finite amount of work, and any other leaves all workers and locks as they were |
| Locking.AbortsExactlyWhen | Algorand/system/worker_thread.cpp:1049-1054 | a step fails exactly when a batch handler, at the primary one whose turn has come, insists on a manager some worker holds |
| Locking.BatchMeetsVote | Algorand/system/worker_thread.cpp:1049-1054 | two workers, one with a vote of a batch and one with the batch, reach that failure |
| RingStore.Store.constructor | Algorand/system/main.cpp:275-310 | an empty store answers for the empty log |
| RingStore.Store.Put | Algorand/transport/message.cpp:2435-2488 | a write at id % ring adds exactly that key to the log, if the id is in the live window |
| RingStore.Store.Get | Algorand/system/worker_thread.cpp:1686-1743 | a tag-checked read never returns another id's value, and for ids not below the window answers exactly as the log does |
| RingStore.Store.Peek | Algorand/transport/message.cpp:2152-2176 | a read without tag check is right for a live id in the log |
| RingStore.Store.CountTagged | Algorand/system/worker_thread.cpp:1686-1743 | the number of columns with an id is the number of senders the log has for it |
| RingStore.FoundExactlyWhen | Algorand/system/global.cpp:176 | without any window, an id put in is found exactly when no other id of its slot came after its last put |
| Checkpoint.Log.AddAndValidate | Algorand/transport/message.cpp:2944-2978 | the backward count, the refusal of copies and the 2f test, and no other effect than the one entry added |
| Checkpoint.Log.Handle | Algorand/system/worker_thread.cpp:1471-1503 | on success the stable checkpoint becomes index+4 in 32 bits and exactly the votes below it are erased |
| Checkpoint.MatchingPlaces | Algorand/transport/message.cpp:2957-2967 | what is counted are the places of the log with the same index and the same beginning |
| Checkpoint.PassedOver | Algorand/transport/message.cpp:2950-2953 | a vote for the index the stable checkpoint bears changes nothing, any other is logged or moves it |
| Checkpoint.LateVotes | Algorand/transport/message.cpp:2944-2978 | votes for an index below the stable checkpoint that re-enter the log never reach 2f again, however often they are repeated |
| Checkpoint.StableIsHighestBacked | Algorand/system/worker_thread.cpp:1471-1503 | over every run the stable checkpoint is the highest index, plus 4, with votes of 2f distinct remote nodes, or 0 |
| Checkpoint.StableNeverFalls | Algorand/system/worker_thread.cpp:1471-1503 | over every run it never decreases while indices fit in 32 bits |
| Checkpoint.AdvanceKeepsOrder | Algorand/system/global.cpp:179 | one advance by less than 2^32 keeps the order if and only if index+4 fits in 32 bits |
| Checkpoint.WrapFalls | Algorand/system/global.cpp:179 | two checkpoints in a row at interval 600 take it from 4294966799 to 103 |
| ClientReply.Client.Check | Algorand/transport/message.cpp:1098-1144 | validate counts equal replies, aborts on a differing one, stores its own, and wipes the slot at 2f+1, as `Validate` does |
| ClientReply.AnswersExactly | Algorand/transport/message.cpp:1098-1144 | over every run of replies with any bodies, senders and order: validate fails if and only if some reply of that id still standing in its column has another body, and is true if and only if none has and the replies of 2f servers stand |
| ClientReply.DoneHasQuorum | Algorand/transport/message.cpp:1124-1135 | a batch reported done has 2f+1 distinct servers behind it that sent that very reply if the last one had none standing; of those standing and the last one there are 2f+1 if and only if that is so |
| ClientReply.RepeatCountsTwice | Algorand/transport/message.cpp:1124-1135 | with f = 1 two servers are enough if one of them answers twice |
| ClientReply.AcceptsAtQuorum | Algorand/transport/message.cpp:1098-1144 | for every order of arrival validate fails no assertion and is true exactly for the (2f+1)-th server's reply |
| ClientReply.AcceptsOnce | Algorand/transport/message.cpp:1098-1144 | hence for at most one reply of a batch, although the slot was wiped |
| ClientReply.AcceptsEventually | Algorand/transport/message.cpp:1098-1144 | and for one, once 2f+1 servers have answered |
| ClientReply.OwnAfter | Algorand/transport/message.cpp:1098-1144 | the count in the slot reaches 2f+1 exactly with the (2f+1)-th replier, and the wiped slot shows late repliers only |
| ViewChange.ViewChangeMsg.Init | Algorand/transport/message.cpp:3506-3665 | the report is the scan from the slot after the checkpoint round to its own, and fails exactly when a stored prepare of a live batch disagrees with it |
| ViewChange.ReportIsSortedAndComplete | Algorand/transport/message.cpp:3542-3659 | it lists in ascending order, each once, exactly the stored batches above the checkpoint with 2f prepares |
| ViewChange.ReportExactly | Algorand/transport/message.cpp:3542-3659 | it holds a batch if and only if that is stored, above the checkpoint, and 2f columns of its slot carry its last index, and a prepare if and only if it is one of those |
| ViewChange.ReportFailsExactlyWhen | Algorand/transport/message.cpp:3555-3556 | it fails if and only if a stored prepare of a stored batch above the checkpoint differs from it in view or hash |
| ViewChange.SameIndices | Algorand/transport/message.cpp:4210-4250 | batches and prepares of a report cover the same last indices, so both sides compute one highest index |
| ViewChange.HeldIsReported | Algorand/transport/message.cpp:3542-3659 | a batch above the checkpoint that is in its slot with 2f prepares is in the report |
| ViewChangeRuns.AlwaysKept | Algorand/system/txn.cpp:553-647 | over every run each stored prepare was sent by its column's node, and for each commit a node sent 2f columns still hold prepares of that batch or of later ones of its slot |
| ViewChangeRuns.AlwaysBreqs | Algorand/transport/message.cpp:2424-2432 | over every run the slot of an accepted batch holds it or a later accepted one |
| ViewChangeRuns.ReportsNeverFail | Algorand/transport/message.cpp:3542-3659 | over every run no report fails an assertion: every stored prepare of a stored batch agrees with it |
| ViewChangeRuns.CommittedSurvives | Algorand/transport/message.cpp:3844-3866 | over every run, a batch queued for execution at some node, above the checkpoint, is reported with its digest by one of any 2f nodes other than the old primary whose slots for it no later batch has taken |
| ViewChangeRuns.SurvivesUntilLapped | Algorand/transport/message.cpp:3844-3866 | and no slot has been taken as long as the primary has not made the batch one ring later |
| ViewChange.PosIsBijection | Algorand/transport/message.cpp:4023-4053 | if the checkpoint ends a batch, pos maps the batches in (min_s, max_s] one to one onto the array |
| ViewChange.PosInRange | Algorand/transport/message.cpp:4023-4053 | all positions are in range if and only if the checkpoint ends a batch |
| ViewChange.Choose | Algorand/transport/message.cpp:4043-4071 | the nested loops keep, for each position, the first item of the greatest view (the last one in validate), and stop exactly at a position outside the array |
| ViewChange.KeepsFirst | Algorand/transport/message.cpp:4043-4071 | what the new primary keeps for a position is the first item of the greatest view |
| ViewChange.KeepsLast | Algorand/transport/message.cpp:4264-4297 | what a backup keeps is the last one |
| ViewChange.ChoicesAgree | Algorand/transport/message.cpp:4264-4297 | both scans choose items of equal index, view and hash, if equal index and view imply equal hash |
| ViewChange.AllFound | Algorand/transport/message.cpp:4066-4071 | no position stays empty if and only if every batch in (min_s, max_s] was reported |
| ViewChangeRuns.CommittedIsChosen | Algorand/transport/message.cpp:4043-4071 | hence both the new primary's choice from the reports of any 2f such nodes and the backups' check of it find, at the batch's number, that batch with the digest it was committed with |
| Sortition.NCr | Algorand/blockchain/Algorand.cpp:5-15 | the loop computes C(n,r) for r <= n, each division being exact, and 1 beyond n |
| Sortition.Absorption | Algorand/blockchain/Algorand.cpp:10-13 | i C(n,i) = n C(n-1,i-1), which makes each division exact |
| Sortition.Symmetry | Algorand/blockchain/Algorand.cpp:6-7 | C(n,r) = C(n,n-r), which justifies the switch at n/2 |
| Sortition.FactorialFormula | doc/Chen/sortition:21-33 | C(n,r) r! (n-r)! = n! |
| Sortition.BinaryDistribution | Algorand/blockchain/Algorand.cpp:17-19 | the chance of k of n, with its value beyond n as the code has it |
| Sortition.AlgorandSum | Algorand/blockchain/Algorand.cpp:21-27 | the accumulating loop is the distribution function |
| Sortition.BinomialTheorem | Algorand/blockchain/Algorand.cpp:17-27 | the chances of 0..n add up to 1 |
| Sortition.CdfGrows | Algorand/blockchain/Algorand.cpp:21-27 | the distribution function grows strictly, beyond w too |
| Sortition.Search | Algorand/blockchain/Algorand.cpp:96-98 | the loop stops at a j below w with CDF(j) <= h < CDF(j+1) exactly when the hash is not below the chance of none |
| Sortition.SearchEnds | Algorand/blockchain/Algorand.cpp:96-98 | a stopping j exists if and only if B(0) <= h, and it is the only one |
| Sortition.IntervalWidths | Algorand/blockchain/Algorand.cpp:96-98 | j is answered on an interval as wide as the chance of drawing j+1, and the intervals fill [B(0), 1) |
| Algorand.Member.GetKey | Algorand/blockchain/Algorand.cpp:29-38 | registers a key of nodes 0..3 with weight 100 and adds 100 to the total |
| Algorand.LastKeyKept | Algorand/blockchain/Algorand.cpp:29-38 | the last key registered for one of nodes 0..3 is kept for it, with weight 100 |
| Algorand.OthersPassedOver | Algorand/blockchain/Algorand.cpp:29-38 | keys of further nodes change nothing, and the total grows by 100 for each of the others |
| Algorand.StartsAlike | Algorand/blockchain/Algorand.cpp:41-57 | members start on one seed of 20 characters with their own key under their own node and total 100 |
| Algorand.Member.DrawLots | Algorand/blockchain/Algorand.cpp:59-119 | sortition sets the block, signs the seed, and records its own weight if the search ends |
| Algorand.DrawnIsOwn | Algorand/blockchain/Algorand.cpp:100-118 | the package bears the drawer's seed, node, public key and the value asked for, its proof is accepted by any member with that seed, and its votes are where the search stops on the proof's hash |
| Algorand.FractionOrder | Algorand/blockchain/Algorand.cpp:85-86 | hashes are ordered by their first two bytes, the first one weighing more |
| Algorand.FractionStep | Algorand/blockchain/Algorand.cpp:85-86 | from 0 for two zero bytes, each next pair is 1/65536 more |
| Algorand.Member.Verify | Algorand/blockchain/Algorand.cpp:122-155 | verify rejects a bad proof, else answers the votes of the recorded weight, giving an unknown key weight 0 in passing |
| Algorand.Member.CountVotes | Algorand/blockchain/Algorand.cpp:158-180 | refuses a second vote of a key, else adds and compares with the goal |
| Algorand.AnswersExactly | Algorand/blockchain/Algorand.cpp:158-180 | over any calls since a reset, a call is answered -1 if and only if its key has voted before, 1 if and only if it has not and the first votes for its value, this one included, reach the goal, and 0 otherwise |
| Algorand.Member.Reset | Algorand/blockchain/Algorand.cpp:182-189 | clears the tally and copies the block's first characters into the seed |
| Algorand.ResetStartsOver | Algorand/blockchain/Algorand.cpp:182-189 | after a reset votes are counted alone and every key may vote again |
| Algorand.RoundsAgree | Algorand/blockchain/Algorand.cpp:122-189 | members resetting on the same values hold the same seed in every round, and one then verifies exactly the votes another draws |
| Algorand.CheckedBelowWeight | Algorand/blockchain/Algorand.cpp:122-155 | an answer is below the recorded weight, rejection is the random function's alone, and no answer comes exactly below the chance of none |
| Algorand.TotalIsWalletSum | Algorand/blockchain/Algorand.cpp:29-38 | once the others' distinct keys are in and lots were drawn, the total is the sum of recorded weights |
| Algorand.CountsAreFirstVotes | Algorand/blockchain/Algorand.cpp:158-180 | after any calls a value's count is the sum over keys whose first vote was for it |
| Algorand.CountedAre | Algorand/blockchain/Algorand.cpp:163-167 | a key is refused exactly when it has voted before |
| Algorand.CountsAddUp | Algorand/blockchain/Algorand.cpp:158-180 | all counts together are the total of first votes |
| Algorand.OrderDoesNotMatter | Algorand/blockchain/Algorand.cpp:158-180 | when each key votes once the order of arrival is irrelevant |
| Algorand.OneWinner | Algorand/blockchain/Algorand.cpp:158-180 | with non-negative votes totalling less than twice the goal, at most one value is ever answered 1 |
| Wire.SizeIsLength | Algorand/transport/message.cpp:236-270 | get_size is the number of bytes written, for every well-formed message |
| Wire.FieldSurvives | Algorand/transport/message.cpp:417-452 | a fixed field comes through unchanged if and only if it has its declared length |
| Wire.PutPadded | Algorand/transport/message.cpp:419-424 | writes a field of fixed width at its place and goes on holding the byte written last |
| Wire.PaddedAt | Algorand/transport/message.cpp:419-424 | byte by byte: the field, then its last byte over and over; an empty field is filled with the byte copied before it |
| WireLayout.HeaderNumbers | Algorand/transport/message.cpp:378-405 | the type is 4 bytes at 0, the eleven numbers follow at 4, 12, ..., 84 |
| WireLayout.HeaderFields | Algorand/transport/message.cpp:406-452 | signature, key, seed, hash, proof, value, j, node, public key and kind follow in this order at these distances |
| WireLayout.BodyFields | Algorand/transport/message.cpp:3136-3163 | what follows the common part stands field after field, kind by kind |
| WireLayout.EntryPlaces | Algorand/transport/message.cpp:2321-2361 | so does an entry of a batch |
| WireLayout.LeAt | Algorand/transport/message.cpp:378-405 | byte i of a number is its i-th lowest |
| Wire.PutHeader | Algorand/transport/message.cpp:378-458 | the common part is written at its place and nothing outside is touched |
| Wire.PutQuery | Algorand/transport/message.cpp:803-826 | so is a client query |
| Wire.PutBatchReq | Algorand/transport/message.cpp:2321-2361 | so is a batch with its nested queries |
| Wire.PutMessage | Algorand/transport/message.cpp:1821-1834 | so is every kind of message, and exactly get_size bytes change |
| Wire.GetHeader | Algorand/transport/message.cpp:305-376 | parsing the common part gives it back with the network time recomputed |
| Wire.HeaderArrives | Algorand/transport/message.cpp:305-322 | the network time is worked out from the two times that came, and all the rest comes through as far as fields have full length |
| Wire.GetQuery | Algorand/transport/message.cpp:779-801 | parsing a client query gives it back and ends where it ended |
| Wire.GetQueries | Algorand/transport/message.cpp:1804-1819 | parsing nested queries one after another gives them all back |
| Wire.GetBatchReq | Algorand/transport/message.cpp:2270-2319 | parsing a batch gives back entries, hashes and nested queries |
| Wire.GetVote | Algorand/transport/message.cpp:3111-3134 | parsing a prepare, commit or execute gives it back, with its own width of the batch size |
| Wire.CreateMessage | Algorand/transport/message.cpp:56-63 | reading the type first, whatever follows in the buffer, the same message is parsed and get_size of it is what it took |
| Wire.OnlyTimesChange | Algorand/transport/message.cpp:318-322 | only the network times differ on arrival if and only if every fixed field has its declared length |
| Wire.RoundTrip | Algorand/transport/message.cpp:305-458 | what is put at one place of a buffer is read back there, apart from network times |
| Wire.CreateMessages | Algorand/transport/message.cpp:32-54 | a packet of any list of messages yields that list and its sender |

## Left out

- DeliveryRuns.ExecutedExactlyWhen: a sender that repeats a vote for one batch is not among the deliveries; repeats are covered by Preserve, Agreement and LogSafety.
- The `Delivery` modules: the shipped setting only; with view changes on, own votes count down and the thresholds shift by one.
- Agreement.Agreement: says nothing of requests before a batch's last one, because the code's digest does not (see LogAgreement.ComparableExactlyWhen).
- The loops that send one message to every other node are one queued message in the model.
- A node's own EXECUTE and BATCH_REQ messages are kept in its outgoing list; taking one out is the event that runs it.
- `preStore` entries start with index UINT64_MAX in the model; the program leaves that field unset and sets only the transaction id.
- The Algorand vote in the prepare and batch handlers reaches only a log line, so it is not part of the replication model; neither is the worker that hangs when sortition's search does not end.
- `Algorand::execute` is unfinished in the source and does not compile as written; weights stay fixed.
- Floating-point rounding: chances are exact reals, with a threshold between 0 and the total.
- Signatures, key exchange, RSA and SHA-1 code, transport, queue internals, statistics, memory pools and timers.
- The DBFT, RBFT, ZYZZYVA, LOCAL_FAULT and unbatched variants, which the shipped configuration compiles out.
- The request record `ycsb_request` is not part of this model beyond a block of bytes of fixed size with a key check.
- Signed 32-bit Algorand fields (`j`, `node_id`) are unsigned bit patterns on the wire, and doubles are 64-bit patterns.
- Wire.PutHeader: the clock reading that replaces the network time is taken to be stored in the message before it is copied.
- Wire.CreateMessages: a packet's count and addresses are given; building packets in the sender's buffers is not modelled.
- Serialization of INIT_DONE, KEYEX, READY, view-change and new-view messages, which adds no further form.
- New-view re-creation of a batch from the new primary's own store: the item chosen stands for the message created.
- ViewChangeRuns.CommittedSurvives: nodes may stop but do not lie, so reports and commits are honest; that 2f reports of distinct nodes have come is a hypothesis, which the program asserts of the senders, and so is one stable checkpoint for all of them.
- In the view-change setting node 0 stops on purpose after a while; that is modelled as a failed assertion. Votes of another view, which the program keeps for later, are dropped.
- Locking: releasing a manager back to its pool is not modelled, and a handler's own work is one step.
- Integer widths: ids and counters are unbounded, except where wrap-around is reachable and stated (the stable checkpoint, `pos`, `index + 1 - batch`, fields on the wire).
