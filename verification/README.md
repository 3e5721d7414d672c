# KVPaxos scheduler: model and proofs

KVPaxos executes one totally ordered stream of requests on several workers. A scheduling thread turns
the stream into per-worker FIFO queues and puts barriers around requests whose keys belong to several
partitions; a graph thread follows the same stream and keeps the co-access graph of a sliding window;
a partitioner turns that graph into a new map from keys to workers, which replaces the old one while
requests keep flowing. This project models that machinery in Dafny and proves that it is correct in
every interleaving.

`dafny verify dfyconfig.toml` checks the whole project.

## The parts

| file | what it is about |
|---|---|
| `Requests.dfy`, `Sets.dfy` | messages and the keys they name; facts about collections and counting |
| `Plan.dfy` | the log of messages the scheduler creates, and why conflicting requests are chained in it |
| `Machine.dfy` | scheduler, queues (unbounded or bounded), workers, barriers and map replacement as one transition system |
| `Invariant.dfy` | what every step of it keeps |
| `Order.dfy` | conflicting requests run in submission order and never overlap |
| `Routing.dfy`, `Capacity.dfy` | the round-robin counter and replaced maps over whole runs; bounded queues |
| `Liveness.dfy` | deadlock freedom, a bound on the length of every run, nothing lost, barriers freed once |
| `Equivalence.dfy` | parallel execution gives the sequential store and answers |
| `Replay.dfy`, `Uniform.dfy`, `StrayScan.dfy` | exactly which scans are answered in sequence, on the source's store of equal values too |
| `Completion.dfy` | every run can be completed; exactly when no read ever misses |
| `Scheduler.dfy`, `Worker.dfy` | the code of the scheduling thread and of a worker, method by method, against the transition system |
| `Graph.dfy`, `Window.dfy` | the graph and its lazy removal; the graph thread with `update_graph` and `expire` |
| `Csr.dfy` | the export to compressed rows, the round trip, and the key map built from the partitioner's answer |
| `HandOff.dfy`, `HandOffRuns.dfy` | the asynchronous hand-off between three threads, for the free, non-stop, async and imbalance schedulers; repartitions do happen |
| `Queue.dfy`, `HandshakeRuns.dfy` | the two-headed queue and the stop-the-world handshake; handshakes do happen |
| `LinkedQueue.dfy`, `Reclamation.dfy` | the linked queue with memory reclamation, one pointer access per step; exactly when nodes are deleted and how far the heads get apart |
| `Imbalance.dfy` | the imbalance detector |

Threads are interleaved in sequentially consistent atomic steps; a semaphore or a barrier is a guard of
a step. The partitioner is any function that gives every key a partition in range, and a map
replacement may install any such map. The moment of a repartition is a free choice, so the results hold
for both interval types. Code that updates fields is a class whose methods are proved against functions
of the old fields; the transition systems and the lemmas use the same functions.

The main results hold for every stream, every number of workers, every queue capacity and every run.
Four things one would expect of the code hold only on a condition, which is proved exactly:

* Store, Read and Write answers are the sequential ones in every run of every stream. The answer of a
  scan is, in every run of every stream over the populated keys 0..n-1, if and only if the scan ends
  inside them (`ScanCondition`): otherwise a pending insertion, which the scan does not wait for, changes
  the size of the store and with it which keys the scan reads. This is so on the store the source has,
  where all values are the same template. Inserting the scanned keys first does not help
  (`InsertedKeysDoNotHelp`); a stream that inserts nothing has sequential answers wherever it scans
  (`UpdatesAreSequential`).
* No read ever misses its key, which in the source would end the process, if and only if every READ names
  a key that was populated or is written earlier in the stream (`NoReadThrows`).
* The linked queue may leave nodes undeleted that both heads have passed, if and only if each head has a
  lead of at least one (`NodesMayStay`): then both can load a node's flag before either stores it.
* The constructor of the linked queue gives each head the lead meant for the other one
  (src/linked_queue/linked_queue.hpp:49-50). A head keeps within the lead meant for it in every run if and
  only if the lead it gets, or the stream, is no longer (`IntendedLeadHolds`).

## Model

| member | source | states |
|---|---|---|
| Plan.DispatchReachesOwners | src/scheduler/scheduler.hpp:203-216 | the message of a dispatched request is chained, through barriers, to every partition that owns one of its keys |
| Plan.DispatchContinues | src/scheduler/scheduler.hpp:203-216 | any earlier message chained to one of those partitions is chained to the new request |
| Plan.DispatchOrdered | src/scheduler/scheduler.hpp:203-216 | after a dispatch every earlier conflicting request is chained to the new one |
| Plan.DispatchAnchored | src/scheduler/scheduler.hpp:271-300 | after a dispatch every dispatched request is chained to the present owner of each of its keys |
| Plan.DispatchKeeps | src/scheduler/scheduler.hpp:203-216 | dispatching keeps the log sound: requests that share a key are chained in submission order, keys map into range |
| Plan.RemapKeeps | src/scheduler/scheduler.hpp:252-257 | replacing the whole key map by any other one keeps the log sound, because of the global barrier pushed after it |
| Plan.OwnersInRange | src/scheduler/scheduler.hpp:271-300 | mapping the new keys keeps old entries, maps every named key, and involves only existing partitions, at least one |
| Plan.OwnersAre | src/scheduler/scheduler.hpp:271-300 | a partition is involved in a request if and only if some key of the request has its entry there, or has none and the counter is there |
| Plan.AdvanceIs | src/scheduler/scheduler.hpp:271-300 | the counter moves by one if the request names a key without an entry and stays otherwise |
| Plan.RemappedOwners | src/scheduler/free_scheduler.hpp:131-137 | after a replacement a request whose keys the new map knows involves exactly the partitions the new map gives |
| Routing.CounterCountsNewKeys | src/scheduler/scheduler.hpp:271-300 | in every run, replacements included, the counter is where it started plus the number of requests that named a key without an entry, modulo the number of workers |
| Routing.CounterOverTheStream | src/scheduler/scheduler.hpp:271-300 | while the map is not replaced, exactly the keys populated or named so far have an entry, and the counter has moved once for every request that was the first to name one of its keys |
| Routing.RemapTakesEffect | src/scheduler/scheduler.hpp:252-257 | a replacement installs the given map, leaves the counter, and decides the owners of later requests on its keys |
| Routing.AnyMapCanTakeOver | src/scheduler/scheduler.hpp:252-257 | from every reachable state with a request to come, the run can be carried on until any given map in range has taken over |
| Invariant.StepKeeps | src/scheduler/partition.hpp:181-254 | every step keeps the queues in log order, the barrier counters equal to arrivals and departures, and the answers equal to the finished requests |
| Invariant.RunInv | src/scheduler/partition.hpp:181-254 | so all of this holds in every reachable state |
| Invariant.FifoBefore | src/scheduler/partition.hpp:93-120 | a worker that is at a message of the log has finished every earlier message meant for it |
| Invariant.GatesArrive | src/scheduler/partition.hpp:230-239 | an arrival keeps every barrier's counters right |
| Invariant.GatesLeave | src/scheduler/partition.hpp:230-239 | so does a departure, and a barrier is freed exactly when all its members have left |
| Order.ChainInOrder | src/scheduler/scheduler.hpp:203-216 | along a chain of messages the later one begins only after the earlier one is over |
| Order.ConflictsInOrder | src/scheduler/scheduler.hpp:203-216 | in every state of every run, with any number of map replacements: once a request has started, every earlier request sharing a key has finished |
| Order.NoOverlap | src/scheduler/partition.hpp:181-254 | two requests that share a key are never in progress at the same time |
| Liveness.PushMoves | src/scheduler/scheduler.hpp:316-323 | a scheduler blocked halfway through pushing a barrier copy into a full queue implies that some worker can move |
| Liveness.NeverStuck | src/scheduler/scheduler.hpp:203-216 | in every state with work left some step is possible, for unbounded queues and every capacity |
| Liveness.DeadlockFree | src/scheduler/partition.hpp:93-120 | in every reachable state: no step is possible if and only if all work is done and no replacement is pending |
| Capacity.QueuesStayWithin | src/scheduler/partition.hpp:93-120 | in every run no bounded queue holds more than its capacity |
| Capacity.PushesIffRoom | src/scheduler/partition.hpp:93-103 | with a message to push, the scheduling thread can go on if and only if the queue is unbounded or holds fewer than its capacity |
| Capacity.WaitsForRoom | src/scheduler/partition.hpp:93-103 | for every capacity there is a run in which it has to wait |
| Liveness.StepDecreases | src/scheduler/scheduler.hpp:203-216 | every step decreases a measure |
| Liveness.Terminates | src/scheduler/scheduler.hpp:203-216 | no run on a finite stream has more steps than a bound read off the configuration |
| Liveness.FreedOnce | src/scheduler/partition.hpp:230-239 | a barrier is freed only after exactly as many arrivals and departures as it was initialised for, and never returns |
| Liveness.NothingLost | src/scheduler/scheduler.hpp:126-133 | at the end every worker has processed exactly its messages in order, every barrier is freed, and the executed counters, in which a READ that misses counts too, add up to the length of the stream |
| Equivalence.ModuloIsIdentity | src/storage/storage.cpp:36 | on a store of n keys a scan reads the keys it names if and only if it ends inside the first n |
| Equivalence.AccessLocal | src/storage/storage.cpp:11-40 | on stores that agree on a request's keys, one access gives the same output and keeps them in agreement |
| Equivalence.RunTracks | src/scheduler/partition.hpp:193-228 | in every reachable state of every stream each key holds what the sequential execution would have left for the next request on it |
| Equivalence.AnswersAreSequential | src/scheduler/partition.hpp:193-228 | every answer given in any run is the answer of the sequential execution, unless it is the answer of a scan which itself leaves the populated keys |
| Equivalence.ParallelIsSequential | src/scheduler/scheduler.hpp:203-216 | a complete run of any stream leaves exactly the sequential store and answers every request, as the sequential execution does but for scans that leave the populated keys; for any meaning of a write that touches only its key |
| Equivalence.SequentialHolds | src/storage/storage.cpp:28-31 | the sequential store holds a key before a request if and only if it was populated or an earlier request writes it |
| Equivalence.NoAbsentKey | src/storage/storage.cpp:11-13 | whenever a worker reads for a READ, in any interleaving and across remappings, it finds the key if and only if it was populated or written earlier in the stream; a scan inside the populated keys never misses |
| Equivalence.ReadsFindTheirKey | src/scheduler/partition.hpp:193-197 | the answer of a READ is one value, present under exactly that condition |
| Equivalence.OthersEcho | src/scheduler/partition.hpp:202-245 | in every run a WRITE is answered with its argument, an ERROR with "ERROR", and any other request that reads nothing with the empty string |
| StrayScan.GrowthMatters | src/storage/storage.cpp:28-40 | for every scan beyond the populated keys there is a run, on a store where all values are the same, in which it is answered before pending insertions and otherwise than in sequence |
| StrayScan.AllOnOneWorker | src/scheduler/scheduler.hpp:333-338 | the key map of that run is one that populating leaves behind |
| StrayScan.ScanCondition | src/storage/storage.cpp:33-40 | a scan is answered sequentially in every run of every stream over the populated keys 0..n-1 if and only if it ends inside them, whether values may change or are all alike |
| StrayScan.InsertedKeysDoNotHelp | src/storage/storage.cpp:28-40 | a scan of a key that an earlier request inserted may still miss, while insertions of other keys are pending |
| Uniform.UpdatesAreSequential | src/storage/storage.cpp:28-40 | where all values are the same, a stream that writes only populated keys never changes the store, and every answer in every run is the sequential one, wherever its scans go |
| Completion.CanComplete | src/scheduler/partition.hpp:181-254 | from every reachable state the run can be carried on to the end of all work |
| Completion.NoReadThrows | src/scheduler/partition.hpp:193-197 | no run of a stream misses a READ if and only if every READ names a key populated or written earlier |
| Completion.NothingLostNorMissed | src/scheduler/scheduler.hpp:126-133 | if every READ does, a complete run has executed and counted every request exactly once, and every READ has its value |
| SchedulerThread.Scheduler.constructor | src/scheduler/scheduler.hpp:40-89 | a new scheduler has an empty map and log |
| SchedulerThread.Scheduler.MapKey | src/scheduler/scheduler.hpp:333-342 | a populated key is mapped round-robin unless it is mapped already; the counter moves in any case |
| SchedulerThread.Scheduler.InvolvedPartitions | src/scheduler/scheduler.hpp:271-300 | every key of the request gets an entry, new ones all at the counter's partition; the counter moves by one if there was a new key and stays otherwise; the result is the set of owners of all its keys |
| SchedulerThread.Scheduler.SyncPartitions | src/scheduler/scheduler.hpp:316-323 | every listed worker and no other gets one copy of the same barrier |
| SchedulerThread.Scheduler.SendItems | src/scheduler/scheduler.hpp:203-216 | a request involving several partitions goes between two barriers and is counted, any other is sent alone |
| SchedulerThread.Scheduler.Dispatch | src/scheduler/scheduler.hpp:203-216 | the code's dispatch is the transition system's: the queues receive exactly the log's messages, the log stays sound, and map and counter change as for InvolvedPartitions |
| SchedulerThread.Scheduler.ChangePartitionScheme | src/scheduler/free_scheduler.hpp:131-137 | the new map is the scheduler's map, the global barrier is sent, the counter stays, and the log stays sound |
| SchedulerThread.OwnersSplit | src/scheduler/scheduler.hpp:271-300 | the owners of a request are those of its mapped keys, and the round-robin partition if some key is new |
| WorkerThread.Template | src/storage/storage.cpp:7-8 | 4096 asterisks |
| WorkerThread.Storage.Read | src/storage/storage.cpp:11-26 | the stored value, or nothing for an absent key |
| WorkerThread.Storage.Write | src/storage/storage.cpp:28-31 | whatever the argument, the template is stored |
| WorkerThread.Storage.Scan | src/storage/storage.cpp:33-40 | exactly one value for each key, that at the key modulo the size of the store, or, exactly if one of them is missing, nothing |
| WorkerThread.Partition.Execute | src/scheduler/partition.hpp:181-254 | one pass of the worker loop does to the store what the transition system does step by step; a READ is answered with the stored value, a WRITE with its argument, a SCAN with the list of the values at its keys or, if one is missing, with "ERROR" and one error counted; a request is counted unless the exception of a READ ends the process |
| WorkerThread.ListedIs | src/scheduler/partition.hpp:221-223 | in the list every value stands in its place, in order, followed by a comma |
| WorkerThread.ScanAlone | src/storage/storage.cpp:33-40 | the values collected by a scan are the accesses of the transition system |
| CoAccess.DropPairGhost | src/graph/graph.hpp:55-72 | dropping a pair whose second vertex is gone removes the entry on the first side only, and the ghost row disappears again |
| CoAccess.DropPairBoth | src/graph/graph.hpp:55-72 | dropping a pair of existing vertices takes one unit off both entries, which disappear together at zero |
| CoAccess.DropPairShows | src/scheduler/scheduler.hpp:418-422 | dropping one unit of a pair keeps adjacency, edge counter and totals in step, also when a vertex is already gone |
| CoAccess.DropVerticeShows | src/scheduler/scheduler.hpp:423-424 | dropping one unit of a vertex keeps them in step, although edges of the vertex may remain |
| CoAccess.CountVerticeShows | src/scheduler/scheduler.hpp:400-401 | so does counting a vertex in |
| CoAccess.CountPairShows | src/scheduler/scheduler.hpp:403-407 | and counting a pair in |
| WorkloadGraph.Graph.AddVertice | src/graph/graph.hpp:33-38 | a new vertex has weight zero and an empty row; an existing one is left alone |
| WorkloadGraph.Graph.RemoveWeightlessVertice | src/graph/graph.hpp:45-50 | a vertex without weight is erased with its row, even if others still point to it |
| WorkloadGraph.Graph.RemoveWeightlessEdge | src/graph/graph.hpp:66-72 | an entry without weight is erased on both sides and counted off once |
| WorkloadGraph.Graph.DropPair | src/scheduler/scheduler.hpp:418-422 | the inner body of the expiring loops has the effect the lemmas are about |
| Window.GraphIsDetermined | src/scheduler/scheduler.hpp:393-428 | at most one graph, with its counters and totals, is the co-access graph of a window |
| Window.NothingWeightless | src/graph/graph.hpp:33-72 | at request boundaries adjacency is symmetric, joins existing vertices, and stores no zero weight |
| GraphThread.PairToDrop | src/scheduler/scheduler.hpp:411-428 | inside the loops the pair about to be dropped has a unit to lose, and exactly one if its second vertex is gone |
| GraphThread.Tracker.UpdateGraph | src/scheduler/scheduler.hpp:393-409 | the graph of a window becomes the graph of the window with one more message |
| GraphThread.Tracker.Expire | src/scheduler/scheduler.hpp:411-428 | expiring any message of the window, wherever it stands, leaves the graph of the other messages |
| GraphThread.Tracker.UpdateThenExpire | src/scheduler/scheduler.hpp:393-428 | expiring after updating gives back every field of the graph |
| GraphThread.Tracker.Process | src/scheduler/scheduler.hpp:379-388 | after every request the graph is the one built from scratch over the last TL messages, or over all of them if TL is 0, and the deletion queue holds exactly those |
| GraphThread.NewestIsThere | src/scheduler/async_scheduler.hpp:153-168 | the key of the message just processed is a vertex |
| Csr.SortedVertex | src/graph/graph.hpp:82-89 | all keys, once each, in increasing order |
| Csr.EncodeRow | src/graph/graph.hpp:136-146 | whatever order a row is visited in, decoding the entries gives the row restricted to existing vertices |
| Csr.NumberVertices | src/graph/graph.hpp:124-131 | the positions are the order-preserving bijection from the keys to 0..n-1, with the vertex weights alongside |
| Csr.MultilevelCutData | src/graph/graph.hpp:116-151 | the four arrays encode the graph: offsets from 0, never decreasing, ending at the number of entries, every row in its place |
| Csr.NothingFiltered | src/graph/graph.hpp:138-143 | on a window graph the membership filter never drops an edge |
| Csr.RoundTrip | src/graph/graph.hpp:116-151 | decoding the export of a window graph gives back its vertices and its edges |
| Csr.OffsetCountsArcs | src/graph/graph.hpp:132-148 | every offset is the number of directed edges of the rows before it |
| Csr.TwoEntriesPerEdge | src/scheduler/input_graph.hpp:10-22 | the arrays hold two entries for each of the counted edges, which is also the last offset |
| Csr.Partitioning | src/scheduler/scheduler.hpp:431-471 | the new map has exactly the exported keys, each sent to the partition of its position |
| HandOff.StepKeeps | src/scheduler/free_scheduler.hpp:107-202 | every step of the three threads keeps the token count, the map ownership and the snapshot versions |
| HandOff.AtMostOneInFlight | src/scheduler/free_scheduler.hpp:139-202 | at most one repartition is in flight, the token is taken exactly while one is, and the snapshot is never written while the partitioner may read it |
| HandOff.NoUpdateLost | src/scheduler/async_scheduler.hpp:112-146 | the maps that take over are those of snapshots 1, 2, 3, ... without a gap, and only the one in flight is missing |
| HandOff.MapsAreOwned | src/scheduler/free_scheduler.hpp:131-202 | the deleted map is never the active one, the two maps never alias outside the exchange, and every map is alive or freed, exactly one of the two |
| HandOff.JustProcessed | src/scheduler/async_scheduler.hpp:148-171 | after processing a message the graph of the window has a vertex, so the guard before ordering a repartition holds |
| HandOff.GuardNeverFails | src/scheduler/async_scheduler.hpp:153-168 | the guard on the number of vertices holds whenever it is reached, so a requested repartition is always ordered |
| HandOff.WindowHoldsTheLast | src/scheduler/free_scheduler.hpp:156-170 | after every message the window is the last TL messages, or all of them if TL is 0 |
| HandOff.RequestAdvances | src/scheduler/async_scheduler.hpp:112-171 | a requested repartition is carried out: each step of the thread that holds it brings it closer, no step sets it back, it ends only by giving the token back, and that thread can move exactly if it is not waiting for the next item of the queue |
| HandOffRuns.TriggerStarts | src/scheduler/free_scheduler.hpp:171-187 | in every variant and reachable state in which the watching thread looks with the token free, the trigger makes it start a repartition, and without the trigger nothing starts |
| HandOffRuns.TriggerIsCarriedOut | src/scheduler/async_scheduler.hpp:112-171 | such a trigger can be carried on until one more map has taken over and the token is free again |
| HandOffRuns.OneMoreRepartition | src/scheduler/async_imb_scheduler.hpp:191-268 | from every reachable state of every variant one more map can take over, so every number of repartitions is reached |
| TwoHeaded.Queue.WithDistance | src/queue/queue.hpp:22-43 | the distance is split between the two leads |
| TwoHeaded.Queue.Push | src/queue/queue.hpp:46-54 | a pushed value is at the end of both buffers |
| TwoHeaded.Queue.Free | src/queue/queue.hpp:61-65 | one extra token for both semaphores of a head |
| TwoHeaded.Queue.Wait | src/queue/queue.hpp:67-71 | uses up one token of each semaphore of the head |
| TwoHeaded.Queue.Pop | src/queue/queue.hpp:73-81 | the oldest value of the head's buffer, and one more lead for the other head |
| Handshake.SubmitIsItsCalls | src/scheduler/scheduler.hpp:349-353 | the producer's steps, uninterrupted, are push, notify<0> and notify<1> |
| Handshake.ScheduleIsItsCalls | src/scheduler/scheduler.hpp:355-366 | the scheduling thread's steps are wait<0> and pop<0> |
| Handshake.FreeIsItsCalls | src/scheduler/scheduler.hpp:238-240 | its steps at the start of a handshake are free<1> |
| Handshake.GraphIsItsCalls | src/scheduler/scheduler.hpp:368-391 | the graph thread's steps are wait<1> and pop<1> |
| Handshake.StepKeeps | src/scheduler/scheduler.hpp:238-391 | every step of the three threads keeps the delivered prefixes, the token counts of all four semaphores and the barrier rounds |
| Handshake.HeadsDeliverTheStream | src/queue/queue.hpp:46-81 | both heads deliver prefixes of the submitted sequence and never pop an empty buffer |
| Handshake.LeadsAreLimited | src/queue/queue.hpp:61-81 | the heads' pop counts differ by no more than the leads, and a lead semaphore holds at most both leads, one more while a handshake starts |
| Handshake.HeadsNeverBlockEachOther | src/queue/queue.hpp:61-81 | with a lead of at least one in sum, the heads are never both blocked while both have items |
| Handshake.CopyIsStable | src/scheduler/scheduler.hpp:238-247 | while the graph is copied the graph thread is between the barriers, having processed a prefix of p requests with n_dispatched - 1 <= p <= n_dispatched + ahead_1 |
| Handshake.NothingMovesDuringCopy | src/scheduler/scheduler.hpp:238-247 | no step changes what has been processed while the copy lasts |
| Handshake.TokensAreRestored | src/queue/queue.hpp:61-71 | after a handshake the extra tokens are consumed: both semaphores of head 1 are what they would be without any handshake |
| Handshake.HandshakeAdvances | src/scheduler/old_imb_scheduler.hpp:200-209 | during a handshake the steps of both threads bring its end closer and nothing moves it away |
| Handshake.HandshakeNeverStuck | src/scheduler/old_imb_scheduler.hpp:200-209 | at every moment of a handshake one of the two threads can take such a step |
| HandshakeRuns.TriggerStarts | src/scheduler/scheduler.hpp:233-240 | with the trigger, and only with it, the scheduling thread sets `note_` and enters a handshake |
| HandshakeRuns.HandshakeHappens | src/scheduler/scheduler.hpp:238-247 | from every reachable state in which it decides, the triggered handshake can be carried on through the copying of the graph to its end |
| HandshakeRuns.ReachDecision | src/scheduler/scheduler.hpp:355-366 | with a lead of at least one in sum, the scheduling thread can get from any moment outside a handshake to its next decision |
| HandshakeRuns.HandshakeCanHappen | src/scheduler/old_imb_scheduler.hpp:194-234 | so from every reachable state with a request still to be counted a whole handshake can happen |
| LinkedQueue.StepKeeps | src/linked_queue/linked_queue.hpp:55-96 | every load, store and pointer access keeps the list, the flags, the leads and the set of deleted nodes in step |
| LinkedQueue.NoDanglingPointer | src/linked_queue/linked_queue.hpp:55-96 | no step follows an uninitialised pointer or one to a deleted node |
| LinkedQueue.DeletedOnce | src/linked_queue/linked_queue.hpp:79-96 | a node is deleted at most once, only after both heads moved beyond it, and the heads are never in the deleting loop together |
| LinkedQueue.LaterHeadDeletes | src/linked_queue/linked_queue.hpp:85-93 | a head deletes if and only if the other one is through with the node when it loads the flag |
| LinkedQueue.HeadsDeliverTheStream | src/linked_queue/linked_queue.hpp:79-96 | each head returns the pushed values in order |
| LinkedQueue.LeadsAreSwapped | src/linked_queue/linked_queue.hpp:38-53 | head 0 is at most ahead_1 items in front, head 1 at most ahead_0 |
| Reclamation.SwappedLeadIsAttained | src/linked_queue/linked_queue.hpp:38-53 | some run attains each of these bounds |
| Reclamation.IntendedLeadHolds | src/linked_queue/linked_queue.hpp:38-53 | a head keeps within the lead meant for it in every run if and only if the lead it gets, or the stream, is no longer |
| Reclamation.LoopDeletesAll | src/linked_queue/linked_queue.hpp:85-91 | a head leaves the deleting loop with exactly the nodes before its own deleted |
| Reclamation.BothMayLoad | src/linked_queue/linked_queue.hpp:85-93 | both heads can load the flag of a node before either stores it if and only if each has a lead of at least one and something is pushed |
| Reclamation.NothingLeftWithoutLead | src/linked_queue/linked_queue.hpp:79-96 | whenever a head without a lead is between two pops, exactly the nodes before its own are deleted |
| Reclamation.NodesMayStay | src/linked_queue/linked_queue.hpp:79-96 | nodes that both heads have passed may be left undeleted under exactly the condition of BothMayLoad |
| Imbalance.AlarmMeansARun | src/scheduler/async_imb_scheduler.hpp:118-172 | an alarm is raised if and only if the last Max+1 checks found one worker out of band or the last Max+1 readings of the cross-partition ratio were too high |
| Imbalance.OutOfBandMeans | src/scheduler/async_imb_scheduler.hpp:155-158 | a worker is out of band if and only if its queue is shorter than (1 - threshold) or longer than (1 + threshold) times the average of the lengths |
| Imbalance.CrossHighMeans | src/scheduler/old_imb_scheduler.hpp:108-115 | the ratio is too high if and only if requests were dispatched in the interval and the cross-partition ones exceed threshold times their number |
| Imbalance.AlarmAtLimit | src/scheduler/async_imb_scheduler.hpp:118-172 | a run that raises the alarm has just become one longer than the limit |
| Imbalance.RunIsTrailing | src/scheduler/async_imb_scheduler.hpp:118-172 | a run has length at least n if and only if the last n readings are true |
| Imbalance.Detector.ClearImbalanceCount | src/scheduler/async_imb_scheduler.hpp:112-116 | all per-worker counters are zero |
| Imbalance.Detector.IsCrossPartitionIntensive | src/scheduler/old_imb_scheduler.hpp:108-122 | the counter grows on a high ratio, is reset on a low one, and keeps its value when nothing was dispatched in the interval |
| Imbalance.Detector.Imbalance | src/scheduler/old_imb_scheduler.hpp:124-162 | over any sequence of checks every counter is the length of the current run since the last alarm and at most the limit, and the result is true exactly when this check raises the alarm |

## Left out

- METIS and KaHIP (src/graph/partitioning.cpp): any function with results in range stands for them.
- Compression and the fallback for failing decompression (src/storage/storage.cpp:15-25): compressing and decompressing are inverse.
- Sockets, the Paxos client, thread affinity, timestamps, metrics and configuration: no logic of the protocol.
- Clock and operation intervals: the trigger of a repartition is a free choice; HandOff reads a message and its trigger in one step.
- The END message and shutdown: streams stop before END, and `executing_` stays true.
- Relaxed memory orders and unsynchronised reads of flags and counters: each access is one atomic step.
- Integer widths: keys, counters and weights are unbounded, and a scan of negative keys, which the source converts to unsigned, is read with the mathematical remainder; the counters of the detector stay below their limit, the others would wrap only after 2^32 or more requests.
- WorkerThread.Storage.Read: an absent key is an empty answer instead of an exception, and decompression never fails.
- Liveness.NothingLost: a READ that misses is answered with nothing, counted, and its worker goes on; in the source the exception leaves the thread function and ends the process. Completion.NoReadThrows says exactly when that cannot happen, and Completion.NothingLostNorMissed what holds then.
- HandOff.RequestAdvances: of the two semaphores of `wait` only the one for items blocks a thread here; that the leads never block both heads is Handshake.HeadsNeverBlockEachOther. The method ROUND_ROBIN, under which the graph thread of the free scheduler still orders a repartition that `schedule_and_answer` never applies (src/scheduler/free_scheduler.hpp:111), is not part of it.
- Invariant.GatesLeave: the worker that leaves a barrier last frees it. The library gives the coordinator value to any one waiter, whose `pthread_barrier_destroy` waits until the others have left, so the coordinator is the last to go; any worker may be that one here.
- Liveness.FreedOnce: likewise, the last departure stands for the destruction by the coordinator.
- StrayScan.ScanCondition: for scans beyond the populated keys it says that some stream and some run answer them differently; of single streams, Uniform.UpdatesAreSequential covers those without insertions, and those with insertions are not characterised one by one.
- Csr.SortedVertex: the keys are inserted in order, where the source sorts a vector once.
- Handshake.StepKeeps: the graph thread's work on one message is one step between popping it and counting it; what that work does to the graph is the subject of GraphThread.
- LinkedQueue.StepKeeps: nodes are numbers of allocation and deletion is a set, so heap objects as such are not modelled; calls of `free` are not part of it.
- Imbalance.Detector.Imbalance: floats are real numbers, queue sizes are given in the order in which the source visits its partitions, which does not change.
- Partition weights (src/scheduler/partition.hpp:122-139) and the unused setters of the graph: no caller depends on them.
- Workload generators: well-formedness of the stream is a hypothesis where it matters.
