# A model of the sensor gateway

The gateway runs three threads over one linked buffer. The connection manager accepts sensor nodes and
appends their measurements; the data manager and the storage manager must each handle every measurement
once. A readers/writer lock guards the buffer and two barriers make the consumers take it in rounds: both
read the head, one of them unlinks it. When the database stays unreachable, the storage thread clears the
shared flag and runs `finish_datamgr` in place of the storage loop.

| module | models |
|---|---|
| `Measurements` | the measurement record of config.h |
| `Gateway` | the three threads as a transition system: one program counter per thread, one step per access to the lock, a barrier, the flag or the buffer |
| `GatewaySafety` | the inductive invariant and what holds in every reachable state |
| `GatewayProgress` | how soon the head of the buffer is removed while the gateway runs |
| `GatewayShutdown` | every run ends once the flag is cleared, and exactly when it ends with everything handled |
| `SensorWindow` | what the data manager computes: the incremental updates, and the table and messages as functions of the measurements alone |
| `SharedBuffer` | sbuffer.c's linked nodes |
| `ListSpec`, `DPList` | lib/dplist.c: what its operations mean on sequences, and its doubly linked nodes |
| `DataManager` | datamgr.c on the heap: sensors with their lists of temperatures, in a list |
| `GatewayHeap` | any run of the transition system carried out on the linked buffer and the sensor list |
| `Connections` | connmgr.c's loop: what an iteration does to the list of connections, and the poll array that does it |
| `GatewayProducer` | what the connection loop inserts in every interleaving of the transition system |

The gateway's steps are atomic. What the environment decides is an input of a step: the order in which the
threads move, which of two threads receives the serial value of a barrier, whether the database opens
and an insertion succeeds, what arrives on a connection, and every reading of the clock. The rules of `pthread_barrier_wait` and of the
readers/writer lock are those of IEEE Std 1003.1-2017.

## Where the program falls short, exactly

- **Shutdown.** A consumer that has read an empty buffer can be held up at its loop test, lose the race to
  the last insertion and the clearing of the flag, and leave; its peer then waits at `loop_barrier` for
  ever. `StrandedStorage` is such a run. `DrainsExactlyWhen` says for every reachable state with a cleared
  flag whether all runs from it end with everything handled; `OrdinaryShutdown` and `FallbackShutdown`
  say it of the two places that clear the flag, in terms of the state just before. The closing
  `TIMEOUT` (connmgr.c:130) makes the bad state improbable, not impossible. At the second place, after a
  lost database, a measurement that is waiting for the lock can come too late for both (`LateMeasurement`).
- **A connection that is never closed.** An iteration may accept a connection although it began without any
  (connmgr.c:106-127), and then find that the server has timed out (connmgr.c:130): `connmgr_free` frees the
  list with the new connection in it, and its socket stays open (`AcceptedAtTheTimeout`). An iteration keeps
  the account of connections exactly when it does not do both (`AdvanceAccountsExactlyWhen`).
- **Room in the poll array.** The resize in connmgr.c:82-103 leaves a slot for an accepted connection, or for
  the shift after a removal, exactly when it does not shrink the array (`RoomAfterResize`). Three connections
  that arrive one after the other and a fourth after a pause have none: eight slots are shrunk to four before
  the fifth is used (`ThreeConnectionsLeaveNoRoom`).
- **Measurements that are not stored.** The gateway's README.md promises that measurements stay in the shared
  data until the database works. All that is removed has been stored exactly when nothing is removed, or when
  fewer than three attempts to open the database have failed and every insertion of something removed has
  succeeded (`RemovedIsStoredExactlyWhen`). Both ways to lose one occur: after the third failed attempt
  `finish_datamgr` takes measurements out unstored (`DiscardedMeasurement`), and the storage loop ignores that
  `insert_sensor` has failed (sensor_db.c:88, `RefusedMeasurement`).
- **Documentation and code.** datamgr.h:86 says that the average is 0 before `RUN_AVG_LENGTH` measurements;
  the code keeps the mean of those there are. lib/dplist.h:139 promises NULL for the index of an element in
  a NULL list; the code returns -1.

## Model

| member | source | states |
|---|---|---|
| GatewaySafety.ReachableInv | sbuffer.c:36-153 | the lock, both barriers, the round, the histories, what each thread holds in its buffer, the database and the flag fit together in every reachable state of every interleaving |
| GatewaySafety.StepKeepsInv | main.c:47-86 | every step of every thread keeps that invariant |
| GatewaySafety.ExactlyOnceFifo | sbuffer.c:36-153 | both consumers have handled a prefix of what was inserted, at most one apart; the buffer is what was inserted without a removed prefix that both have handled; what was handed to insert_sensor is what storage handled, in order |
| GatewaySafety.RemovesTheSharedHead | sbuffer.c:75-111 | the thread about to unlink holds the lock alone and finds the head that both consumers read and handled in this round; the early return on an empty buffer is never taken and the value copied out is the value read |
| GatewaySafety.OneRemovalPerRound | datamgr.c:107-109 | between two consecutive releases of prep_barrier one measurement is removed, the next in the order of insertion, and each consumer handles that one and no other |
| GatewaySafety.ReleaseIsSecondArrival | datamgr.c:107-109 | a step releases prep_barrier if and only if it is the arrival of a thread while the other waits there |
| GatewaySafety.ReleaseFindsEqual | sensor_db.c:94-96 | when prep_barrier releases, both consumers have handled exactly what has been removed |
| GatewaySafety.LockDiscipline | sbuffer.c:38-48 | a writer excludes readers and writers; the read lock that an empty read leaves held is released by the caller's next instruction, which cannot block; no lock is held at a loop test, at a barrier or after the loop |
| GatewaySafety.NoDeadlockWhileRunning | sbuffer.c:75-78 | with both consumers in their loops some thread can move; a thread waits at a barrier only for a peer that waits at neither; the barriers are at most one round apart |
| GatewaySafety.DecisionsAreAFold | datamgr.c:36-121 | in every interleaving the sensor table and the messages are those of handling a prefix of the insertions one after the other, and the messages are decided by the sensors' windows |
| GatewaySafety.RetainedWhileDatabaseDown | main.c:51-79 | nothing is removed while the database is being opened; the fallback comes only after three failures and two waits, and stores nothing |
| GatewayProgress.HeadIsRemovedSoon | sbuffer.c:72-113 | while the gateway runs with something in the buffer, 35 consumer steps, in any order and whatever the connection manager does between them, remove at least one measurement |
| GatewaySafety.RemovedIsStoredExactlyWhen | main.c:53-79 | in every reachable state, all that is removed has been stored if and only if nothing is removed, or fewer than three attempts to open the database and no insertion of something removed have failed |
| GatewaySafety.RowsComplete | sensor_db.c:75-98 | the table holds everything handed to insert_sensor, in order, if and only if no insertion failed |
| GatewaySafety.RowsConcat | sensor_db.c:105-120 | later insertions, successful or not, leave the rows of earlier ones as they are |
| GatewaySafety.RowsOne | sensor_db.c:105-120 | a successful insertion adds its row, a failed one adds nothing |
| GatewaySafety.RowsSay | sensor_db.c:105-120 | the table holds a row for exactly the insertions that succeeded, in order |
| GatewaySafety.RowsOnlyGrow | sensor_db.c:75-98 | no run ever takes a row away |
| GatewaySafety.BlockedExactlyWhen | sbuffer.c:36-113 | in every reachable state a consumer stands still if and only if it has left, waits at a barrier that has not released it, wants to read while another thread is in a writing section, or wants to write while another is in any section |
| GatewaySafety.ProducerBlockedExactlyWhen | sbuffer.c:119-153 | the connection manager stands still if and only if it has ended, or wants to insert while a consumer is in a section of the lock |
| GatewayProgress.BufferIsRemovedSoon | sbuffer.c:72-113 | 35 consumer steps for each of the first n measurements in the buffer, and at least n have been removed |
| GatewayProgress.StepsWithoutRemoval | datamgr.c:36-122 | a run without a removal holds at most as many consumer steps as the round has left |
| GatewayShutdown.StepUsesUp | sensor_db.c:75-98 | with the flag cleared every step of every thread decreases one natural number, though the connection manager may still insert |
| GatewayShutdown.EveryRunEnds | datamgr.c:142-151 | so the length of every run from there is bounded, and the flag stays cleared |
| GatewayShutdown.TerminalShape | sensor_db.c:75-98 | where no thread can move, the connection manager has ended and a consumer has left; its peer has left too or waits at loop_barrier |
| GatewayShutdown.DrainsExactlyWhen | main.c:16 | from a cleared flag all runs end with both consumers out, the buffer empty and everything handled by both, if and only if nothing more can be appended and no consumer is leaving past a measurement |
| GatewayShutdown.OrdinaryShutdown | connmgr.c:130-137 | the connection manager's own clearing drains if and only if the buffer is empty or no consumer stands at its loop test with NO_DATA |
| GatewayShutdown.FallbackShutdown | main.c:76-79 | giving up the database drains if and only if the connection manager has no measurement waiting for the lock and no connection left in its scan that poll found ready, nor is about to poll any, and the data manager is not leaving past a measurement |
| GatewayShutdown.SafeRunsDrain | datamgr.c:36-44 | from a safe state every run that ends has drained |
| GatewayShutdown.UnsafeCanFail | connmgr.c:173 | from any other state with the flag cleared there is a complete run that does not drain |
| GatewayShutdown.DrainedOutcome | datamgr.c:88-117 | a drained gateway has sent the messages that the windows of all insertions call for and its table holds their windows and means; unless the database was given up everything was handed to insert_sensor in order, and is in the table if and only if no insertion failed |
| GatewayShutdown.DrainedTable | sensor_db.c:75-98 | the table of a drained gateway whose database was not given up is what was inserted without what was refused, in order |
| GatewayShutdown.BothRead | sbuffer.c:38-47 | both consumers can hold the read lock at the same time, whichever comes first |
| GatewayShutdown.AnyoneMayRemove | sbuffer.c:75-111 | either consumer can be the one that unlinks the head, whichever arrives at the barrier first |
| GatewayShutdown.StrandedStorage | datamgr.c:36-44 | a run that ends with the last measurement unhandled by the data manager and storage waiting for ever |
| GatewayShutdown.LateMeasurement | main.c:76-79 | a run in which a measurement waits for the lock when the database is given up; both consumers leave before it is inserted and it stays in the buffer for ever |
| GatewayShutdown.RefusedMeasurement | sensor_db.c:88 | a run in which the database is open, the insertion of the only measurement fails, and it is removed all the same |
| GatewayShutdown.DiscardedMeasurement | main.c:76-79 | a run in which the only measurement is taken out of the buffer after the database was given up, and nothing is stored |
| SensorWindow.IndexOfId | lib/dplist.c:181-205 | the least index with this id, or -1 when there is none |
| SensorWindow.MeanGrows | datamgr.c:67-71 | while the window fills, the updated average is the mean of the longer list, whatever it was before the first value |
| SensorWindow.MeanSlides | datamgr.c:72-79 | once it is full, the updated average is the mean of the list with the newest value in and the oldest out |
| SensorWindow.ObserveSlides | datamgr.c:57-82 | one measurement slides the window by one and the average follows, for any window length |
| SensorWindow.TableClosedForm | datamgr.c:36-122 | after any measurements the first entry of each id holds its last min(n, N) values newest first, their exact mean and the last time stamp; an entry with a repeated id is never touched |
| SensorWindow.LogClosedForm | datamgr.c:88-117 | every cold, hot and invalid-id message is decided by the windows alone |
| SensorWindow.HandleAllKeepsIds | datamgr.c:46-82 | no measurement changes which sensors there are, their rooms or their order |
| SharedBuffer.SBuffer.constructor | sbuffer.c:13-16 | a new buffer is empty |
| SharedBuffer.SBuffer.GetData | sbuffer.c:41-48 | the head, or nothing when the buffer is empty; the buffer stays as it is |
| SharedBuffer.SBuffer.Remove | sbuffer.c:81-96 | the head leaves the chain and is returned; tail goes with the last node |
| SharedBuffer.SBuffer.Insert | sbuffer.c:132-150 | one new node at the end; all others stay in the chain |
| SharedBuffer.SBuffer.Free | sbuffer.c:52-65 | ends after freeing every node of the chain once, in order, then the buffer, and leaves NULL behind; fails on NULL |
| ListSpec.InsertThenRemove | lib/dplist.c:63-155 | inserting and removing at the same index, negative or too large included, gives back the sequence |
| ListSpec.RemoveThenInsert | lib/dplist.c:63-155 | removing and inserting at the same index replaces what was there |
| ListSpec.SortedInsert | lib/dplist.c:317-343 | inserting an element, or a copy that compares alike, at the first position whose element is not smaller keeps the list sorted, with NULL elements first |
| ListSpec.IndexOfIsUnique | lib/dplist.c:181-205 | the first match is one index, or -1 |
| ListSpec.InsertMultiset | lib/dplist.c:63-108 | an insertion adds its element and loses none |
| DPList.List.constructor | lib/dplist.c:27-39 | a new list is empty |
| DPList.Size | lib/dplist.c:158-170 | the number of nodes; -1 for a NULL list |
| DPList.ReferenceAtIndex | lib/dplist.c:208-220 | the node at the index clamped to the list; NULL when there is none |
| DPList.ElementAtIndex | lib/dplist.c:172-179 | the element of that node |
| DPList.IndexOfElement | lib/dplist.c:181-205 | the least index whose element matches, two NULL elements matching each other; -1 when none does |
| DPList.IndexOfReference | lib/dplist.c:237-249 | the index of the node in this list, or -1 |
| DPList.FirstReference | lib/dplist.c:251-255 | the first node, or NULL |
| DPList.LastReference | lib/dplist.c:258-267 | the last node, or NULL |
| DPList.NextReference | lib/dplist.c:270-279 | the following node; NULL after the last and for a node of no or another list |
| DPList.PreviousReference | lib/dplist.c:282-291 | the preceding node; NULL before the first and for a node of no or another list |
| DPList.ElementAtReference | lib/dplist.c:225-235 | the element of a node of this list, otherwise NULL |
| DPList.ReferenceOfElement | lib/dplist.c:293-300 | the node at the index of the first match, or NULL |
| DPList.LinkAtIndex | lib/dplist.c:77-105 | linking a node in at any index, whatever its links were, leaves a finite chain with prev and next inverse, and is an insertion at the clamped index |
| DPList.InsertAtIndex | lib/dplist.c:63-108 | one new node with the element, or what element_copy makes of it, at the clamped index; every other node stays, in order |
| DPList.InsertAtReference | lib/dplist.c:303-314 | an insertion of one new node at the index of that node; nothing changes when it is not in the list |
| DPList.InsertSorted | lib/dplist.c:317-343 | one new node goes before the first that is not smaller; every other node stays; a sorted list stays sorted |
| DPList.UnlinkAtIndex | lib/dplist.c:118-143 | unlinking at any index leaves a finite chain with prev and next inverse, and is a removal at the clamped index |
| DPList.RemoveAtIndex | lib/dplist.c:110-155 | the node at the clamped index goes; every other node stays, in order; an empty list stays empty; the callback on the element if it is asked for, then the element is freed as the callback left it, then the node |
| DPList.RemoveAtReference | lib/dplist.c:346-355 | a removal at the index of that node, freed likewise; nothing changes when it is not in the list |
| DPList.RemoveElement | lib/dplist.c:357-365 | a removal at the index of the first match, freed likewise; nothing changes when there is none |
| DPList.Free | lib/dplist.c:41-61 | ends after freeing every node once, in order, each immediately after its own element, then the list, and nothing else, and leaves NULL behind; if asked for, the callback comes before, for every element that is not NULL |
| DPList.InsertThenRemoveAt | lib/dplist.c:63-155 | on the heap too, inserting and removing at any index gives back the nodes and all their links |
| DPList.ReferenceThenIndex | lib/dplist.c:208-249 | the index of the reference at an index is that index, clamped |
| DPList.RemoveThenInsertAt | lib/dplist.c:63-155 | removing at any index and inserting what was there gives back the elements, one node new and the others as they were |
| DPList.NeighboursAreInverse | lib/dplist.c:270-291 | next is NULL only at the last node and previous only at the first; otherwise each undoes the other |
| DataManager.LoadedClosedForm | datamgr.c:16-27 | loading rows at index 150 leaves the first 150 in order, then the others reversed |
| DataManager.RowsInPlace | datamgr.c:16-27 | row k names the room first and the sensor second, and becomes the sensor at place k, or at place n + 149 - k when k is 150 or more |
| DataManager.FoundAfterLoading | datamgr.c:16-27 | an id in no row is not found; otherwise the first of the first 150 rows with the id is found, or the last of the others |
| DataManager.SensorCompareOrders | datamgr.c:208-211 | sensor_compare orders sensors by their ids, totally, with 0 for equal ids only |
| DataManager.LoadedUnused | datamgr.c:16-27 | whatever the map file holds, no sensor has a temperature when the loop starts |
| DataManager.SensorTable.LoadMap | datamgr.c:13-27 | the list of sensors on the heap after loading any map file: a sensor for each row, of the sensor and room that the row names, in its place, with an empty list of temperatures |
| DataManager.SensorTable.FoundById | datamgr.c:47 | the index that the list finds for an id is the first entry with that id |
| DataManager.SensorTable.HandleMeasurement | datamgr.c:46-122 | one measurement changes the entry of its sensor as the windowed update says and no other entry, and sends the message that the new average calls for; an unknown id changes nothing and is reported |
| DataManager.Sensor.Record | datamgr.c:54-82 | the list of temperatures, the average and the time stamp of one sensor after one measurement |
| DataManager.Sensor.Average | datamgr.c:61-79 | the average follows and the value that leaves the window is dropped |
| DataManager.SensorTable.GetRoomId | datamgr.c:155-164 | the room of the first entry with this id, or the error exit |
| DataManager.SensorTable.RoomInMap | datamgr.c:155-164 | after loading any map file the room of a sensor is that of the row its id is found in, and there is none for an id in no row |
| DataManager.SensorTable.GetAvg | datamgr.c:166-175 | the average of the first entry with this id, or the error exit |
| DataManager.SensorTable.GetLastModified | datamgr.c:177-187 | the time stamp of the first entry with this id, or the error exit |
| GatewayHeap.HeapStep | sbuffer.c:41-150 | one step carried out on the linked buffer and the sensor list leaves them as the transition system says |
| GatewayHeap.RunGateway | datamgr.c:4-126 | so does every run from the creation of the buffer and the loading of any map file; the sensor list holds the windows and means of the insertions handled, and the messages are those the windows call for |
| Connections.ScanClosedForm | connmgr.c:139-229 | a scan reads every connection once, in order, up to the first that has hung up or timed out, and closes that one; the rest, and one just accepted, are left for the next iteration; list, measurements, log, closed sockets and the time of the last record |
| Connections.IterationClosedForm | connmgr.c:72-229 | the same of a whole iteration, which ends the loop if and only if it began without connections and the server has been idle for longer than the timeout |
| Connections.Reach | connmgr.c:139-229 | an iteration reads the connections up to the first that has hung up, or has been silent for longer than the timeout once it has been read |
| Connections.IterationSends | connmgr.c:144-178 | what an iteration hands on is the data of exactly the connections reached that poll found ready and that deliver a whole measurement, each once, in order; the time of the last record follows the last of them, or stays |
| Connections.IterationLogs | connmgr.c:179-227 | what an iteration logs is the ids of exactly the connections reached that were ready and had none, in order, and then why the last one reached is closed, if it is gone |
| Connections.IterationKeeps | connmgr.c:106-227 | the list afterwards: ids and time stamps of those read, the others untouched, the one closed missing, and one accepted last, without an id |
| Connections.RunIsItsIterations | connmgr.c:70-230 | what a run hands on, logs, closes and accepts is what its iterations do, in order |
| Connections.RunExitsExactlyWhen | connmgr.c:130-137 | a run has ended if and only if one of its iterations began without connections after more than the timeout of silence |
| Connections.RoomAfterResize | connmgr.c:82-103 | the resized array has a slot for every connection, and one more exactly when it was not shrunk |
| Connections.WhenResized | connmgr.c:82-103 | exactly a full array is enlarged, to twice its size, and exactly one with five connections fewer than slots is shrunk, to the slots in use |
| Connections.ThreeConnectionsLeaveNoRoom | connmgr.c:82-127 | five iterations of which the first four have room and the fifth accepts into a slot beyond the array |
| Connections.ScheduleHasRoom | connmgr.c:82-127 | for any pattern of arrivals and pauses there is room in every iteration if and only if the sizes alone allow it |
| Connections.ShiftArray | connmgr.c:246-252 | slots index to size - 1 take over the slot behind them; no other slot changes |
| Connections.PollServer.constructor | connmgr.c:27-59 | the array watches the listening socket and there are no connections |
| Connections.PollServer.ReadFrom | connmgr.c:144-187 | only a connection with fresh data is read; its time stamp, its id, what is handed on and what is logged |
| Connections.PollServer.Remove | connmgr.c:201-204 | the connection and its slot go together; every other connection keeps its slot |
| Connections.PollServer.Serve | connmgr.c:141-228 | what is read from a connection's slot is what this iteration's poll found for that connection; a removal stops the scan |
| Connections.PollServer.Iterate | connmgr.c:72-229 | slot i + 1 watches connection i again after any iteration, accept and removal in one included, given room in the array, and connections, measurements, log and closed sockets are those of the iteration without the array |
| Connections.PollServer.ManageConnection | connmgr.c:61-230 | the same over any number of iterations |
| Connections.AdvanceAccountsExactlyWhen | connmgr.c:106-137 | an iteration keeps every accepted connection open in the list or closed, once, if and only if it does not both accept one and end the loop |
| Connections.ConnectionsAreAcceptedMinusClosed | connmgr.c:106-258 | over any run every accepted connection is still there or was closed, once, except one accepted in the iteration that times out; those still there are in the order of acceptance |
| Connections.AcceptedAtTheTimeout | connmgr.c:130-137 | the run in which that one connection is freed with the list and never closed |
| Connections.ScanInserts | connmgr.c:139-178 | an iteration hands on at most one measurement for each connection at its top |
| GatewayProducer.EveryRunInserts | connmgr.c:70-230 | in every run from every state, what is inserted depends on the connection manager's own choices alone: not on the other threads, nor on who clears the flag or when |
| GatewayProducer.LoopEndsExactlyWhen | connmgr.c:70-137 | the connection manager leaves its loop if and only if the loop test finds the flag cleared, or the server times out in an iteration that began without connections |
| GatewayProducer.ScanRuns | connmgr.c:139-229 | with what poll found, one step for each connection reached inserts what these connections deliver, up to the one that is closed |
| GatewayProducer.IterationInEveryRun | connmgr.c:70-230 | in every interleaving, a run with the choices of an iteration inserts what the connection loop says, in order, even when the flag is cleared on the way; if the loop test found the flag set, it gets back to the loop test or to the end of the loop |
| GatewayProducer.ClearedBeforeTheTest | connmgr.c:70 | when the flag is cleared before the loop test, no run from there inserts anything |
| GatewayProducer.IterationIsProducerRun | connmgr.c:70-230 | there is such a run, for every iteration: the one in which no other thread moves |
| GatewayProducer.LoopInEveryRun | connmgr.c:61-232 | on its way through any number of iterations, in every interleaving, the connection manager has inserted a first part of what they hand on, and all of it once it has ended |
| GatewayProducer.SocketsDecideMessages | datamgr.c:36-121 | in a drained gateway what came in over the connections decides every message and what is handed to insert_sensor, however the threads moved |

## Left out

- Connections.PollServer.Iterate: requires that an iteration in which something is accepted or removed does not shrink the array, because the program then uses a slot beyond its size; RoomAfterResize and ThreeConnectionsLeaveNoRoom say when that is.
- Connections.PollServer.ManageConnection: requires the same of every iteration.
- GatewayShutdown.SafeRunsDrain: requires a safe state, because the program does not drain from the others; DrainsExactlyWhen is the full statement.
- DPList.InsertSorted: requires that no comparison gives more than 1, because the loop does not end on such a result.
- DPList.NextReference: uses the search of IndexOfReference instead of a loop of its own, and so do PreviousReference and ElementAtReference; the nodes visited are the same.
- DPList.Free: the calls of element_free and free are listed, not carried out, and so it is in SBuffer.Free, RemoveAtIndex, RemoveAtReference and RemoveElement.
- Connections.PollServer.Remove: the list of connections is a sequence; DPList shows that the linked list behaves as one.
- Connections.PollServer.ReadFrom: the three tcp_receive calls are one input, which says what they leave in the measurement and whether the last of them succeeded, the only one that the program tests.
- Connections.PollServer.constructor: opens no socket; the descriptor of the listening one is an input.
- SensorWindow.ObserveSlides: values are reals, so rounding, NaN and overflow are not covered; an uninitialised average is any real.
- Allocation failure, the byte sizes handed to realloc, and use of memory after it is freed.
- Sockets, poll's own errors, SQLite and its queries, files, fork and printing.
- The parsing of the map file: its rows are an input.
- write_to_FIFO's mutex, the log process and its sequence numbers: each message is one whole record, in the order of its own thread.
- The initialisation of the lock and the barriers, and how they work inside; the flag is read and written in single sequentially consistent steps, though the program does not synchronise it.
- NULL buffers: the program tests for them after it has used the pointer.
- datamgr_get_total_sensors, sensor_copy, the debug printing, sensor_node.c and file_creator.c.
