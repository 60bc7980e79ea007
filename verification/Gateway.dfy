/**
 The three threads of the gateway as a transition system.

 The connection manager produces (connmgr.c:70-230, main.c:8-23). The data manager
 (datamgr.c:36-122) and the storage manager (main.c:47-86, sensor_db.c:75-98) consume; when the
 database stays unreachable, the storage thread runs finish_datamgr (datamgr.c:142-151) instead of
 sensor_db.c's loop. Every step is one access to the state the threads share: the flag
 thread_result_connmgr, the readers/writer lock, one of the two barriers, or the linked buffer.
 What the environment decides (sockets, clock, database, scheduling) is an input of the step.
 */
module Gateway {
  import opened Measurements
  import opened SensorWindow

  // ---------- Shared objects ----------

  // The two threads that consume, and whoever may hold the write lock.
  datatype Who = DataMgr | Storage

  datatype Holder = Nobody | HeldByConnMgr | HeldBy(who: Who)

  // A two-party barrier (pthread_barrier_wait, IEEE Std 1003.1-2017): the first arrival waits; the
  // second one releases both, and one of the two, unspecified which, receives the serial value.
  // A released thread leaves in a step of its own.
  datatype Slot = Out | Waiting | Released(serial: bool)

  datatype Barrier = Barrier(dataMgr: Slot, storage: Slot, rounds: nat) // rounds: times it released

  function SlotOf(b: Barrier, w: Who): Slot {
    if w.DataMgr? then b.dataMgr else b.storage
  }

  function SetSlot(b: Barrier, w: Who, slot: Slot): Barrier {
    if w.DataMgr? then b.(dataMgr := slot) else b.(storage := slot)
  }

  function Peer(w: Who): Who {
    if w.DataMgr? then Storage else DataMgr
  }

  function Arrive(b: Barrier, w: Who, serial: bool): Barrier {
    if SlotOf(b, Peer(w)).Waiting? then
      SetSlot(SetSlot(b, w, Released(serial)), Peer(w), Released(!serial)).(rounds := b.rounds + 1)
    else
      SetSlot(b, w, Waiting)
  }

  // pthread_rwlock: any number of readers or one writer.
  datatype Lock = Lock(writer: Holder, dataMgrReads: bool, storageReads: bool)

  predicate Reads(lock: Lock, w: Who) {
    if w.DataMgr? then lock.dataMgrReads else lock.storageReads
  }

  function SetReads(lock: Lock, w: Who, on: bool): Lock {
    if w.DataMgr? then lock.(dataMgrReads := on) else lock.(storageReads := on)
  }

  predicate Free(lock: Lock) {
    lock.writer == Nobody && !lock.dataMgrReads && !lock.storageReads
  }

  // The linked buffer, with the history of what was appended and what was unlinked.
  datatype Queue = Queue(items: seq<Measurement>, inserted: seq<Measurement>, removed: seq<Measurement>)

  function Append(q: Queue, x: Measurement): Queue {
    Queue(q.items + [x], q.inserted + [x], q.removed)
  }

  function Unlink(q: Queue): Queue
    requires q.items != []
  {
    Queue(q.items[1..], q.inserted, q.removed + [q.items[0]])
  }

  // ---------- Threads ----------

  // What sbuffer_get_data returned last (sbuffer.h:17-18).
  datatype Result = Success | NoData

  // The next instruction of a consumer.
  datatype Pc =
    | Connect(tries: nat) // main.c:56: try to open the database
    | Sleep(tries: nat)   // main.c:69
    | GiveUp              // main.c:76: clear the flag, then finish_datamgr
    | Test                // the loop test
    | WantRead            // sbuffer.c:38: pthread_rwlock_rdlock
    | Read                // sbuffer.c:41-45: look at the head
    | EmptyHeld           // returned NO_DATA with the read lock held; the caller unlocks
    | DataHeld            // sbuffer.c:47: unlock
    | Work                // the data manager's table and messages, or the database insert
    | ToLoop              // sbuffer.c:75: arrive at loop_barrier
    | AtLoop              // inside loop_barrier
    | WantWrite           // sbuffer.c:78: pthread_rwlock_wrlock, serial thread only
    | Remove              // sbuffer.c:81-96: unlink the head
    | RemovedHeld         // sbuffer.c:110: unlock
    | ToPrep              // arrive at prep_barrier
    | AtPrep              // inside prep_barrier
    | Done                // left the loop

  datatype Consumer = Consumer(pc: Pc, result: Result, data: Measurement, handled: seq<Measurement>)

  // The next instruction of the connection manager. A scan (connmgr.c:139-229) goes over the connections
  // that there were at the top of the iteration; ready says of those it has not reached yet, in order,
  // whether poll found data for them. Only these can still be read in this iteration.
  datatype ProducerPc =
    | LoopTest                      // connmgr.c:70
    | Poll(size: nat)               // connmgr.c:76-137: poll, resize, accept, server timeout
    | Scan(ready: seq<bool>)        // connmgr.c:139-161: the next connection, which is read if it is ready
    | WantInsert(x: Measurement, ready: seq<bool>)  // sbuffer.c:121: pthread_rwlock_wrlock
    | Insert(x: Measurement, ready: seq<bool>)      // sbuffer.c:141-150: append
    | InsertedHeld(ready: seq<bool>)                // sbuffer.c:151: unlock
    | Check(ready: seq<bool>)       // connmgr.c:189-228: has this connection hung up or timed out?
    | ClearFlag                     // main.c:16
    | Ended

  // One call of insert_sensor; the program ignores whether it succeeded (sensor_db.c:88).
  datatype Attempt = Attempt(x: Measurement, ok: bool)

  // The storage thread's dealings with the database.
  datatype Database = Database(
    attempts: seq<Attempt>,    // insertions, in order
    fallback: bool,            // given up: the thread runs finish_datamgr
    failures: nat,             // failed attempts to open it
    sleeps: nat)               // waits between attempts

  // What the table holds: the insertions that succeeded.
  function Rows(attempts: seq<Attempt>): seq<Measurement> {
    if attempts == [] then []
    else
      var last := attempts[|attempts| - 1];
      Rows(attempts[..|attempts| - 1]) + if last.ok then [last.x] else []
  }

  datatype State = State(
    running: bool,             // thread_result_connmgr != THREAD_ENDED
    lock: Lock,
    queue: Queue,
    loopBarrier: Barrier,
    prepBarrier: Barrier,
    producer: ProducerPc,
    dataMgr: Consumer,
    storage: Consumer,
    manager: Manager,          // the data manager's own sensor table and messages
    database: Database)

  function C(st: State, w: Who): Consumer {
    if w.DataMgr? then st.dataMgr else st.storage
  }

  function SetC(st: State, w: Who, c: Consumer): State {
    if w.DataMgr? then st.(dataMgr := c) else st.(storage := c)
  }

  function GoTo(st: State, w: Who, pc: Pc): State {
    SetC(st, w, C(st, w).(pc := pc))
  }

  // The gateway after its threads have been created, with the sensor list loaded.
  function Init(m: Manager, junk: Measurement): State {
    State(true, Lock(Nobody, false, false), Queue([], [], []), Barrier(Out, Out, 0), Barrier(Out, Out, 0),
          LoopTest, Consumer(Test, Success, junk, []), Consumer(Connect(0), Success, junk, []),
          m, Database([], false, 0, 0))
  }

  // ---------- Steps ----------

  // NR_OF_TRIES (main.h:24).
  const NR_OF_TRIES := 3

  // What the environment decides in a step of the connection manager; where a choice means nothing it is
  // taken for Go.
  datatype Choice =
    | Go
    | Size(connections: nat)      // at the loop test: the length of the list
    | Ready(which: seq<bool>)     // at poll: for which connections there is data
    | Data(x: Measurement)        // from a ready connection: a whole measurement
    | Leave                       // the server has timed out, or the connection at hand is closed

  datatype Step =
    | Produce(choice: Choice)
    // coin: the attempt to open the database or to insert succeeded, or this thread receives the serial value
    | Consume(who: Who, coin: bool)

  predicate ProducerEnabled(st: State) {
    match st.producer
    case WantInsert(_, _) => Free(st.lock)
    case Ended => false
    case _ => true
  }

  // What poll found for n connections.
  function Found(n: nat, choice: Choice): (r: seq<bool>)
    ensures |r| == n
  {
    seq(n, k requires 0 <= k < n => choice.Ready? && k < |choice.which| && choice.which[k])
  }

  // Where a step leads that does not depend on the flag.
  function NextPc(p: ProducerPc, choice: Choice): ProducerPc {
    match p
    case LoopTest => Poll(if choice.Size? then choice.connections else 0) // with the flag set
    case Poll(size) =>
      // the server times out only when the iteration began without connections
      if size == 0 && choice.Leave? then ClearFlag else Scan(Found(size, choice))
    case Scan(ready) =>
      if ready == [] then LoopTest
      else if ready[0] && choice.Data? then WantInsert(choice.x, ready[1..])
      else Check(ready[1..])
    case WantInsert(x, ready) => Insert(x, ready)
    case Insert(_, ready) => InsertedHeld(ready)
    case InsertedHeld(ready) => Check(ready)
    case Check(ready) => if choice.Leave? then LoopTest else Scan(ready)
    case ClearFlag => Ended
    case Ended => Ended
  }

  function ProducerStep(st: State, choice: Choice): State
    requires ProducerEnabled(st)
  {
    var next := NextPc(st.producer, choice);
    match st.producer
    case LoopTest => st.(producer := if st.running then next else ClearFlag)
    case WantInsert(_, _) => st.(lock := st.lock.(writer := HeldByConnMgr), producer := next)
    case Insert(x, _) => st.(queue := Append(st.queue, x), producer := next)
    case InsertedHeld(_) => st.(lock := st.lock.(writer := Nobody), producer := next)
    case ClearFlag => st.(running := false, producer := next)
    case _ => st.(producer := next)
  }

  predicate ConsumerEnabled(st: State, w: Who) {
    match C(st, w).pc
    case WantRead => st.lock.writer == Nobody
    case WantWrite => Free(st.lock)
    case AtLoop => SlotOf(st.loopBarrier, w).Released?
    case AtPrep => SlotOf(st.prepBarrier, w).Released?
    case Done => false
    case _ => true
  }

  // main.c:72-76: the attempt after a failed one, or the fallback.
  function NextTry(tries: nat): Pc {
    if tries + 1 < NR_OF_TRIES then Connect(tries + 1) else GiveUp
  }

  function ConnectStep(st: State, w: Who, tries: nat, success: bool): State {
    if success then GoTo(st, w, Test)
    else
      GoTo(st.(database := st.database.(failures := st.database.failures + 1)), w,
           if tries < 2 then Sleep(tries) else NextTry(tries))
  }

  function SleepStep(st: State, w: Who, tries: nat): State {
    GoTo(st.(database := st.database.(sleeps := st.database.sleeps + 1)), w, NextTry(tries))
  }

  function GiveUpStep(st: State, w: Who): State {
    GoTo(st.(running := false, database := st.database.(fallback := true)), w, Test)
  }

  function TestStep(st: State, w: Who): State {
    GoTo(st, w, if st.running || C(st, w).result != NoData then WantRead else Done)
  }

  function LockReadStep(st: State, w: Who): State {
    GoTo(st.(lock := SetReads(st.lock, w, true)), w, Read)
  }

  function ReadStep(st: State, w: Who): State {
    if st.queue.items == [] then SetC(st, w, C(st, w).(pc := EmptyHeld, result := NoData))
    else SetC(st, w, C(st, w).(pc := DataHeld, data := st.queue.items[0]))
  }

  function UnlockEmptyStep(st: State, w: Who): State {
    GoTo(st.(lock := SetReads(st.lock, w, false)), w, Test)
  }

  function UnlockDataStep(st: State, w: Who): State {
    SetC(st.(lock := SetReads(st.lock, w, false)), w, C(st, w).(pc := Work, result := Success))
  }

  function WorkStep(st: State, w: Who, ok: bool): State {
    var c := C(st, w);
    var c' := c.(pc := ToLoop, handled := c.handled + [c.data]);
    if w.DataMgr? then st.(dataMgr := c', manager := Handle(st.manager, c.data))
    else if st.database.fallback then st.(storage := c')
    else st.(storage := c', database := st.database.(attempts := st.database.attempts + [Attempt(c.data, ok)]))
  }

  function ArriveLoopStep(st: State, w: Who, serial: bool): State {
    GoTo(st.(loopBarrier := Arrive(st.loopBarrier, w, serial)), w, AtLoop)
  }

  function LeaveLoopStep(st: State, w: Who): State {
    GoTo(st.(loopBarrier := SetSlot(st.loopBarrier, w, Out)), w,
         if SlotOf(st.loopBarrier, w) == Released(true) then WantWrite else ToPrep)
  }

  function LockWriteStep(st: State, w: Who): State {
    GoTo(st.(lock := st.lock.(writer := HeldBy(w))), w, Remove)
  }

  function RemoveStep(st: State, w: Who): State {
    // an empty buffer returns NO_DATA here without releasing the write lock
    if st.queue.items == [] then GoTo(st, w, ToPrep)
    else SetC(st.(queue := Unlink(st.queue)), w, C(st, w).(pc := RemovedHeld, data := st.queue.items[0]))
  }

  function UnlockWriteStep(st: State, w: Who): State {
    GoTo(st.(lock := st.lock.(writer := Nobody)), w, ToPrep)
  }

  function ArrivePrepStep(st: State, w: Who, serial: bool): State {
    GoTo(st.(prepBarrier := Arrive(st.prepBarrier, w, serial)), w, AtPrep)
  }

  function LeavePrepStep(st: State, w: Who): State {
    GoTo(st.(prepBarrier := SetSlot(st.prepBarrier, w, Out)), w, Test)
  }

  function ConsumerStep(st: State, w: Who, coin: bool): State
    requires ConsumerEnabled(st, w)
  {
    match C(st, w).pc
    case Connect(tries) => ConnectStep(st, w, tries, coin)
    case Sleep(tries) => SleepStep(st, w, tries)
    case GiveUp => GiveUpStep(st, w)
    case Test => TestStep(st, w)
    case WantRead => LockReadStep(st, w)
    case Read => ReadStep(st, w)
    case EmptyHeld => UnlockEmptyStep(st, w)
    case DataHeld => UnlockDataStep(st, w)
    case Work => WorkStep(st, w, coin)
    case ToLoop => ArriveLoopStep(st, w, coin)
    case AtLoop => LeaveLoopStep(st, w)
    case WantWrite => LockWriteStep(st, w)
    case Remove => RemoveStep(st, w)
    case RemovedHeld => UnlockWriteStep(st, w)
    case ToPrep => ArrivePrepStep(st, w, coin)
    case AtPrep => LeavePrepStep(st, w)
  }

  predicate Enabled(st: State, step: Step) {
    match step
    case Produce(_) => ProducerEnabled(st)
    case Consume(w, _) => ConsumerEnabled(st, w)
  }

  function Apply(st: State, step: Step): State
    requires Enabled(st, step)
  {
    match step
    case Produce(choice) => ProducerStep(st, choice)
    case Consume(w, coin) => ConsumerStep(st, w, coin)
  }

  // ---------- Runs ----------

  // steps can be taken one after the other from st.
  predicate CanRun(st: State, steps: seq<Step>)
    decreases |steps|
  {
    steps == [] || (Enabled(st, steps[0]) && CanRun(Apply(st, steps[0]), steps[1..]))
  }

  function After(st: State, steps: seq<Step>): State
    requires CanRun(st, steps)
    decreases |steps|
  {
    if steps == [] then st else After(Apply(st, steps[0]), steps[1..])
  }

  ghost predicate Reachable(m: Manager, st: State) {
    exists junk, steps :: CanRun(Init(m, junk), steps) && After(Init(m, junk), steps) == st
  }

  // No thread can take a step.
  ghost predicate Terminal(st: State) {
    forall step :: !Enabled(st, step)
  }

  lemma RunCons(st: State, step: Step, rest: seq<Step>)
    requires Enabled(st, step) && CanRun(Apply(st, step), rest)
    ensures CanRun(st, [step] + rest) && After(st, [step] + rest) == After(Apply(st, step), rest)
  {
    assert ([step] + rest)[1..] == rest;
  }

  lemma RunOne(st: State, step: Step)
    requires Enabled(st, step)
    ensures CanRun(st, [step]) && After(st, [step]) == Apply(st, step)
  {
    assert [step][1..] == [];
    assert CanRun(Apply(st, step), []) && After(Apply(st, step), []) == Apply(st, step);
  }

  lemma {:induction false} RunConcat(st: State, a: seq<Step>, b: seq<Step>)
    requires CanRun(st, a) && CanRun(After(st, a), b)
    ensures CanRun(st, a + b) && After(st, a + b) == After(After(st, a), b)
    decreases |a|
  {
    if a == [] {
      assert a + b == b;
    } else {
      RunConcat(Apply(st, a[0]), a[1..], b);
      assert (a + b)[1..] == a[1..] + b;
    }
  }

  lemma {:induction false} RunSplit(st: State, a: seq<Step>, b: seq<Step>)
    requires CanRun(st, a + b)
    ensures CanRun(st, a) && CanRun(After(st, a), b) && After(st, a + b) == After(After(st, a), b)
    decreases |a|
  {
    if a == [] {
      assert a + b == b;
    } else {
      assert (a + b)[1..] == a[1..] + b;
      RunSplit(Apply(st, a[0]), a[1..], b);
    }
  }

  lemma ReachableStep(m: Manager, st: State, step: Step)
    requires Reachable(m, st) && Enabled(st, step)
    ensures Reachable(m, Apply(st, step))
  {
    var junk, steps :| CanRun(Init(m, junk), steps) && After(Init(m, junk), steps) == st;
    RunOne(st, step);
    RunConcat(Init(m, junk), steps, [step]);
  }
}
