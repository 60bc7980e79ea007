/**
 What holds in every reachable state of the gateway, and what follows from it.
 */
module GatewaySafety {
  import opened Measurements
  import opened ListSpec
  import opened SensorWindow
  import opened Gateway

  // ---------- The inductive invariant ----------

  // Where a consumer is in the round that removes one measurement.
  datatype Phase =
    | Outside              // has not handled the measurement of this round
    | Arrived              // has handled it; not released by loop_barrier
    | Inside(remover: bool) // between the two releases; remover: it has yet to unlink the head

  function PhaseOf(pc: Pc, loopSlot: Slot, prepSlot: Slot): Phase {
    match pc
    case ToLoop => Arrived
    case AtLoop => if loopSlot.Waiting? then Arrived else Inside(loopSlot == Released(true))
    case WantWrite => Inside(true)
    case Remove => Inside(true)
    case RemovedHeld => Inside(false)
    case ToPrep => Inside(false)
    case AtPrep => if prepSlot.Waiting? then Inside(false) else Outside
    case _ => Outside
  }

  function PhaseIn(st: State, w: Who): Phase {
    PhaseOf(C(st, w).pc, SlotOf(st.loopBarrier, w), SlotOf(st.prepBarrier, w))
  }

  // The writer is the thread inside a write-locked section, the readers are the threads inside a
  // read-locked one, and a writer is alone.
  predicate LockInvOf(lock: Lock, w: Who, pc: Pc) {
    && (lock.writer == HeldBy(w) <==> pc.Remove? || pc.RemovedHeld?)
    && (Reads(lock, w) <==> pc.Read? || pc.EmptyHeld? || pc.DataHeld?)
    && (lock.writer != Nobody ==> !Reads(lock, w))
  }

  predicate LockInv(lock: Lock, producer: ProducerPc, d: Pc, s: Pc) {
    && (lock.writer == HeldByConnMgr <==> producer.Insert? || producer.InsertedHeld?)
    && LockInvOf(lock, DataMgr, d)
    && LockInvOf(lock, Storage, s)
  }

  // A barrier knows exactly the threads inside it; two waiting threads would have released each other.
  predicate BarrierInv(b: Barrier, dInside: bool, sInside: bool) {
    && (b.dataMgr.Out? <==> !dInside)
    && (b.storage.Out? <==> !sInside)
    && !(b.dataMgr.Waiting? && b.storage.Waiting?)
  }

  function Ahead(own: Phase, pending: bool): nat {
    if own.Arrived? || (own.Inside? && pending) then 1 else 0
  }

  // Both threads go through the inside of a round together, one of them removes, and each is ahead of
  // the removals by the measurement of the round that is under way.
  predicate RoundInv(d: Phase, s: Phase, handledD: nat, handledS: nat, removed: nat, loops: nat, preps: nat) {
    var pending := d == Inside(true) || s == Inside(true);
    && (d.Inside? <==> s.Inside?)
    && !(d == Inside(true) && s == Inside(true))
    && handledD == removed + Ahead(d, pending)
    && handledS == removed + Ahead(s, pending)
    && loops == preps + (if d.Inside? then 1 else 0)
    && removed == preps + (if d.Inside? && !pending then 1 else 0)
  }

  predicate HistoryInv(q: Queue, handledD: seq<Measurement>, handledS: seq<Measurement>) {
    && q.inserted == q.removed + q.items
    && handledD <= q.inserted
    && handledS <= q.inserted
  }

  // What a consumer's buffer_data and result hold.
  predicate DataInv(c: Consumer, items: seq<Measurement>, running: bool) {
    match c.pc
    case EmptyHeld => items == [] && c.result == NoData
    case DataHeld => items != [] && c.data == items[0]
    case Work => items != [] && c.data == items[0] && c.result == Success
    case Done => c.result == NoData && !running
    case ToLoop => Keeps(c)
    case AtLoop => Keeps(c)
    case WantWrite => Keeps(c)
    case Remove => Keeps(c)
    case RemovedHeld => Keeps(c)
    case ToPrep => Keeps(c)
    case AtPrep => Keeps(c)
    case _ => true
  }

  // buffer_data is still the measurement handled last.
  predicate Keeps(c: Consumer) {
    c.result == Success && c.handled != [] && c.data == c.handled[|c.handled| - 1]
  }

  // The measurements handed to insert_sensor.
  function Asked(attempts: seq<Attempt>): (r: seq<Measurement>)
    ensures |r| == |attempts|
    ensures forall i :: 0 <= i < |r| ==> r[i] == attempts[i].x
  {
    seq(|attempts|, i requires 0 <= i < |attempts| => attempts[i].x)
  }

  // Before the database is open or given up.
  predicate Starting(pc: Pc) {
    pc.Connect? || pc.Sleep? || pc.GiveUp?
  }

  predicate DatabaseInv(db: Database, s: Consumer, running: bool) {
    && (match s.pc
        case Connect(t) => t < NR_OF_TRIES && db.failures == t && db.sleeps == t
        case Sleep(t) => t < 2 && db.failures == t + 1 && db.sleeps == t
        case GiveUp => db.failures == NR_OF_TRIES && db.sleeps == 2
        case _ => true)
    && (Starting(s.pc) ==> s.handled == [] && !db.fallback && s.result == Success)
    && (db.fallback ==> db.failures == NR_OF_TRIES && db.sleeps == 2 && !running)
    && (!db.fallback && !s.pc.GiveUp? ==> db.failures < NR_OF_TRIES)
    && Asked(db.attempts) == (if db.fallback then [] else s.handled)
  }

  // The flag is cleared by the connection manager as its last act, or by the storage thread giving up.
  predicate FlagInv(running: bool, producer: ProducerPc, fallback: bool) {
    && (!running ==> producer.Ended? || fallback)
    && (producer.Ended? ==> !running)
  }

  predicate Inv(st: State) {
    && LockInv(st.lock, st.producer, st.dataMgr.pc, st.storage.pc)
    && BarrierInv(st.loopBarrier, st.dataMgr.pc.AtLoop?, st.storage.pc.AtLoop?)
    && BarrierInv(st.prepBarrier, st.dataMgr.pc.AtPrep?, st.storage.pc.AtPrep?)
    && RoundInv(PhaseIn(st, DataMgr), PhaseIn(st, Storage), |st.dataMgr.handled|, |st.storage.handled|,
                |st.queue.removed|, st.loopBarrier.rounds, st.prepBarrier.rounds)
    && HistoryInv(st.queue, st.dataMgr.handled, st.storage.handled)
    && DataInv(st.dataMgr, st.queue.items, st.running)
    && DataInv(st.storage, st.queue.items, st.running)
    && !Starting(st.dataMgr.pc)
    && DatabaseInv(st.database, st.storage, st.running)
    && FlagInv(st.running, st.producer, st.database.fallback)
  }

  // ---------- It is inductive ----------

  // A lemma for each instruction. The empty branches split a proof on which consumer moves: the two cases
  // are cheap apart and costly together.

  lemma InitInv(m: Manager, junk: Measurement)
    ensures Inv(Init(m, junk))
  {
  }

  lemma StartupKeepsInv(st: State, w: Who, coin: bool)
    requires Inv(st) && ConsumerEnabled(st, w) && Starting(C(st, w).pc)
    ensures Inv(ConsumerStep(st, w, coin))
  {
    assert w == Storage;
  }

  lemma LockReadKeepsInv(st: State, w: Who)
    requires Inv(st) && C(st, w).pc.WantRead? && ConsumerEnabled(st, w)
    ensures Inv(LockReadStep(st, w))
  {
    if w.DataMgr? {
    }
  }

  lemma UnlockEmptyKeepsInv(st: State, w: Who)
    requires Inv(st) && C(st, w).pc.EmptyHeld?
    ensures Inv(UnlockEmptyStep(st, w))
  {
    if w.DataMgr? {
    }
  }

  lemma UnlockDataKeepsInv(st: State, w: Who)
    requires Inv(st) && C(st, w).pc.DataHeld?
    ensures Inv(UnlockDataStep(st, w))
  {
    if w.DataMgr? {
    }
  }

  lemma TestKeepsInv(st: State, w: Who)
    requires Inv(st) && C(st, w).pc.Test?
    ensures Inv(TestStep(st, w))
  {
    if w.DataMgr? {
    }
  }

  lemma ReadEmptyKeepsInv(st: State, w: Who)
    requires Inv(st) && C(st, w).pc.Read? && st.queue.items == []
    ensures Inv(ReadStep(st, w))
  {
    if w.DataMgr? {
    }
  }

  lemma ReadHeadKeepsInv(st: State, w: Who)
    requires Inv(st) && C(st, w).pc.Read? && st.queue.items != []
    ensures Inv(ReadStep(st, w))
  {
    if w.DataMgr? {
    }
  }

  lemma DataMgrWorkKeepsInv(st: State, ok: bool)
    requires Inv(st) && st.dataMgr.pc.Work?
    ensures Inv(WorkStep(st, DataMgr, ok))
  {
  }

  lemma StorageWorkKeepsInv(st: State, ok: bool)
    requires Inv(st) && st.storage.pc.Work?
    ensures Inv(WorkStep(st, Storage, ok))
  {
    if !st.database.fallback {
      assert Asked(WorkStep(st, Storage, ok).database.attempts) == st.storage.handled + [st.storage.data];
    }
  }

  lemma ArriveLoopKeepsInv(st: State, w: Who, serial: bool)
    requires Inv(st) && C(st, w).pc.ToLoop?
    ensures Inv(ArriveLoopStep(st, w, serial))
  {
    if w.DataMgr? {
    }
  }

  lemma RemoverLeavesLoop(st: State, w: Who)
    requires Inv(st) && C(st, w).pc.AtLoop? && SlotOf(st.loopBarrier, w) == Released(true)
    ensures Inv(LeaveLoopStep(st, w))
  {
    if w.DataMgr? {
    }
  }

  lemma DataMgrOtherLeavesLoop(st: State)
    requires Inv(st) && st.dataMgr.pc.AtLoop? && st.loopBarrier.dataMgr == Released(false)
    ensures Inv(LeaveLoopStep(st, DataMgr))
  {
  }

  lemma StorageOtherLeavesLoop(st: State)
    requires Inv(st) && st.storage.pc.AtLoop? && st.loopBarrier.storage == Released(false)
    ensures Inv(LeaveLoopStep(st, Storage))
  {
  }

  lemma OtherLeavesLoop(st: State, w: Who)
    requires Inv(st) && C(st, w).pc.AtLoop? && SlotOf(st.loopBarrier, w) == Released(false)
    ensures Inv(LeaveLoopStep(st, w))
  {
    if w.DataMgr? {
      DataMgrOtherLeavesLoop(st);
    } else {
      StorageOtherLeavesLoop(st);
    }
  }

  lemma LeaveLoopKeepsInv(st: State, w: Who)
    requires Inv(st) && C(st, w).pc.AtLoop? && ConsumerEnabled(st, w)
    ensures Inv(LeaveLoopStep(st, w))
  {
    if SlotOf(st.loopBarrier, w) == Released(true) {
      RemoverLeavesLoop(st, w);
    } else {
      OtherLeavesLoop(st, w);
    }
  }

  lemma LockWriteKeepsInv(st: State, w: Who)
    requires Inv(st) && C(st, w).pc.WantWrite? && ConsumerEnabled(st, w)
    ensures Inv(LockWriteStep(st, w))
  {
    if w.DataMgr? {
    }
  }

  lemma DataMgrUnlockWriteKeepsInv(st: State)
    requires Inv(st) && st.dataMgr.pc.RemovedHeld?
    ensures Inv(UnlockWriteStep(st, DataMgr))
  {
  }

  lemma StorageUnlockWriteKeepsInv(st: State)
    requires Inv(st) && st.storage.pc.RemovedHeld?
    ensures Inv(UnlockWriteStep(st, Storage))
  {
  }

  lemma UnlockWriteKeepsInv(st: State, w: Who)
    requires Inv(st) && C(st, w).pc.RemovedHeld?
    ensures Inv(UnlockWriteStep(st, w))
  {
    if w.DataMgr? {
      DataMgrUnlockWriteKeepsInv(st);
    } else {
      StorageUnlockWriteKeepsInv(st);
    }
  }

  lemma DataMgrRemoveKeepsInv(st: State)
    requires Inv(st) && st.dataMgr.pc.Remove?
    ensures Inv(RemoveStep(st, DataMgr))
  {
  }

  lemma StorageRemoveKeepsInv(st: State)
    requires Inv(st) && st.storage.pc.Remove?
    ensures Inv(RemoveStep(st, Storage))
  {
  }

  lemma RemoveKeepsInv(st: State, w: Who)
    requires Inv(st) && C(st, w).pc.Remove?
    ensures Inv(RemoveStep(st, w))
  {
    if w.DataMgr? {
      DataMgrRemoveKeepsInv(st);
    } else {
      StorageRemoveKeepsInv(st);
    }
  }

  lemma DataMgrFirstAtPrepKeepsInv(st: State, serial: bool)
    requires Inv(st) && st.dataMgr.pc.ToPrep? && !st.prepBarrier.storage.Waiting?
    ensures Inv(ArrivePrepStep(st, DataMgr, serial))
  {
  }

  lemma StorageFirstAtPrepKeepsInv(st: State, serial: bool)
    requires Inv(st) && st.storage.pc.ToPrep? && !st.prepBarrier.dataMgr.Waiting?
    ensures Inv(ArrivePrepStep(st, Storage, serial))
  {
  }

  lemma DataMgrSecondAtPrepKeepsInv(st: State, serial: bool)
    requires Inv(st) && st.dataMgr.pc.ToPrep? && st.prepBarrier.storage.Waiting?
    ensures Inv(ArrivePrepStep(st, DataMgr, serial))
  {
  }

  lemma StorageSecondAtPrepKeepsInv(st: State, serial: bool)
    requires Inv(st) && st.storage.pc.ToPrep? && st.prepBarrier.dataMgr.Waiting?
    ensures Inv(ArrivePrepStep(st, Storage, serial))
  {
  }

  lemma SecondAtPrepKeepsInv(st: State, w: Who, serial: bool)
    requires Inv(st) && C(st, w).pc.ToPrep? && SlotOf(st.prepBarrier, Peer(w)).Waiting?
    ensures Inv(ArrivePrepStep(st, w, serial))
  {
    if w.DataMgr? {
      DataMgrSecondAtPrepKeepsInv(st, serial);
    } else {
      StorageSecondAtPrepKeepsInv(st, serial);
    }
  }

  lemma LeavePrepKeepsInv(st: State, w: Who)
    requires Inv(st) && C(st, w).pc.AtPrep? && ConsumerEnabled(st, w)
    ensures Inv(LeavePrepStep(st, w))
  {
    if w.DataMgr? {
    }
  }

  lemma InsertKeepsInv(st: State, choice: Choice)
    requires Inv(st) && st.producer.Insert?
    ensures Inv(ProducerStep(st, choice))
  {
    var st' := ProducerStep(st, choice);
    assert st'.queue == Append(st.queue, st.producer.x);
    assert !Reads(st.lock, DataMgr) && !Reads(st.lock, Storage);
  }

  lemma ProducerLocksInv(st: State, choice: Choice)
    requires Inv(st) && ProducerEnabled(st) && (st.producer.WantInsert? || st.producer.InsertedHeld?)
    ensures Inv(ProducerStep(st, choice))
  {
  }

  predicate HoldsNothing(p: ProducerPc) {
    !p.Insert? && !p.InsertedHeld? && !p.Ended?
  }

  // The other steps are the connection manager's own, but for the flag.
  lemma ProducerMovesKeepsInv(st: State, next: ProducerPc)
    requires Inv(st) && HoldsNothing(st.producer) && HoldsNothing(next)
    ensures Inv(st.(producer := next))
  {
  }

  lemma ClearFlagKeepsInv(st: State)
    requires Inv(st) && HoldsNothing(st.producer)
    ensures Inv(st.(producer := Ended, running := false))
  {
  }

  lemma ProducerKeepsInv(st: State, choice: Choice)
    requires Inv(st) && ProducerEnabled(st)
    requires !st.producer.WantInsert? && !st.producer.Insert? && !st.producer.InsertedHeld?
    ensures Inv(ProducerStep(st, choice))
  {
    if st.producer.ClearFlag? {
      ClearFlagKeepsInv(st);
    } else {
      var next := if st.producer.LoopTest? && !st.running then ClearFlag else NextPc(st.producer, choice);
      ProducerMovesKeepsInv(st, next);
    }
  }

  lemma StepKeepsInv(st: State, step: Step)
    requires Inv(st) && Enabled(st, step)
    ensures Inv(Apply(st, step))
  {
    match step
    case Produce(choice) =>
      if st.producer.Insert? {
        InsertKeepsInv(st, choice);
      } else if st.producer.WantInsert? || st.producer.InsertedHeld? {
        ProducerLocksInv(st, choice);
      } else {
        ProducerKeepsInv(st, choice);
      }
    case Consume(w, coin) =>
      ConsumerKeepsInv(st, w, coin);
  }

  lemma ConsumerKeepsInv(st: State, w: Who, coin: bool)
    requires Inv(st) && ConsumerEnabled(st, w)
    ensures Inv(ConsumerStep(st, w, coin))
  {
    match C(st, w).pc
    case Connect(_) => StartupKeepsInv(st, w, coin);
    case Sleep(_) => StartupKeepsInv(st, w, coin);
    case GiveUp => StartupKeepsInv(st, w, coin);
    case Test => TestKeepsInv(st, w);
    case WantRead => LockReadKeepsInv(st, w);
    case Read =>
      if st.queue.items == [] {
        ReadEmptyKeepsInv(st, w);
      } else {
        ReadHeadKeepsInv(st, w);
      }
    case EmptyHeld => UnlockEmptyKeepsInv(st, w);
    case DataHeld => UnlockDataKeepsInv(st, w);
    case Work =>
      if w.DataMgr? {
        DataMgrWorkKeepsInv(st, coin);
      } else {
        StorageWorkKeepsInv(st, coin);
      }
    case ToLoop => ArriveLoopKeepsInv(st, w, coin);
    case AtLoop => LeaveLoopKeepsInv(st, w);
    case WantWrite => LockWriteKeepsInv(st, w);
    case Remove => RemoveKeepsInv(st, w);
    case RemovedHeld => UnlockWriteKeepsInv(st, w);
    case ToPrep =>
      if SlotOf(st.prepBarrier, Peer(w)).Waiting? {
        SecondAtPrepKeepsInv(st, w, coin);
      } else if w.DataMgr? {
        DataMgrFirstAtPrepKeepsInv(st, coin);
      } else {
        StorageFirstAtPrepKeepsInv(st, coin);
      }
    case AtPrep => LeavePrepKeepsInv(st, w);
  }

  // The data manager's table and messages come from what it has handled and nothing else.
  ghost predicate ManagerInv(m: Manager, st: State) {
    st.manager == HandleAll(m, st.dataMgr.handled)
  }

  lemma StepKeepsManager(m: Manager, st: State, step: Step)
    requires ManagerInv(m, st) && Enabled(st, step)
    ensures ManagerInv(m, Apply(st, step))
  {
    var st' := Apply(st, step);
    if step.Consume? && step.who.DataMgr? && st.dataMgr.pc.Work? {
      assert st'.dataMgr.handled[..|st'.dataMgr.handled| - 1] == st.dataMgr.handled;
    } else {
      assert st'.dataMgr.handled == st.dataMgr.handled && st'.manager == st.manager;
    }
  }

  // The queue changes only when the connection manager appends and when a consumer unlinks the head.
  lemma QueueChanges(st: State, step: Step)
    requires Enabled(st, step)
    ensures Apply(st, step).queue ==
            if step.Produce? && st.producer.Insert? then Append(st.queue, st.producer.x)
            else if step.Consume? && C(st, step.who).pc.Remove? && st.queue.items != [] then Unlink(st.queue)
            else st.queue
  {
  }

  lemma {:induction false} RunKeepsInv(m: Manager, st: State, steps: seq<Step>)
    requires Inv(st) && ManagerInv(m, st) && CanRun(st, steps)
    ensures Inv(After(st, steps)) && ManagerInv(m, After(st, steps))
    ensures st.queue.inserted <= After(st, steps).queue.inserted
    ensures st.queue.removed <= After(st, steps).queue.removed
    decreases |steps|
  {
    if steps != [] {
      StepKeepsInv(st, steps[0]);
      StepKeepsManager(m, st, steps[0]);
      RunKeepsInv(m, Apply(st, steps[0]), steps[1..]);
    }
    HistoriesGrow(st, steps);
  }

  lemma {:induction false} HistoriesGrow(st: State, steps: seq<Step>)
    requires CanRun(st, steps)
    ensures st.queue.inserted <= After(st, steps).queue.inserted
    ensures st.queue.removed <= After(st, steps).queue.removed
    decreases |steps|
  {
    if steps != [] {
      QueueChanges(st, steps[0]);
      HistoriesGrow(Apply(st, steps[0]), steps[1..]);
    }
  }

  lemma ReachableInv(m: Manager, st: State)
    requires Reachable(m, st)
    ensures Inv(st) && ManagerInv(m, st)
  {
    var junk, steps :| CanRun(Init(m, junk), steps) && After(Init(m, junk), steps) == st;
    InitInv(m, junk);
    RunKeepsInv(m, Init(m, junk), steps);
  }

  // ---------- What it means ----------

  // Exactly once, in order: both consumers have handled a prefix of what was inserted, at most one
  // apart; the buffer is what was inserted without a removed prefix that both have handled.
  lemma ExactlyOnceFifo(m: Manager, st: State)
    requires Reachable(m, st)
    ensures st.dataMgr.handled <= st.queue.inserted
    ensures st.storage.handled <= st.queue.inserted
    ensures -1 <= |st.dataMgr.handled| - |st.storage.handled| <= 1
    ensures st.queue.inserted == st.queue.removed + st.queue.items
    ensures st.queue.removed <= st.dataMgr.handled && st.queue.removed <= st.storage.handled
    ensures |st.dataMgr.handled| <= |st.queue.removed| + 1 && |st.storage.handled| <= |st.queue.removed| + 1
    ensures Asked(st.database.attempts) == if st.database.fallback then [] else st.storage.handled
  {
    ReachableInv(m, st);
  }

  // The thread about to unlink finds the head that both consumers read and handled in this round,
  // whatever was appended meanwhile; so the early return on an empty buffer is never taken and the
  // value copied out is the value read.
  lemma RemovesTheSharedHead(m: Manager, st: State, w: Who)
    requires Reachable(m, st) && C(st, w).pc.Remove?
    ensures st.queue.items != []
    ensures st.dataMgr.data == st.queue.items[0] && st.storage.data == st.queue.items[0]
    ensures st.dataMgr.handled == st.queue.removed + [st.queue.items[0]]
    ensures st.storage.handled == st.queue.removed + [st.queue.items[0]]
    ensures forall coin :: C(ConsumerStep(st, w, coin), w).data == C(st, w).data
    ensures forall coin :: ConsumerStep(st, w, coin).queue.removed == st.dataMgr.handled
    ensures st.lock == Lock(HeldBy(w), false, false)
  {
    ReachableInv(m, st);
    HeadInHand(st, w, DataMgr);
    HeadInHand(st, w, Storage);
    assert C(st, w).data == st.queue.items[0];
  }

  // While one thread is about to unlink, both have the head in hand and have handled it.
  lemma HeadInHand(st: State, w: Who, v: Who)
    requires Inv(st) && C(st, w).pc.Remove?
    ensures st.queue.items != [] && C(st, v).data == st.queue.items[0]
    ensures C(st, v).handled == st.queue.removed + [st.queue.items[0]]
  {
    assert PhaseIn(st, w) == Inside(true);
    assert PhaseIn(st, v).Inside?;
    assert Keeps(C(st, v));
    assert C(st, v).handled == st.queue.inserted[..|st.queue.removed| + 1];
  }

  // This step is the second arrival at prep_barrier, which releases both threads.
  predicate ReleasesPrep(st: State, step: Step) {
    step.Consume? && C(st, step.who).pc.ToPrep? && SlotOf(st.prepBarrier, Peer(step.who)).Waiting?
  }

  // No other step releases it.
  lemma ReleaseIsSecondArrival(st: State, step: Step)
    requires Enabled(st, step)
    ensures ReleasesPrep(st, step) <==> Apply(st, step).prepBarrier.rounds == st.prepBarrier.rounds + 1
    ensures !ReleasesPrep(st, step) <==> Apply(st, step).prepBarrier.rounds == st.prepBarrier.rounds
  {
  }

  // The second arrival ends the round for both threads.
  lemma ReleaseEndsRound(st: State, step: Step)
    requires Inv(st) && Enabled(st, step) && ReleasesPrep(st, step)
    ensures PhaseIn(Apply(st, step), DataMgr) == Outside && PhaseIn(Apply(st, step), Storage) == Outside
  {
    assert Apply(st, step) == ArrivePrepStep(st, step.who, step.coin);
  }

  // Outside a round a consumer has handled exactly what has been removed, one measurement in each round.
  lemma EqualOutside(st: State)
    requires Inv(st)
    ensures PhaseIn(st, DataMgr) == Outside ==>
              st.dataMgr.handled == st.queue.removed && |st.queue.removed| == st.prepBarrier.rounds
    ensures PhaseIn(st, Storage) == Outside ==> st.storage.handled == st.queue.removed
  {
  }

  // When prep_barrier releases, both consumers have handled exactly what has been removed.
  lemma ReleaseFindsEqual(st: State, step: Step)
    requires Inv(st) && Enabled(st, step) && ReleasesPrep(st, step)
    ensures Inv(Apply(st, step))
    ensures var st' := Apply(st, step);
            && st'.dataMgr.handled == st'.queue.removed
            && st'.storage.handled == st'.queue.removed
            && |st'.queue.removed| == st'.prepBarrier.rounds
  {
    StepKeepsInv(st, step);
    ReleaseEndsRound(st, step);
    EqualOutside(Apply(st, step));
  }

  // The step that led here released prep_barrier.
  ghost predicate JustReleased(m: Manager, st: State) {
    exists before, step ::
      Reachable(m, before) && Enabled(before, step) && ReleasesPrep(before, step) && Apply(before, step) == st
  }

  lemma JustReleasedIsEqual(m: Manager, st: State)
    requires JustReleased(m, st)
    ensures Inv(st) && ManagerInv(m, st)
    ensures st.dataMgr.handled == st.queue.removed && st.storage.handled == st.queue.removed
    ensures |st.queue.removed| == st.prepBarrier.rounds
  {
    var before, step :|
      Reachable(m, before) && Enabled(before, step) && ReleasesPrep(before, step) && Apply(before, step) == st;
    ReachableInv(m, before);
    ReleaseFindsEqual(before, step);
    StepKeepsManager(m, before, step);
  }

  // Between two consecutive releases of prep_barrier one node is removed: the one that both consumers
  // handle between those releases, and the next one in the order of insertion.
  lemma OneRemovalPerRound(m: Manager, before: State, between: seq<Step>, last: Step)
    requires JustReleased(m, before) && CanRun(before, between)
    requires After(before, between).prepBarrier.rounds == before.prepBarrier.rounds
    requires Enabled(After(before, between), last) && ReleasesPrep(After(before, between), last)
    ensures var after := Apply(After(before, between), last);
            var n := |before.queue.removed|;
            && n < |after.queue.inserted|
            && after.queue.removed == before.queue.removed + [after.queue.inserted[n]]
            && after.dataMgr.handled == before.dataMgr.handled + [after.queue.inserted[n]]
            && after.storage.handled == before.storage.handled + [after.queue.inserted[n]]
  {
    var mid := After(before, between);
    JustReleasedIsEqual(m, before);
    RunKeepsInv(m, before, between);
    ReleaseFindsEqual(mid, last);
    QueueChanges(mid, last);
    Grew(before.queue, Apply(mid, last).queue);
  }

  lemma Grew(before: Queue, after: Queue)
    requires after.inserted == after.removed + after.items
    requires before.removed <= after.removed && |after.removed| == |before.removed| + 1
    ensures |before.removed| < |after.inserted|
    ensures after.removed == before.removed + [after.inserted[|before.removed|]]
  {
  }

  // The threads inside a section guarded by the write lock.
  predicate Writing(st: State, w: Who) {
    C(st, w).pc.Remove? || C(st, w).pc.RemovedHeld?
  }

  predicate Appending(st: State) {
    st.producer.Insert? || st.producer.InsertedHeld?
  }

  predicate Reading(st: State, w: Who) {
    C(st, w).pc.Read? || C(st, w).pc.EmptyHeld? || C(st, w).pc.DataHeld?
  }

  // No lock is held where the program assumes none is.
  predicate HoldsNoLock(st: State, w: Who) {
    st.lock.writer != HeldBy(w) && !Reads(st.lock, w)
  }

  predicate AssumesNoLock(pc: Pc) {
    pc.Test? || pc.ToLoop? || pc.AtLoop? || pc.ToPrep? || pc.AtPrep? || pc.Done?
  }

  // One writer at a time and no reader beside it; no lock is held at the loop test, at a barrier or
  // after the loop; the read lock that an empty read leaves held is released by the next instruction
  // of the caller, which nothing can block.
  lemma LockDiscipline(m: Manager, st: State, w: Who)
    requires Reachable(m, st)
    ensures Writing(st, w) ==> !Writing(st, Peer(w)) && !Appending(st) && !Reading(st, Peer(w)) && !Reading(st, w)
    ensures Appending(st) ==> !Writing(st, w) && !Reading(st, w)
    ensures AssumesNoLock(C(st, w).pc) ==> HoldsNoLock(st, w)
    ensures C(st, w).pc.EmptyHeld? ==>
              && Reads(st.lock, w)
              && ConsumerEnabled(st, w)
              && forall coin :: HoldsNoLock(ConsumerStep(st, w, coin), w)
    ensures st.producer.LoopTest? || st.producer.Poll? || st.producer.Scan? || st.producer.Check? || st.producer.Ended?
            ==> st.lock.writer != HeldByConnMgr
  {
    ReachableInv(m, st);
    assert st.lock.writer == HeldBy(DataMgr) <==> Writing(st, DataMgr);
    assert st.lock.writer == HeldBy(Storage) <==> Writing(st, Storage);
  }

  predicate WaitsAt(b: Barrier, w: Who) {
    SlotOf(b, w).Waiting?
  }

  // With both consumers in their loops some consumer can move, or the connection manager holds the
  // lock they need and can move; a thread waits at a barrier only for a peer that is not waiting at
  // the other one; the two barriers are never more than one round apart.
  lemma NoDeadlockWhileRunning(m: Manager, st: State)
    requires Reachable(m, st)
    requires !Starting(st.storage.pc) && !st.storage.pc.Done? && !st.dataMgr.pc.Done?
    ensures || ConsumerEnabled(st, DataMgr)
            || ConsumerEnabled(st, Storage)
            || (st.lock.writer == HeldByConnMgr && ProducerEnabled(st))
    ensures forall w :: WaitsAt(st.loopBarrier, w) ==>
              !WaitsAt(st.loopBarrier, Peer(w)) && !WaitsAt(st.prepBarrier, Peer(w))
    ensures forall w :: WaitsAt(st.prepBarrier, w) ==>
              !WaitsAt(st.loopBarrier, Peer(w)) && !WaitsAt(st.prepBarrier, Peer(w))
    ensures st.prepBarrier.rounds <= st.loopBarrier.rounds <= st.prepBarrier.rounds + 1
  {
    ReachableInv(m, st);
    forall w
      ensures WaitsAt(st.loopBarrier, w) ==> !WaitsAt(st.loopBarrier, Peer(w)) && !WaitsAt(st.prepBarrier, Peer(w))
      ensures WaitsAt(st.prepBarrier, w) ==> !WaitsAt(st.loopBarrier, Peer(w)) && !WaitsAt(st.prepBarrier, Peer(w))
    {
      assert PhaseIn(st, w).Inside? <==> PhaseIn(st, Peer(w)).Inside?;
    }
  }

  // In every interleaving the sensor table and the messages are those of handling, one after the
  // other, a prefix of what was inserted; with an unused sensor list they are decided by the windows.
  lemma DecisionsAreAFold(m: Manager, st: State)
    requires Reachable(m, st)
    ensures |st.dataMgr.handled| <= |st.queue.inserted|
    ensures st.manager == HandleAll(m, st.queue.inserted[..|st.dataMgr.handled|])
    ensures Unused(m.table) ==>
              st.manager.log == m.log + Decisions(m.limits, m.table, st.queue.inserted[..|st.dataMgr.handled|])
  {
    ReachableInv(m, st);
    assert st.dataMgr.handled == st.queue.inserted[..|st.dataMgr.handled|];
    if Unused(m.table) {
      LogClosedForm(m, st.dataMgr.handled);
    }
  }

  // Nothing is removed while the database is being opened, and the fallback is entered only after
  // three failed attempts and two waits; it then stores nothing.
  lemma RetainedWhileDatabaseDown(m: Manager, st: State)
    requires Reachable(m, st)
    ensures Starting(st.storage.pc) ==> st.queue.removed == [] && st.queue.items == st.queue.inserted
    ensures st.database.fallback || st.storage.pc.GiveUp? ==> st.database.failures == 3 && st.database.sleeps == 2
    ensures st.database.fallback ==> st.database.attempts == [] && !st.running
  {
    ReachableInv(m, st);
  }

  // The i-th measurement has been stored: the i-th insertion was of this one and succeeded.
  predicate Stored(st: State, i: nat) {
    && i < |st.queue.inserted| && i < |st.database.attempts|
    && st.database.attempts[i] == Attempt(st.queue.inserted[i], true)
  }

  // An insertion of something removed has failed.
  predicate Refused(st: State) {
    exists i :: 0 <= i < |st.queue.removed| && i < |st.database.attempts| && !st.database.attempts[i].ok
  }

  // All that is removed has been stored, exactly when nothing is removed, or fewer than three attempts to
  // open the database and none of these insertions have failed.
  lemma RemovedIsStoredExactlyWhen(m: Manager, st: State)
    requires Reachable(m, st)
    ensures (forall i :: 0 <= i < |st.queue.removed| ==> Stored(st, i)) <==>
            st.queue.removed == [] || (st.database.failures < 3 && !Refused(st))
  {
    ReachableInv(m, st);
    if st.database.fallback {
      assert st.queue.removed != [] ==> !Stored(st, 0);
    } else {
      AskedInOrder(st);
      if Refused(st) {
        var i :| 0 <= i < |st.queue.removed| && i < |st.database.attempts| && !st.database.attempts[i].ok;
        assert !Stored(st, i);
      } else {
        forall i | 0 <= i < |st.queue.removed| ensures Stored(st, i) {
          assert st.database.attempts[i].ok;
        }
      }
    }
  }

  // Without the fallback the insertions are of what storage has handled, which is all that is removed.
  lemma AskedInOrder(st: State)
    requires Inv(st) && !st.database.fallback
    ensures |st.queue.removed| <= |st.database.attempts|
    ensures forall i :: 0 <= i < |st.database.attempts| ==>
              i < |st.queue.inserted| && st.database.attempts[i].x == st.queue.inserted[i]
  {
    assert forall i :: 0 <= i < |st.database.attempts| ==> Asked(st.database.attempts)[i] == st.storage.handled[i];
  }

  // The table holds all that was handed to insert_sensor, in order, exactly when no insertion failed.
  lemma {:induction false} RowsComplete(attempts: seq<Attempt>)
    ensures |Rows(attempts)| <= |attempts|
    ensures Rows(attempts) == Asked(attempts) <==> forall i :: 0 <= i < |attempts| ==> attempts[i].ok
  {
    if attempts != [] {
      var front, last := attempts[..|attempts| - 1], attempts[|attempts| - 1];
      RowsComplete(front);
      assert Asked(attempts) == Asked(front) + [last.x];
      if last.ok {
        assert Rows(attempts) == Asked(attempts) ==> Rows(front) == Asked(front) by {
          if Rows(attempts) == Asked(attempts) {
            assert Rows(front) == Rows(attempts)[..|front|];
          }
        }
        assert forall i :: 0 <= i < |attempts| ==> attempts[i] == if i < |front| then front[i] else last;
      } else {
        assert |Rows(attempts)| < |Asked(attempts)|;
      }
    }
  }

  // ---------- The table, row for row ----------

  // A successful insertion adds a row, a failed one nothing; no insertion touches the rows there are.
  lemma {:induction false} RowsConcat(a: seq<Attempt>, b: seq<Attempt>)
    ensures Rows(a + b) == Rows(a) + Rows(b)
  {
    if b == [] {
      assert a + b == a;
    } else {
      var k := |b| - 1;
      RowsConcat(a, b[..k]);
      assert (a + b)[..|a + b| - 1] == a + b[..k];
    }
  }

  lemma RowsOne(x: Measurement)
    ensures Rows([Attempt(x, true)]) == [x]
    ensures Rows([Attempt(x, false)]) == []
  {
    assert [Attempt(x, true)][..0] == [] && [Attempt(x, false)][..0] == [];
  }

  // Did attempt number i succeed?
  function Succeeded(attempts: seq<Attempt>): (p: nat -> bool)
    ensures forall i: nat :: p(i) <==> i < |attempts| && attempts[i].ok
  {
    (i: nat) => i < |attempts| && attempts[i].ok
  }

  // The rows are those of exactly the attempts that succeeded, in order.
  lemma {:induction false} RowsSay(attempts: seq<Attempt>) returns (kept: seq<nat>)
    ensures Exactly(kept, 0, |attempts|, Succeeded(attempts))
    ensures |Rows(attempts)| == |kept| && forall j :: 0 <= j < |kept| ==> Rows(attempts)[j] == attempts[kept[j]].x
  {
    kept := [];
    if attempts != [] {
      var k := |attempts| - 1;
      var front := RowsSay(attempts[..k]);
      assert forall i :: 0 <= i < k ==> attempts[..k][i] == attempts[i];
      ExactlySnoc(front, 0, k, Succeeded(attempts[..k]), Succeeded(attempts));
      kept := front + if attempts[k].ok then [k] else [];
    }
  }

  // No step of any thread takes a row away.
  lemma {:induction false} RowsOnlyGrow(st: State, steps: seq<Step>)
    requires CanRun(st, steps)
    ensures st.database.attempts <= After(st, steps).database.attempts
    ensures Rows(st.database.attempts) <= Rows(After(st, steps).database.attempts)
    decreases |steps|
  {
    if steps != [] {
      var st' := Apply(st, steps[0]);
      AttemptsOnlyGrow(st, steps[0]);
      RowsOnlyGrow(st', steps[1..]);
    }
    var before, after := st.database.attempts, After(st, steps).database.attempts;
    RowsConcat(before, after[|before|..]);
    assert after == before + after[|before|..];
  }

  lemma AttemptsOnlyGrow(st: State, step: Step)
    requires Enabled(st, step)
    ensures st.database.attempts <= Apply(st, step).database.attempts
  {
  }

  // ---------- Who keeps whom waiting ----------

  // A consumer stands still only when it has left, when it waits at a barrier for a peer that is not inside
  // it, when it wants to read while another thread writes, or to write while another reads or writes. In
  // particular two consumers may read at the same time.
  lemma BlockedExactlyWhen(m: Manager, st: State, w: Who)
    requires Reachable(m, st)
    ensures var pc, peer := C(st, w).pc, Peer(w);
            !ConsumerEnabled(st, w) <==>
              || pc.Done?
              || (pc.AtLoop? && SlotOf(st.loopBarrier, w).Waiting?)
              || (pc.AtPrep? && SlotOf(st.prepBarrier, w).Waiting?)
              || (pc.WantRead? && (Writing(st, peer) || Appending(st)))
              || (pc.WantWrite? && (Writing(st, peer) || Reading(st, peer) || Appending(st)))
  {
    ReachableInv(m, st);
    if w.DataMgr? {
      LockSections(st, Storage);
    } else {
      LockSections(st, DataMgr);
    }
  }

  // The lock knows who is in a section.
  lemma LockSections(st: State, w: Who)
    requires Inv(st)
    ensures Reading(st, w) <==> Reads(st.lock, w)
    ensures Writing(st, w) <==> st.lock.writer == HeldBy(w)
    ensures Appending(st) <==> st.lock.writer == HeldByConnMgr
  {
  }

  predicate HoldsLock(st: State, w: Who) {
    Reading(st, w) || Writing(st, w)
  }

  // The connection manager stands still only when it has ended or wants to insert while a consumer is in a
  // section of the lock.
  lemma ProducerBlockedExactlyWhen(m: Manager, st: State)
    requires Reachable(m, st)
    ensures !ProducerEnabled(st) <==>
              || st.producer.Ended?
              || (st.producer.WantInsert? &&
                  exists w :: HoldsLock(st, w))
  {
    ReachableInv(m, st);
    LockSections(st, DataMgr);
    LockSections(st, Storage);
    assert Free(st.lock) || HoldsLock(st, DataMgr) || HoldsLock(st, Storage) || st.lock.writer == HeldByConnMgr;
    assert HoldsLock(st, DataMgr) || HoldsLock(st, Storage) ==> !Free(st.lock);
    assert forall w :: HoldsLock(st, w) ==> w == DataMgr || w == Storage;
  }
}
