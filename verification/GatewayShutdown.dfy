/**
 What happens once thread_result_connmgr has been cleared (main.c:16, main.c:76).

 Every run from there is finite. Whether it ends with everything handled is decided by a condition on
 the state at the clear, and the two halves of that condition are both needed: DrainsExactlyWhen.
 */
module GatewayShutdown {
  import opened Measurements
  import opened ListSpec
  import opened SensorWindow
  import opened Gateway
  import opened GatewaySafety

  // ---------- Every run is finite ----------

  // An upper bound on what the connection manager can still do, with room for what it can still append.
  function ProducerRank(p: ProducerPc): nat {
    match p
    case LoopTest => 2
    case Poll(size) => 72 * size + 4
    case Scan(ready) => 72 * |ready| + 3
    case WantInsert(_, ready) => 72 * |ready| + 71
    case Insert(_, ready) => 72 * |ready| + 70
    case InsertedHeld(ready) => 72 * |ready| + 5
    case Check(ready) => 72 * |ready| + 4
    case ClearFlag => 1
    case Ended => 0
  }

  // An upper bound on the steps of a consumer until the next removal, or until it leaves.
  function ConsumerRank(c: Consumer, loopSlot: Slot, prepSlot: Slot, pending: bool, running: bool): nat {
    match c.pc
    case Connect(tries) => if tries < NR_OF_TRIES then 30 - 2 * tries else 30
    case Sleep(tries) => if tries < NR_OF_TRIES then 29 - 2 * tries else 29
    case GiveUp => 25
    case RemovedHeld => 17
    case ToPrep => if pending then 2 else 16
    case AtPrep => if prepSlot.Released? then 14 else if pending then 1 else 15
    case Test => if c.result == NoData && !running then 1 else 13
    case WantRead => 12
    case Read => 11
    case EmptyHeld => 2
    case DataHeld => 10
    case Work => 9
    case ToLoop => 8
    case AtLoop => if loopSlot.Waiting? then 7 else if loopSlot == Released(true) || pending then 6 else 17
    case WantWrite => 5
    case Remove => 4
    case Done => 0
  }

  predicate RemovalPending(st: State) {
    PhaseIn(st, DataMgr) == Inside(true) || PhaseIn(st, Storage) == Inside(true)
  }

  function RankIn(st: State, w: Who): nat {
    ConsumerRank(C(st, w), SlotOf(st.loopBarrier, w), SlotOf(st.prepBarrier, w), RemovalPending(st), st.running)
  }

  // Each measurement in the buffer costs one round.
  function StepsLeft(st: State): nat {
    ProducerRank(st.producer) + 64 * |st.queue.items| + RankIn(st, DataMgr) + RankIn(st, Storage)
  }

  lemma ProducerUsesUp(st: State, choice: Choice)
    requires !st.running && ProducerEnabled(st)
    ensures StepsLeft(ProducerStep(st, choice)) < StepsLeft(st)
    ensures !ProducerStep(st, choice).running
  {
    var st' := ProducerStep(st, choice);
    assert RankIn(st', DataMgr) == RankIn(st, DataMgr) && RankIn(st', Storage) == RankIn(st, Storage);
  }

  lemma StartupUsesUp(st: State, w: Who, coin: bool)
    requires Inv(st) && !st.running && ConsumerEnabled(st, w) && Starting(C(st, w).pc)
    ensures StepsLeft(ConsumerStep(st, w, coin)) < StepsLeft(st)
  {
    assert w == Storage;
  }

  lemma ReadingUsesUp(st: State, w: Who)
    ensures C(st, w).pc.Test? ==> StepsLeft(TestStep(st, w)) < StepsLeft(st)
    ensures C(st, w).pc.WantRead? ==> StepsLeft(LockReadStep(st, w)) < StepsLeft(st)
    ensures C(st, w).pc.Read? ==> StepsLeft(ReadStep(st, w)) < StepsLeft(st)
  {
  }

  lemma HandlingUsesUp(st: State, w: Who, ok: bool)
    ensures C(st, w).pc.EmptyHeld? && C(st, w).result == NoData && !st.running
            ==> StepsLeft(UnlockEmptyStep(st, w)) < StepsLeft(st)
    ensures C(st, w).pc.DataHeld? ==> StepsLeft(UnlockDataStep(st, w)) < StepsLeft(st)
    ensures C(st, w).pc.Work? ==> StepsLeft(WorkStep(st, w, ok)) < StepsLeft(st)
  {
  }

  lemma LoopBarrierUsesUp(st: State, w: Who, serial: bool)
    requires !SlotOf(st.loopBarrier, Peer(w)).Waiting? || C(st, Peer(w)).pc.AtLoop?
    ensures C(st, w).pc.ToLoop? ==> StepsLeft(ArriveLoopStep(st, w, serial)) < StepsLeft(st)
    ensures C(st, w).pc.AtLoop? && SlotOf(st.loopBarrier, w).Released?
            ==> StepsLeft(LeaveLoopStep(st, w)) < StepsLeft(st)
  {
  }

  lemma RemovalUsesUp(st: State, w: Who)
    ensures C(st, w).pc.WantWrite? ==> StepsLeft(LockWriteStep(st, w)) < StepsLeft(st)
    ensures C(st, w).pc.Remove? && st.queue.items != [] ==> StepsLeft(RemoveStep(st, w)) < StepsLeft(st)
    ensures C(st, w).pc.RemovedHeld? ==> StepsLeft(UnlockWriteStep(st, w)) < StepsLeft(st)
  {
  }

  lemma PrepBarrierUsesUp(st: State, w: Who, serial: bool)
    requires !SlotOf(st.prepBarrier, Peer(w)).Waiting? || (C(st, Peer(w)).pc.AtPrep? && !RemovalPending(st))
    ensures C(st, w).pc.ToPrep? ==> StepsLeft(ArrivePrepStep(st, w, serial)) < StepsLeft(st)
    ensures C(st, w).pc.AtPrep? && SlotOf(st.prepBarrier, w).Released? && C(st, w).result == Success
            ==> StepsLeft(LeavePrepStep(st, w)) < StepsLeft(st)
  {
  }

  lemma StaysCleared(st: State, step: Step)
    requires Enabled(st, step) && !st.running
    ensures !Apply(st, step).running
  {
  }

  // Once the flag is cleared it stays cleared and every step uses up some of a finite number, although
  // the connection manager may still append.
  lemma StepUsesUp(st: State, step: Step)
    requires Inv(st) && !st.running && Enabled(st, step)
    ensures !Apply(st, step).running
    ensures StepsLeft(Apply(st, step)) < StepsLeft(st)
  {
    StaysCleared(st, step);
    match step
    case Produce(choice) => ProducerUsesUp(st, choice);
    case Consume(w, coin) => ConsumerUsesUp(st, w, coin);
  }

  // While the flag is set the same holds of a consumer in its loop that does not find the buffer empty.
  lemma ConsumerUsesUp(st: State, w: Who, coin: bool)
    requires Inv(st) && ConsumerEnabled(st, w)
    requires st.running ==> !Starting(C(st, w).pc) && !C(st, w).pc.EmptyHeld?
    ensures StepsLeft(ConsumerStep(st, w, coin)) < StepsLeft(st)
  {
    assert DataInv(C(st, w), st.queue.items, st.running);
    match C(st, w).pc
    case Connect(_) => StartupUsesUp(st, w, coin);
    case Sleep(_) => StartupUsesUp(st, w, coin);
    case GiveUp => StartupUsesUp(st, w, coin);
    case Test => ReadingUsesUp(st, w);
    case WantRead => ReadingUsesUp(st, w);
    case Read => ReadingUsesUp(st, w);
    case EmptyHeld => HandlingUsesUp(st, w, coin);
    case DataHeld => HandlingUsesUp(st, w, coin);
    case Work => HandlingUsesUp(st, w, coin);
    case ToLoop => LoopBarrierUsesUp(st, w, coin);
    case AtLoop => LoopBarrierUsesUp(st, w, coin);
    case WantWrite => RemovalUsesUp(st, w);
    case Remove => HeadInHand(st, w, w); RemovalUsesUp(st, w);
    case RemovedHeld => RemovalUsesUp(st, w);
    case ToPrep => PeerWaits(st, w); PrepBarrierUsesUp(st, w, coin);
    case AtPrep => PeerWaits(st, w); PrepBarrierUsesUp(st, w, coin);
  }

  // A peer waits at prep_barrier only after the removal, once this thread has got that far too.
  lemma PeerWaits(st: State, w: Who)
    requires Inv(st) && (C(st, w).pc.ToPrep? || C(st, w).pc.AtPrep?)
    ensures SlotOf(st.prepBarrier, Peer(w)).Waiting? ==> C(st, Peer(w)).pc.AtPrep? && !RemovalPending(st)
  {
    if SlotOf(st.prepBarrier, Peer(w)).Waiting? {
      assert PhaseIn(st, Peer(w)) == Inside(false);
      assert PhaseIn(st, w) == Inside(false);
    }
  }

  // The length of any run from a cleared flag is bounded.
  lemma {:induction false} EveryRunEnds(st: State, steps: seq<Step>)
    requires Inv(st) && !st.running && CanRun(st, steps)
    ensures |steps| + StepsLeft(After(st, steps)) <= StepsLeft(st)
    ensures Inv(After(st, steps)) && !After(st, steps).running
    decreases |steps|
  {
    if steps != [] {
      StepUsesUp(st, steps[0]);
      StepKeepsInv(st, steps[0]);
      EveryRunEnds(Apply(st, steps[0]), steps[1..]);
    }
  }

  // A run that goes on until no thread can move.
  lemma {:induction false} RunToTheEnd(st: State) returns (steps: seq<Step>)
    requires Inv(st) && !st.running
    ensures CanRun(st, steps) && Terminal(After(st, steps))
    decreases StepsLeft(st)
  {
    if Terminal(st) {
      steps := [];
    } else {
      var step :| Enabled(st, step);
      StepUsesUp(st, step);
      StepKeepsInv(st, step);
      var rest := RunToTheEnd(Apply(st, step));
      steps := [step] + rest;
      RunCons(st, step, rest);
    }
  }

  // ---------- How a run ends ----------

  // Both consumers have left their loops with everything handled and nothing left in the buffer.
  predicate Drained(st: State) {
    && st.dataMgr.pc.Done? && st.storage.pc.Done?
    && st.queue.items == []
    && st.dataMgr.handled == st.queue.inserted
    && st.storage.handled == st.queue.inserted
  }

  // This consumer has left its loop or is about to, having last found the buffer empty.
  predicate Leaving(st: State, w: Who) {
    (C(st, w).pc.Test? || C(st, w).pc.Done?) && C(st, w).result == NoData
  }

  predicate SomeoneLeaving(st: State) {
    Leaving(st, DataMgr) || Leaving(st, Storage)
  }

  // When no consumer can move and the lock is not held by the connection manager: both have left, or
  // one has left and the other waits for it at loop_barrier for ever.
  lemma ConsumersStuck(st: State)
    requires Inv(st) && st.lock.writer != HeldByConnMgr
    requires !ConsumerEnabled(st, DataMgr) && !ConsumerEnabled(st, Storage)
    ensures exists w :: C(st, w).pc.Done? && (C(st, Peer(w)).pc.Done? || SlotOf(st.loopBarrier, Peer(w)).Waiting?)
  {
    if st.dataMgr.pc.Done? {
      assert C(st, DataMgr).pc.Done?;
    } else {
      assert C(st, Storage).pc.Done?;
    }
  }

  lemma TerminalShape(st: State)
    requires Inv(st) && !st.running && Terminal(st)
    ensures st.producer.Ended?
    ensures exists w :: C(st, w).pc.Done? && (C(st, Peer(w)).pc.Done? || SlotOf(st.loopBarrier, Peer(w)).Waiting?)
  {
    assert !Enabled(st, Produce(Go));
    assert !Enabled(st, Consume(DataMgr, false)) && !Enabled(st, Consume(Storage, false));
    assert !ConsumerEnabled(st, DataMgr) && !ConsumerEnabled(st, Storage);
    assert !ProducerEnabled(st);
  }

  // ---------- The condition ----------

  // The connection manager can still append a measurement that no consumer must wait for.
  predicate MayInsert(p: ProducerPc) {
    match p
    case Poll(size) => 0 < size
    case Scan(ready) => true in ready
    case WantInsert(_, _) => true
    case Insert(_, ready) => true in ready
    case InsertedHeld(ready) => true in ready
    case Check(ready) => true in ready
    case _ => false
  }

  // With the flag cleared: nothing more will be appended, and no consumer is leaving while something
  // is in the buffer, or about to be under a lock that is already held.
  predicate Safe(st: State) {
    && !MayInsert(st.producer)
    && (SomeoneLeaving(st) ==> st.queue.items == [] && !st.producer.Insert?)
  }

  lemma StuckIsTerminal(st: State)
    requires !ProducerEnabled(st) && !ConsumerEnabled(st, DataMgr) && !ConsumerEnabled(st, Storage)
    ensures Terminal(st)
  {
    forall step ensures !Enabled(st, step) {
      match step
      case Produce(_) =>
      case Consume(w, _) => assert w == DataMgr || w == Storage;
    }
  }

  // A stuck state that is not drained is a run that does not drain.
  lemma StuckFails(st: State)
    requires Terminal(st) && !Drained(st)
    ensures !AllRunsDrain(st)
  {
    assert CanRun(st, []) && After(st, []) == st;
  }

  // Every run that goes on as long as it can ends with everything handled.
  ghost predicate AllRunsDrain(st: State) {
    forall steps :: CanRun(st, steps) && Terminal(After(st, steps)) ==> Drained(After(st, steps))
  }

  // ---------- Sufficient ----------

  lemma SafeStaysSafe(st: State, step: Step)
    requires Inv(st) && !st.running && Safe(st) && Enabled(st, step)
    ensures Safe(Apply(st, step))
  {
    match step
    case Produce(choice) => ProducerStaysSafe(st, choice);
    case Consume(w, coin) =>
      QueueChanges(st, step);
      LeavingStep(st, w, coin);
      ConsumerTouches(st, w, coin);
      assert SomeoneLeaving(Apply(st, step)) ==> Leaving(Apply(st, step), w) || Leaving(Apply(st, step), Peer(w));
  }

  lemma ProducerStaysSafe(st: State, choice: Choice)
    requires !st.running && Safe(st) && ProducerEnabled(st)
    ensures Safe(ProducerStep(st, choice))
  {
    var st' := ProducerStep(st, choice);
    assert SomeoneLeaving(st') == SomeoneLeaving(st);
  }

  lemma ConsumerTouches(st: State, w: Who, coin: bool)
    requires ConsumerEnabled(st, w)
    ensures C(ConsumerStep(st, w, coin), Peer(w)) == C(st, Peer(w))
    ensures ConsumerStep(st, w, coin).producer == st.producer
  {
  }

  // A consumer starts to leave only by finding the buffer empty under its read lock.
  lemma LeavingStep(st: State, w: Who, coin: bool)
    requires Inv(st) && ConsumerEnabled(st, w)
    ensures Leaving(ConsumerStep(st, w, coin), w) ==>
              || Leaving(st, w)
              || (st.queue.items == [] && !st.producer.Insert?)
  {
  }

  // A thread waits at loop_barrier with the head of the buffer in hand.
  lemma HeadAwaited(st: State, w: Who)
    requires Inv(st)
    ensures SlotOf(st.loopBarrier, w).Waiting? ==> st.queue.items != []
  {
    assert SlotOf(st.loopBarrier, w).Waiting? ==> PhaseIn(st, w) == Arrived;
  }

  lemma SafeEndIsDrained(st: State)
    requires Inv(st) && !st.running && Safe(st) && Terminal(st)
    ensures Drained(st)
  {
    TerminalShape(st);
    var w :| C(st, w).pc.Done? && (C(st, Peer(w)).pc.Done? || SlotOf(st.loopBarrier, Peer(w)).Waiting?);
    assert Leaving(st, w);
    assert SomeoneLeaving(st);
    HeadAwaited(st, Peer(w));
    EqualOutside(st);
  }

  lemma {:induction false} SafeRunsDrain(st: State, steps: seq<Step>)
    requires Inv(st) && !st.running && Safe(st) && CanRun(st, steps)
    ensures Terminal(After(st, steps)) ==> Drained(After(st, steps))
    decreases |steps|
  {
    if steps == [] {
      if Terminal(st) {
        SafeEndIsDrained(st);
      }
    } else {
      StepUsesUp(st, steps[0]);
      StepKeepsInv(st, steps[0]);
      SafeStaysSafe(st, steps[0]);
      SafeRunsDrain(Apply(st, steps[0]), steps[1..]);
    }
  }

  // ---------- Necessary ----------

  // Something is in the buffer that a leaving consumer will not handle.
  predicate Doomed(st: State) {
    st.queue.items != [] && SomeoneLeaving(st)
  }

  lemma DoomedStaysDoomed(st: State, step: Step)
    requires Inv(st) && !st.running && Doomed(st) && Enabled(st, step)
    ensures Doomed(Apply(st, step))
  {
    var w := if Leaving(st, DataMgr) then DataMgr else Storage;
    assert PhaseIn(st, w) == Outside;
    assert C(st, Peer(w)).pc.Remove? ==> PhaseIn(st, Peer(w)).Inside?;
    assert PhaseIn(st, Peer(w)).Inside? <==> PhaseIn(st, w).Inside?;
    QueueChanges(st, step);
    match step
    case Produce(_) =>
      assert C(Apply(st, step), w) == C(st, w);
    case Consume(v, coin) =>
      if v == w {
        assert Leaving(TestStep(st, w), w);
      } else {
        assert C(Apply(st, step), w) == C(st, w);
      }
  }

  lemma {:induction false} DoomedRunsFail(st: State, steps: seq<Step>)
    requires Inv(st) && !st.running && Doomed(st) && CanRun(st, steps)
    ensures !Drained(After(st, steps))
    decreases |steps|
  {
    if steps != [] {
      StepUsesUp(st, steps[0]);
      StepKeepsInv(st, steps[0]);
      DoomedStaysDoomed(st, steps[0]);
      DoomedRunsFail(Apply(st, steps[0]), steps[1..]);
    }
  }

  // While something can still be appended there is a schedule that lets the consumers leave first.
  lemma {:induction false} InsertTooLate(st: State) returns (steps: seq<Step>)
    requires Inv(st) && !st.running && MayInsert(st.producer)
    ensures CanRun(st, steps) && Doomed(After(st, steps))
    decreases StepsLeft(st)
  {
    if st.producer.WantInsert? && !ConsumerEnabled(st, DataMgr) && !ConsumerEnabled(st, Storage) {
      steps := AppendToLeft(st);
    } else {
      var step := Dawdle(st);
      StepUsesUp(st, step);
      StepKeepsInv(st, step);
      var rest := InsertTooLate(Apply(st, step));
      steps := [step] + rest;
      RunCons(st, step, rest);
    }
  }

  // The step that brings that schedule nearer: the connection manager up to its request for the lock,
  // then the consumers.
  lemma Dawdle(st: State) returns (step: Step)
    requires MayInsert(st.producer)
    requires st.producer.WantInsert? ==> ConsumerEnabled(st, DataMgr) || ConsumerEnabled(st, Storage)
    ensures Enabled(st, step) && MayInsert(Apply(st, step).producer)
  {
    if st.producer.WantInsert? {
      step := if ConsumerEnabled(st, DataMgr) then Consume(DataMgr, false) else Consume(Storage, false);
      ConsumerTouches(st, step.who, false);
    } else {
      var choice := match st.producer
        case Poll(size) => Ready(seq(size, k => true))
        case Scan(_) => Data(Measurement(0, 0.0, 0))
        case _ => Go;
      step := Produce(choice);
      StaysReady(st.producer, choice);
    }
  }

  // A connection that poll found ready stays so until the scan reaches it.
  lemma StaysReady(p: ProducerPc, choice: Choice)
    requires MayInsert(p) && !p.WantInsert?
    requires match p
             case Poll(size) => choice == Ready(seq(size, k => true))
             case Scan(_) => choice.Data?
             case _ => choice == Go
    ensures MayInsert(NextPc(p, choice))
  {
    match p
    case Poll(size) => assert Found(size, choice)[0];
    case Scan(ready) => assert ready == [ready[0]] + ready[1..];
    case _ =>
  }

  // The append that comes after a consumer has left.
  lemma AppendToLeft(st: State) returns (steps: seq<Step>)
    requires Inv(st) && !st.running && st.producer.WantInsert?
    requires !ConsumerEnabled(st, DataMgr) && !ConsumerEnabled(st, Storage)
    ensures CanRun(st, steps) && Doomed(After(st, steps))
  {
    ConsumersStuck(st);
    var go := Produce(Go);
    assert Free(st.lock);
    var st1 := Apply(st, go);
    var st2 := Apply(st1, go);
    steps := [go] + [go];
    RunOne(st1, go);
    RunCons(st, go, [go]);
    var w :| C(st, w).pc.Done?;
    assert Leaving(st2, w);
  }

  lemma UnsafeCanFail(st: State) returns (steps: seq<Step>)
    requires Inv(st) && !st.running && !Safe(st)
    ensures CanRun(st, steps) && Terminal(After(st, steps)) && !Drained(After(st, steps))
  {
    var first: seq<Step>;
    if MayInsert(st.producer) {
      first := InsertTooLate(st);
    } else if st.queue.items != [] {
      first := [];
    } else {
      var go := Produce(Go);
      first := [go];
      RunOne(st, go);
    }
    EveryRunEnds(st, first);
    var mid := After(st, first);
    assert Doomed(mid);
    var rest := RunToTheEnd(mid);
    DoomedRunsFail(mid, rest);
    RunConcat(st, first, rest);
    steps := first + rest;
  }

  // ---------- The theorem ----------

  // From a cleared flag every run ends drained exactly when the state is safe: nothing more can be
  // appended, and no consumer is leaving past a measurement.
  lemma DrainsExactlyWhen(m: Manager, st: State)
    requires Reachable(m, st) && !st.running
    ensures AllRunsDrain(st) <==> Safe(st)
  {
    ReachableInv(m, st);
    if Safe(st) {
      forall steps | CanRun(st, steps) && Terminal(After(st, steps))
        ensures Drained(After(st, steps))
      {
        SafeRunsDrain(st, steps);
      }
    } else {
      var steps := UnsafeCanFail(st);
    }
  }

  // The ordinary shutdown (main.c:16): the clear drains exactly when no consumer stands at its loop
  // test with NO_DATA from before the last insertion.
  lemma OrdinaryShutdown(m: Manager, st: State, step: Step)
    requires Reachable(m, st) && st.running && st.producer.ClearFlag? && step.Produce?
    ensures AllRunsDrain(Apply(st, step)) <==>
            (st.queue.items == [] ||
             forall w :: C(st, w).pc.Test? ==> C(st, w).result == Success)
  {
    ReachableInv(m, st);
    ReachableStep(m, st, step);
    DrainsExactlyWhen(m, Apply(st, step));
    assert C(st, DataMgr) == st.dataMgr && C(st, Storage) == st.storage;
  }

  // Shutdown after a lost database (main.c:76): the clear drains exactly when the connection manager
  // is between two scans or past its last connection, and the data manager is not leaving past a
  // measurement.
  lemma FallbackShutdown(m: Manager, st: State, step: Step)
    requires Reachable(m, st) && st.running && st.storage.pc.GiveUp? && step.Consume? && step.who.Storage?
    ensures AllRunsDrain(Apply(st, step)) <==>
            && !MayInsert(st.producer)
            && (st.dataMgr.pc.Test? && st.dataMgr.result == NoData ==> st.queue.items == [] && !st.producer.Insert?)
  {
    ReachableInv(m, st);
    ReachableStep(m, st, step);
    DrainsExactlyWhen(m, Apply(st, step));
  }

  // What a drained gateway leaves behind: unless the database was given up, every measurement received has
  // been handed to insert_sensor once, in order, and has been stored exactly when nothing went wrong there;
  // and every message is the one that its sensor's window called for.
  lemma DrainedOutcome(m: Manager, st: State)
    requires Reachable(m, st) && Drained(st) && Unused(m.table)
    ensures st.manager.log == m.log + Decisions(m.limits, m.table, st.queue.inserted)
    ensures forall i :: 0 <= i < |m.table| && IndexOfId(m.table, m.table[i].id) == i ==>
              |st.manager.table| == |m.table| &&
              st.manager.table[i] == EntryAfter(m.limits.length, m.table[i], st.queue.inserted)
    ensures !st.database.fallback ==>
              && Asked(st.database.attempts) == st.queue.inserted
              && (Rows(st.database.attempts) == st.queue.inserted <==> !Refused(st))
    ensures st.queue.removed == st.queue.inserted
    ensures (forall i :: 0 <= i < |st.queue.inserted| ==> Stored(st, i)) <==>
            st.queue.inserted == [] || (st.database.failures < 3 && !Refused(st))
  {
    ReachableInv(m, st);
    RemovedIsStoredExactlyWhen(m, st);
    RowsComplete(st.database.attempts);
    LogClosedForm(m, st.queue.inserted);
    forall i | 0 <= i < |m.table| && IndexOfId(m.table, m.table[i].id) == i
      ensures |st.manager.table| == |m.table|
      ensures st.manager.table[i] == EntryAfter(m.limits.length, m.table[i], st.queue.inserted)
    {
      TableClosedForm(m, st.queue.inserted, i);
    }
  }

  // The table of a drained gateway whose database was not given up: what was inserted without what was
  // refused, in order.
  lemma DrainedTable(m: Manager, st: State) returns (kept: seq<nat>)
    requires Reachable(m, st) && Drained(st) && !st.database.fallback
    ensures |st.database.attempts| == |st.queue.inserted|
    ensures Exactly(kept, 0, |st.queue.inserted|, Succeeded(st.database.attempts))
    ensures var rows := Rows(st.database.attempts);
            |rows| == |kept| && forall j :: 0 <= j < |kept| ==> rows[j] == st.queue.inserted[kept[j]]
  {
    ReachableInv(m, st);
    AskedInOrder(st);
    assert |Asked(st.database.attempts)| == |st.database.attempts|;
    kept := RowsSay(st.database.attempts);
  }

  // ---------- A run that does not drain ----------

  // The next step of one consumer.
  lemma Moves(m: Manager, st: State, w: Who, coin: bool) returns (st': State)
    requires Reachable(m, st) && ConsumerEnabled(st, w)
    ensures Reachable(m, st') && st' == ConsumerStep(st, w, coin)
  {
    ReachableStep(m, st, Consume(w, coin));
    st' := ConsumerStep(st, w, coin);
  }

  lemma Produces(m: Manager, st: State, choice: Choice) returns (st': State)
    requires Reachable(m, st) && ProducerEnabled(st)
    ensures Reachable(m, st') && st' == ProducerStep(st, choice)
  {
    ReachableStep(m, st, Produce(choice));
    st' := ProducerStep(st, choice);
  }

  // The data manager finds the buffer empty and is then held up at its loop test.
  lemma EmptyRead(m: Manager, x: Measurement) returns (st: State)
    ensures Reachable(m, st)
    ensures st == Init(m, x).(dataMgr := Consumer(Test, NoData, x, []), storage := Consumer(Test, Success, x, []))
  {
    assert CanRun(Init(m, x), []) && After(Init(m, x), []) == Init(m, x);
    st := Init(m, x);
    st := Moves(m, st, Storage, true);
    st := Moves(m, st, DataMgr, false);
    st := Moves(m, st, DataMgr, false);
    st := Moves(m, st, DataMgr, false);
    st := Moves(m, st, DataMgr, false);
  }

  // The connection manager receives a measurement from its only connection and asks for the lock.
  lemma Arrives(m: Manager, st0: State, x: Measurement) returns (st: State)
    requires Reachable(m, st0) && st0.running && st0.producer.LoopTest?
    ensures Reachable(m, st) && st == st0.(producer := WantInsert(x, []))
  {
    st := Produces(m, st0, Size(1));
    st := Produces(m, st, Ready([true]));
    assert Found(1, Ready([true])) == [true] && [true][1..] == [];
    st := Produces(m, st, Data(x));
  }

  // It inserts what it has and closes the connection.
  lemma InsertsAndCloses(m: Manager, x: Measurement, st0: State) returns (st: State)
    requires Reachable(m, st0) && st0.producer == WantInsert(x, []) && Free(st0.lock)
    ensures Reachable(m, st) && st == st0.(producer := LoopTest, queue := Append(st0.queue, x))
  {
    st := Produces(m, st0, Go);
    st := Produces(m, st, Go);
    st := Produces(m, st, Go);
    st := Produces(m, st, Leave);
  }

  // Meanwhile the last measurement arrives, the connection closes and the flag is cleared.
  lemma LastInsert(m: Manager, x: Measurement, st0: State) returns (st: State)
    requires Reachable(m, st0)
    requires st0 == Init(m, x).(dataMgr := Consumer(Test, NoData, x, []), storage := Consumer(Test, Success, x, []))
    ensures Reachable(m, st)
    ensures st == st0.(running := false, producer := Ended, queue := Queue([x], [x], []))
  {
    st := Arrives(m, st0, x);
    st := InsertsAndCloses(m, x, st);
    st := Produces(m, st, Size(0));
    st := Produces(m, st, Leave);
    st := Produces(m, st, Go);
  }

  // The data manager leaves without it.
  lemma Leaves(m: Manager, x: Measurement, st0: State) returns (st: State)
    requires Reachable(m, st0)
    requires st0 == Init(m, x).(running := false, producer := Ended, queue := Queue([x], [x], []),
                                dataMgr := Consumer(Test, NoData, x, []), storage := Consumer(Test, Success, x, []))
    ensures Reachable(m, st)
    ensures st == st0.(dataMgr := Consumer(Done, NoData, x, []), storage := Consumer(Work, Success, x, []))
  {
    st := Moves(m, st0, DataMgr, false);
    st := Moves(m, st, Storage, false);
    st := Moves(m, st, Storage, false);
    st := Moves(m, st, Storage, false);
    st := Moves(m, st, Storage, false);
  }

  // The storage manager stores the last measurement and waits for the data manager for ever.
  lemma StrandedStorage(m: Manager, x: Measurement) returns (st: State)
    ensures Reachable(m, st) && !st.running && Terminal(st)
    ensures st.dataMgr.pc.Done? && st.dataMgr.handled == []
    ensures WaitsAt(st.loopBarrier, Storage) && st.queue.items == [x]
    ensures !AllRunsDrain(st)
  {
    st := EmptyRead(m, x);
    st := LastInsert(m, x, st);
    st := Leaves(m, x, st);
    st := WaitsForEver(m, x, st);
    StuckFails(st);
  }

  lemma WaitsForEver(m: Manager, x: Measurement, st0: State) returns (st: State)
    requires Reachable(m, st0) && st0.producer.Ended? && st0.dataMgr.pc.Done? && st0.storage.pc.Work?
    requires !st0.running && st0.loopBarrier == Barrier(Out, Out, 0)
    ensures Reachable(m, st) && Terminal(st) && WaitsAt(st.loopBarrier, Storage)
    ensures st.dataMgr == st0.dataMgr && st.queue == st0.queue && !st.running
  {
    st := Moves(m, st0, Storage, false);
    st := Moves(m, st, Storage, false);
    assert C(st, Storage) == st.storage && SlotOf(st.loopBarrier, Storage).Waiting?;
    StuckIsTerminal(st);
  }

  // ---------- A run that discards a measurement ----------

  // A measurement arrives before anything else.
  lemma FirstInsert(m: Manager, x: Measurement) returns (st: State)
    ensures Reachable(m, st)
    ensures st == Init(m, x).(queue := Queue([x], [x], []))
  {
    assert CanRun(Init(m, x), []) && After(Init(m, x), []) == Init(m, x);
    st := Arrives(m, Init(m, x), x);
    st := InsertsAndCloses(m, x, st);
  }

  // The database cannot be opened three times.
  lemma GivenUp(m: Manager, st0: State) returns (st: State)
    requires Reachable(m, st0) && st0.storage.pc == Connect(0) && st0.database == Database([], false, 0, 0)
    ensures Reachable(m, st)
    ensures st == st0.(running := false, database := Database([], true, 3, 2), storage := st0.storage.(pc := Test))
  {
    st := AboutToGiveUp(m, st0);
    st := Moves(m, st, Storage, false);
  }

  lemma AboutToGiveUp(m: Manager, st0: State) returns (st: State)
    requires Reachable(m, st0) && st0.storage.pc == Connect(0) && st0.database == Database([], false, 0, 0)
    ensures Reachable(m, st)
    ensures st == st0.(database := Database([], false, 3, 2), storage := st0.storage.(pc := GiveUp))
  {
    st := Moves(m, st0, Storage, false);
    st := Moves(m, st, Storage, false);
    st := Moves(m, st, Storage, false);
    st := Moves(m, st, Storage, false);
    st := Moves(m, st, Storage, false);
  }

  // One consumer reads the head and goes on to loop_barrier; ok says whether an insertion succeeds.
  lemma ReadsHead(m: Manager, st0: State, w: Who, x: Measurement, ok: bool) returns (st: State)
    requires Reachable(m, st0) && C(st0, w) == Consumer(Test, Success, x, [])
    requires st0.queue.items == [x] && Free(st0.lock)
    ensures Reachable(m, st)
    ensures C(st, w) == Consumer(ToLoop, Success, x, [x]) && C(st, Peer(w)) == C(st0, Peer(w))
    ensures st.queue == st0.queue && st.lock == st0.lock
    ensures st.loopBarrier == st0.loopBarrier && st.prepBarrier == st0.prepBarrier
    ensures st.database ==
            if st0.database.fallback || w.DataMgr? then st0.database
            else st0.database.(attempts := st0.database.attempts + [Attempt(x, ok)])
  {
    st := Moves(m, st0, w, false);
    st := Moves(m, st, w, false);
    st := Moves(m, st, w, false);
    st := Moves(m, st, w, false);
    st := Moves(m, st, w, ok);
  }

  // Both consumers read the only measurement, and one of them takes it out of the buffer.
  lemma OneRound(m: Manager, st0: State, x: Measurement, ok: bool) returns (st: State)
    requires Reachable(m, st0) && st0.queue == Queue([x], [x], []) && Free(st0.lock)
    requires st0.dataMgr == st0.storage == Consumer(Test, Success, x, [])
    requires st0.loopBarrier == Barrier(Out, Out, 0)
    ensures Reachable(m, st)
    ensures st.queue == Queue([], [x], [x])
    ensures st.database ==
            if st0.database.fallback then st0.database
            else st0.database.(attempts := st0.database.attempts + [Attempt(x, ok)])
  {
    st := ReadsHead(m, st0, DataMgr, x, ok);
    st := ReadsHead(m, st, Storage, x, ok);
    st := Moves(m, st, DataMgr, false);
    st := Moves(m, st, Storage, true);
    st := Moves(m, st, Storage, false);
    st := Moves(m, st, Storage, false);
    st := Moves(m, st, Storage, false);
  }

  // finish_datamgr takes the measurement out of the buffer and stores it nowhere.
  lemma DiscardedMeasurement(m: Manager, x: Measurement) returns (st: State)
    ensures Reachable(m, st)
    ensures st.queue.inserted == [x] == st.queue.removed
    ensures st.database.fallback && st.database.attempts == [] && !Stored(st, 0)
  {
    st := FirstInsert(m, x);
    st := GivenUp(m, st);
    st := OneRound(m, st, x, false);
  }

  // The database is open, but the insertion fails; the measurement is taken out all the same.
  lemma RefusedMeasurement(m: Manager, x: Measurement) returns (st: State)
    ensures Reachable(m, st)
    ensures st.queue.inserted == [x] == st.queue.removed
    ensures st.database.failures == 0 && Rows(st.database.attempts) == [] && !Stored(st, 0)
  {
    st := FirstInsert(m, x);
    st := Moves(m, st, Storage, true);
    st := OneRound(m, st, x, false);
    NoRow(st.database.attempts, x);
  }

  lemma NoRow(attempts: seq<Attempt>, x: Measurement)
    requires attempts == [] + [Attempt(x, false)]
    ensures Rows(attempts) == [] && |attempts| == 1 && !attempts[0].ok
  {
    assert attempts[..0] == [];
  }

  // ---------- A run in which a measurement comes after the fallback ----------

  // One consumer finds the buffer empty and leaves.
  lemma FindsEmpty(m: Manager, st0: State, w: Who) returns (st: State)
    requires Reachable(m, st0) && !st0.running && C(st0, w).pc.Test? && C(st0, w).result == Success
    requires st0.queue.items == [] && Free(st0.lock)
    ensures Reachable(m, st)
    ensures st == SetC(st0, w, C(st0, w).(pc := Done, result := NoData))
  {
    st := Moves(m, st0, w, false);
    st := Moves(m, st, w, false);
    st := Moves(m, st, w, false);
    assert st == SetC(st0.(lock := SetReads(st0.lock, w, true)), w, C(st0, w).(pc := EmptyHeld, result := NoData));
    st := GivesUpEmpty(m, st0, st, w);
  }

  lemma GivesUpEmpty(m: Manager, st0: State, held: State, w: Who) returns (st: State)
    requires Reachable(m, held) && !st0.running && Free(st0.lock)
    requires held == SetC(st0.(lock := SetReads(st0.lock, w, true)), w, C(st0, w).(pc := EmptyHeld, result := NoData))
    ensures Reachable(m, st)
    ensures st == SetC(st0, w, C(st0, w).(pc := Done, result := NoData))
  {
    st := Moves(m, held, w, false);
    st := Moves(m, st, w, false);
  }

  // The connection manager stands before the lock with a measurement when the storage thread gives up: both
  // consumers find the buffer empty and leave, and the measurement stays in it unhandled for ever.
  lemma LateMeasurement(m: Manager, x: Measurement) returns (cleared: State, st: State)
    ensures Reachable(m, cleared) && !cleared.running && cleared.database.fallback
    ensures cleared.producer == WantInsert(x, []) && !AllRunsDrain(cleared)
    ensures Reachable(m, st) && Terminal(st)
    ensures st.queue.items == [x] && st.dataMgr.handled == st.storage.handled == []
  {
    assert CanRun(Init(m, x), []) && After(Init(m, x), []) == Init(m, x);
    st := Arrives(m, Init(m, x), x);
    st := GivenUp(m, st);
    cleared := st;
    DrainsExactlyWhen(m, cleared);
    st := FindsEmpty(m, st, DataMgr);
    st := FindsEmpty(m, st, Storage);
    st := InsertsAndEnds(m, x, st);
    AllGone(st);
  }

  lemma AllGone(st: State)
    requires st.producer.Ended? && st.dataMgr.pc.Done? && st.storage.pc.Done?
    ensures Terminal(st)
  {
    StuckIsTerminal(st);
  }

  // With the flag cleared the connection manager ends when it has inserted what it has.
  lemma InsertsAndEnds(m: Manager, x: Measurement, st0: State) returns (st: State)
    requires Reachable(m, st0) && !st0.running && st0.producer == WantInsert(x, []) && Free(st0.lock)
    ensures Reachable(m, st) && st == st0.(producer := Ended, queue := Append(st0.queue, x))
  {
    st := InsertsAndCloses(m, x, st0);
    st := Produces(m, st, Go);
    st := Produces(m, st, Go);
  }

  // ---------- Runs that the lock and the barriers must allow ----------

  // Both consumers hold the read lock at the same time.
  lemma BothRead(m: Manager, x: Measurement, first: Who) returns (st: State)
    ensures Reachable(m, st)
    ensures st.dataMgr.pc.Read? && st.storage.pc.Read?
  {
    assert CanRun(Init(m, x), []) && After(Init(m, x), []) == Init(m, x);
    st := Moves(m, Init(m, x), Storage, true);
    st := Moves(m, st, first, false);
    st := Moves(m, st, first, false);
    st := Moves(m, st, Peer(first), false);
    st := Moves(m, st, Peer(first), false);
  }

  // Either consumer may be the one that unlinks the head, whichever arrives at the barrier first.
  lemma AnyoneMayRemove(m: Manager, x: Measurement, first: Who, remover: Who) returns (st: State)
    ensures Reachable(m, st) && C(st, remover).pc.Remove? && st.queue.items == [x]
  {
    st := FirstInsert(m, x);
    st := Moves(m, st, Storage, true);
    st := ReadsHead(m, st, DataMgr, x, true);
    st := ReadsHead(m, st, Storage, x, true);
    st := Moves(m, st, first, false);
    st := Moves(m, st, Peer(first), remover == Peer(first));
    st := Moves(m, st, remover, false);
    st := Moves(m, st, remover, false);
  }
}
