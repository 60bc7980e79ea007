/**
 Progress while the gateway runs: with something in the buffer, the consumers can take only so many
 steps before one of them unlinks the head, whatever the connection manager does in between.
 */
module GatewayProgress {
  import opened Measurements
  import opened SensorWindow
  import opened Gateway
  import opened GatewaySafety
  import opened GatewayShutdown

  predicate InLoops(st: State) {
    !Starting(st.storage.pc) && !st.storage.pc.Done? && !st.dataMgr.pc.Done?
  }

  function RoundLeft(st: State): nat {
    RankIn(st, DataMgr) + RankIn(st, Storage)
  }

  lemma RoundIsShort(st: State)
    requires Inv(st) && InLoops(st)
    ensures RoundLeft(st) <= 34
  {
  }

  // A consumer's step other than the removal brings the removal nearer.
  lemma ConsumerNearer(st: State, w: Who, coin: bool)
    requires Inv(st) && InLoops(st) && st.running && st.queue.items != []
    requires ConsumerEnabled(st, w) && !C(st, w).pc.Remove?
    ensures var st' := ConsumerStep(st, w, coin);
            RoundLeft(st') < RoundLeft(st) && InLoops(st') && st'.queue == st.queue
  {
    assert DataInv(C(st, w), st.queue.items, st.running);
    ConsumerTouches(st, w, coin);
    QueueChanges(st, Consume(w, coin));
    ConsumerUsesUp(st, w, coin);
    ConsumerStays(st, w, coin);
  }

  lemma ConsumerStays(st: State, w: Who, coin: bool)
    requires InLoops(st) && !Starting(st.dataMgr.pc) && st.running && ConsumerEnabled(st, w)
    ensures InLoops(ConsumerStep(st, w, coin))
  {
  }

  // The connection manager's steps neither bring it nearer nor put it off.
  lemma ProducerNeutral(st: State, choice: Choice)
    requires InLoops(st) && ProducerEnabled(st) && ProducerStep(st, choice).running
    ensures var st' := ProducerStep(st, choice);
            RoundLeft(st') == RoundLeft(st) && InLoops(st') && st.running && st.queue.items <= st'.queue.items
  {
    var st' := ProducerStep(st, choice);
    assert st'.dataMgr == st.dataMgr && st'.storage == st.storage;
  }

  function ConsumerSteps(steps: seq<Step>): nat {
    if steps == [] then 0 else (if steps[0].Consume? then 1 else 0) + ConsumerSteps(steps[1..])
  }

  lemma {:induction false} FlagStaysCleared(st: State, steps: seq<Step>)
    requires CanRun(st, steps) && !st.running
    ensures !After(st, steps).running
    decreases |steps|
  {
    if steps != [] {
      StaysCleared(st, steps[0]);
      FlagStaysCleared(Apply(st, steps[0]), steps[1..]);
    }
  }

  // One step that neither clears the flag nor removes.
  lemma StepNearer(st: State, step: Step)
    requires Inv(st) && InLoops(st) && st.running && st.queue.items != [] && Enabled(st, step)
    requires Apply(st, step).running && |Apply(st, step).queue.removed| <= |st.queue.removed|
    ensures var st' := Apply(st, step);
            && InLoops(st') && st'.queue.items != []
            && RoundLeft(st') + (if step.Consume? then 1 else 0) <= RoundLeft(st)
  {
    QueueChanges(st, step);
    match step
    case Produce(choice) => ProducerNeutral(st, choice);
    case Consume(w, coin) => ConsumerNearer(st, w, coin);
  }

  // A run during which the flag stays set and nothing is removed holds few consumer steps.
  lemma {:induction false} StepsWithoutRemoval(m: Manager, st: State, steps: seq<Step>)
    requires Inv(st) && ManagerInv(m, st) && InLoops(st) && st.queue.items != [] && CanRun(st, steps)
    requires After(st, steps).running && After(st, steps).queue.removed == st.queue.removed
    ensures ConsumerSteps(steps) <= RoundLeft(st)
    decreases |steps|
  {
    if steps != [] {
      var st' := Apply(st, steps[0]);
      if !st.running {
        FlagStaysCleared(st, steps);
      }
      if !st'.running {
        FlagStaysCleared(st', steps[1..]);
      }
      StepKeepsInv(st, steps[0]);
      StepKeepsManager(m, st, steps[0]);
      RunKeepsInv(m, st', steps[1..]);
      QueueChanges(st, steps[0]);
      StepNearer(st, steps[0]);
      StepsWithoutRemoval(m, st', steps[1..]);
    }
  }

  // Thirty-five consumer steps with something in the buffer, and at least one node has been removed.
  lemma HeadIsRemovedSoon(m: Manager, st: State, steps: seq<Step>)
    requires Reachable(m, st) && InLoops(st) && st.queue.items != []
    requires CanRun(st, steps) && After(st, steps).running && 35 <= ConsumerSteps(steps)
    ensures |st.queue.removed| < |After(st, steps).queue.removed|
  {
    ReachableInv(m, st);
    RunKeepsInv(m, st, steps);
    RoundIsShort(st);
    if After(st, steps).queue.removed == st.queue.removed {
      StepsWithoutRemoval(m, st, steps);
    }
  }

  // ---------- The whole buffer ----------

  // Where a run has taken this many consumer steps.
  lemma {:induction false} Prefix(steps: seq<Step>, n: nat) returns (k: nat)
    requires n <= ConsumerSteps(steps)
    ensures k <= |steps| && ConsumerSteps(steps[..k]) == n && ConsumerSteps(steps[k..]) == ConsumerSteps(steps) - n
    decreases |steps|
  {
    if n == 0 {
      k := 0;
      assert steps[0..] == steps;
    } else if steps[0].Consume? {
      var j := Prefix(steps[1..], n - 1);
      k := j + 1;
      assert steps[..k][1..] == steps[1..][..j] && steps[k..] == steps[1..][j..];
    } else {
      var j := Prefix(steps[1..], n);
      k := j + 1;
      assert steps[..k][1..] == steps[1..][..j] && steps[k..] == steps[1..][j..];
    }
  }

  // While the flag stays set both consumers stay in their loops.
  lemma {:induction false} LoopsGoOn(st: State, steps: seq<Step>)
    requires Inv(st) && InLoops(st) && CanRun(st, steps) && After(st, steps).running
    ensures InLoops(After(st, steps))
    decreases |steps|
  {
    if steps != [] {
      var st' := Apply(st, steps[0]);
      if !st.running {
        FlagStaysCleared(st, steps);
      }
      if !st'.running {
        FlagStaysCleared(st', steps[1..]);
      }
      StepKeepsInv(st, steps[0]);
      OneStepInLoops(st, steps[0]);
      LoopsGoOn(st', steps[1..]);
    }
  }

  lemma OneStepInLoops(st: State, step: Step)
    requires Inv(st) && InLoops(st) && st.running && Enabled(st, step) && Apply(st, step).running
    ensures InLoops(Apply(st, step))
  {
    match step
    case Produce(choice) => ProducerNeutral(st, choice);
    case Consume(w, coin) => ConsumerStays(st, w, coin);
  }

  lemma {:induction false} ReachableRun(m: Manager, st: State, steps: seq<Step>)
    requires Reachable(m, st) && CanRun(st, steps)
    ensures Reachable(m, After(st, steps))
    decreases |steps|
  {
    if steps != [] {
      ReachableStep(m, st, steps[0]);
      ReachableRun(m, Apply(st, steps[0]), steps[1..]);
    }
  }

  // The part of a run up to its thirty-fifth consumer step, which removes something, and the rest.
  lemma FirstRemoval(m: Manager, st: State, steps: seq<Step>) returns (first: seq<Step>, rest: seq<Step>)
    requires Reachable(m, st) && InLoops(st) && st.queue.items != []
    requires CanRun(st, steps) && After(st, steps).running && 35 <= ConsumerSteps(steps)
    ensures CanRun(st, first) && CanRun(After(st, first), rest) && After(st, steps) == After(After(st, first), rest)
    ensures ConsumerSteps(rest) == ConsumerSteps(steps) - 35
    ensures var mid := After(st, first);
            && Reachable(m, mid) && InLoops(mid)
            && |st.queue.removed| < |mid.queue.removed|
            && |st.queue.items| - (|mid.queue.removed| - |st.queue.removed|) <= |mid.queue.items|
  {
    var k := Prefix(steps, 35);
    first, rest := steps[..k], steps[k..];
    assert steps == first + rest;
    RunSplit(st, first, rest);
    var mid := After(st, first);
    ReachableInv(m, st);
    ReachableRun(m, st, first);
    RunKeepsInv(m, st, first);
    if !mid.running {
      FlagStaysCleared(mid, rest);
    }
    LoopsGoOn(st, first);
    HeadIsRemovedSoon(m, st, first);
    StillInBuffer(st, mid);
  }

  // Thirty-five consumer steps for each of the first n measurements in the buffer, and n have been removed.
  lemma {:induction false} BufferIsRemovedSoon(m: Manager, st: State, n: nat, steps: seq<Step>)
    requires Reachable(m, st) && InLoops(st) && n <= |st.queue.items|
    requires CanRun(st, steps) && After(st, steps).running && 35 * n <= ConsumerSteps(steps)
    ensures |st.queue.removed| + n <= |After(st, steps).queue.removed|
    decreases n
  {
    if n == 0 {
      RemovedGrows(m, st, steps);
    } else {
      var first, rest := FirstRemoval(m, st, steps);
      var mid := After(st, first);
      var removed := |mid.queue.removed| - |st.queue.removed|;
      if removed < n {
        BufferIsRemovedSoon(m, mid, n - removed, rest);
      } else {
        RemovedGrows(m, mid, rest);
      }
    }
  }

  lemma RemovedGrows(m: Manager, st: State, steps: seq<Step>)
    requires Reachable(m, st) && CanRun(st, steps)
    ensures |st.queue.removed| <= |After(st, steps).queue.removed|
  {
    ReachableInv(m, st);
    RunKeepsInv(m, st, steps);
  }

  // What has not been removed in between is still in the buffer.
  lemma StillInBuffer(st: State, later: State)
    requires Inv(st) && Inv(later) && st.queue.inserted <= later.queue.inserted
    ensures |st.queue.items| - (|later.queue.removed| - |st.queue.removed|) <= |later.queue.items|
  {
  }
}
