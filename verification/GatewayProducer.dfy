/**
 The connection manager of Connections is the producer of Gateway. What the producer inserts depends on
 its own choices alone (EveryRunInserts); the loop of Connections decides these choices, so in every
 interleaving the insertions are those of the loop.
 */
module GatewayProducer {
  import opened Measurements
  import opened SensorWindow
  import opened Gateway
  import opened GatewaySafety
  import opened GatewayShutdown
  import Connections

  // ---------- The producer by itself ----------

  // What the connection manager decides in a run, in order.
  function Choices(steps: seq<Step>): seq<Choice> {
    if steps == [] then []
    else (if steps[0].Produce? then [steps[0].choice] else []) + Choices(steps[1..])
  }

  // Where these choices lead, with the flag set at every loop test.
  function NextAll(p: ProducerPc, choices: seq<Choice>): ProducerPc
    decreases |choices|
  {
    if choices == [] then p else NextAll(NextPc(p, choices[0]), choices[1..])
  }

  // What the next step inserts.
  function Sends(p: ProducerPc): seq<Measurement> {
    if p.Insert? then [p.x] else []
  }

  // And what is inserted on the way.
  function Inserts(p: ProducerPc, choices: seq<Choice>): seq<Measurement>
    decreases |choices|
  {
    if choices == [] then [] else Sends(p) + Inserts(NextPc(p, choices[0]), choices[1..])
  }

  // One choice after another, as InsertsConcat for a single one.
  lemma InsertsCons(p: ProducerPc, c: Choice, rest: seq<Choice>)
    ensures Inserts(p, [c] + rest) == Sends(p) + Inserts(NextPc(p, c), rest)
    ensures NextAll(p, [c] + rest) == NextAll(NextPc(p, c), rest)
  {
    assert ([c] + rest)[1..] == rest;
  }

  lemma AppendAssociates<X>(a: seq<X>, b: seq<X>, c: seq<X>)
    ensures a + (b + c) == a + b + c
  {
  }

  lemma {:induction false} InsertsConcat(p: ProducerPc, a: seq<Choice>, b: seq<Choice>)
    ensures Inserts(p, a + b) == Inserts(p, a) + Inserts(NextAll(p, a), b)
    decreases |a|
  {
    if a == [] {
      assert a + b == b;
    } else {
      var q := NextPc(p, a[0]);
      InsertsConcat(q, a[1..], b);
      InsertsCons(p, a[0], a[1..] + b);
      AppendAssociates([a[0]], a[1..], b);
      assert [a[0]] + a[1..] == a;
      AppendAssociates(Sends(p), Inserts(q, a[1..]), Inserts(NextAll(p, a), b));
    }
  }

  lemma {:induction false} NextAllConcat(p: ProducerPc, a: seq<Choice>, b: seq<Choice>)
    ensures NextAll(p, a + b) == NextAll(NextAll(p, a), b)
    decreases |a|
  {
    if a == [] {
      assert a + b == b;
    } else {
      NextAllConcat(NextPc(p, a[0]), a[1..], b);
      assert (a + b)[1..] == a[1..] + b;
    }
  }

  // ---------- In every interleaving ----------

  lemma ConsumerInsertsNothing(st: State, step: Step)
    requires Enabled(st, step) && step.Consume?
    ensures Apply(st, step).producer == st.producer && Apply(st, step).queue.inserted == st.queue.inserted
  {
    QueueChanges(st, step);
    ConsumerTouches(st, step.who, step.coin);
  }

  // Past its loop the connection manager takes one step at most, and inserts nothing.
  lemma {:induction false} NothingAfterTheLoop(st: State, steps: seq<Step>)
    requires (st.producer.ClearFlag? || st.producer.Ended?) && CanRun(st, steps)
    ensures After(st, steps).queue.inserted == st.queue.inserted
    ensures After(st, steps).producer == if Choices(steps) == [] then st.producer else Ended
    ensures |Choices(steps)| <= if st.producer.ClearFlag? then 1 else 0
    decreases |steps|
  {
    if steps != [] {
      if steps[0].Consume? {
        ConsumerInsertsNothing(st, steps[0]);
      }
      NothingAfterTheLoop(Apply(st, steps[0]), steps[1..]);
    }
  }

  lemma ProducerInserts(st: State, choice: Choice)
    requires ProducerEnabled(st)
    ensures ProducerStep(st, choice).queue.inserted == st.queue.inserted + Sends(st.producer)
    ensures !st.producer.LoopTest? || st.running ==> ProducerStep(st, choice).producer == NextPc(st.producer, choice)
    ensures st.producer.LoopTest? && !st.running ==> ProducerStep(st, choice).producer == ClearFlag
  {
  }

  // In every run from every state, whatever the other threads do and whoever clears the flag, the
  // insertions are those of the connection manager's own choices.
  lemma {:induction false} EveryRunInserts(st: State, steps: seq<Step>)
    requires CanRun(st, steps)
    ensures After(st, steps).queue.inserted == st.queue.inserted + Inserts(st.producer, Choices(steps))
    decreases |steps|
  {
    if steps != [] {
      var st', rest := Apply(st, steps[0]), steps[1..];
      if steps[0].Consume? {
        ConsumerInsertsNothing(st, steps[0]);
        assert Choices(steps) == Choices(rest);
        EveryRunInserts(st', rest);
      } else {
        var c := steps[0].choice;
        ProducerInserts(st, c);
        InsertsCons(st.producer, c, Choices(rest));
        assert Choices(steps) == [c] + Choices(rest);
        if st.producer.LoopTest? && !st.running {
          NothingAfterTheLoop(st', rest);
          AtMostOneChoice(NextPc(st.producer, c), Choices(rest));
        } else {
          EveryRunInserts(st', rest);
          AppendAssociates(st.queue.inserted, Sends(st.producer), Inserts(st'.producer, Choices(rest)));
        }
      }
    }
  }

  lemma AtMostOneChoice(p: ProducerPc, choices: seq<Choice>)
    requires !p.Insert? && |choices| <= 1
    ensures Inserts(p, choices) == []
  {
    if choices != [] {
      assert choices[1..] == [];
    }
  }

  // The connection manager comes to the end of its loop in two ways only: the loop test finds the flag cleared,
  // or the server times out in an iteration that began without connections.
  lemma LoopEndsExactlyWhen(st: State, choice: Choice)
    requires ProducerEnabled(st)
    ensures ProducerStep(st, choice).producer.ClearFlag? <==>
              || (st.producer.LoopTest? && !st.running)
              || (st.producer.Poll? && st.producer.size == 0 && choice.Leave?)
  {
  }

  // Every loop test in this run finds the flag set.
  predicate FlagSetAtTests(st: State, steps: seq<Step>)
    requires CanRun(st, steps)
    decreases |steps|
  {
    steps == [] ||
    ((steps[0].Produce? && st.producer.LoopTest? ==> st.running) && FlagSetAtTests(Apply(st, steps[0]), steps[1..]))
  }

  lemma {:induction false} EveryRunFollows(st: State, steps: seq<Step>)
    requires CanRun(st, steps) && FlagSetAtTests(st, steps)
    ensures After(st, steps).producer == NextAll(st.producer, Choices(steps))
    decreases |steps|
  {
    if steps != [] {
      var st', rest := Apply(st, steps[0]), steps[1..];
      if steps[0].Consume? {
        ConsumerInsertsNothing(st, steps[0]);
        assert Choices(steps) == Choices(rest);
      } else {
        ProducerInserts(st, steps[0].choice);
        InsertsCons(st.producer, steps[0].choice, Choices(rest));
        assert Choices(steps) == [steps[0].choice] + Choices(rest);
      }
      EveryRunFollows(st', rest);
    }
  }

  // When the flag has been cleared before the loop test, nothing more is inserted.
  lemma {:induction false} ClearedBeforeTheTest(st: State, steps: seq<Step>)
    requires st.producer.LoopTest? && !st.running && CanRun(st, steps)
    ensures var st' := After(st, steps);
            && st'.queue.inserted == st.queue.inserted
            && (st'.producer.LoopTest? || st'.producer.ClearFlag? || st'.producer.Ended?)
    decreases |steps|
  {
    if steps != [] {
      var st', rest := Apply(st, steps[0]), steps[1..];
      StaysCleared(st, steps[0]);
      if steps[0].Consume? {
        ConsumerInsertsNothing(st, steps[0]);
        ClearedBeforeTheTest(st', rest);
      } else {
        ProducerInserts(st, steps[0].choice);
        NothingAfterTheLoop(st', rest);
      }
    }
  }

  // ---------- With no other thread moving ----------

  function Steps(choices: seq<Choice>): seq<Step> {
    if choices == [] then [] else [Produce(choices[0])] + Steps(choices[1..])
  }

  function AppendAll(q: Queue, xs: seq<Measurement>): Queue {
    Queue(q.items + xs, q.inserted + xs, q.removed)
  }

  // These choices do not lead past the loop before the last of them.
  predicate InLoop(p: ProducerPc, choices: seq<Choice>)
    decreases |choices|
  {
    choices == [] || (!p.ClearFlag? && !p.Ended? && InLoop(NextPc(p, choices[0]), choices[1..]))
  }

  predicate LockHolder(p: ProducerPc) {
    p.Insert? || p.InsertedHeld?
  }

  function LockOf(p: ProducerPc): Lock {
    Lock(if LockHolder(p) then HeldByConnMgr else Nobody, false, false)
  }

  lemma AloneStep(st: State, choice: Choice)
    requires st.running && st.lock == LockOf(st.producer) && !st.producer.ClearFlag? && !st.producer.Ended?
    ensures ProducerEnabled(st)
    ensures ProducerStep(st, choice) ==
            st.(queue := AppendAll(st.queue, Sends(st.producer)),
                producer := NextPc(st.producer, choice),
                lock := LockOf(NextPc(st.producer, choice)))
  {
    assert st.queue.items + [] == st.queue.items && st.queue.inserted + [] == st.queue.inserted;
  }

  lemma {:induction false} AloneRuns(st: State, choices: seq<Choice>)
    requires st.running && st.lock == LockOf(st.producer) && InLoop(st.producer, choices)
    ensures CanRun(st, Steps(choices))
    ensures var p := NextAll(st.producer, choices);
            After(st, Steps(choices)) ==
            st.(queue := AppendAll(st.queue, Inserts(st.producer, choices)), producer := p, lock := LockOf(p))
    decreases |choices|
  {
    if choices == [] {
      assert AppendAll(st.queue, []) == st.queue;
    } else {
      var c, st' := choices[0], Apply(st, Produce(choices[0]));
      AloneStep(st, c);
      AloneRuns(st', choices[1..]);
      RunCons(st, Produce(c), Steps(choices[1..]));
      AppendTwice(st.queue, Sends(st.producer), Inserts(st'.producer, choices[1..]));
    }
  }

  lemma AppendTwice(q: Queue, xs: seq<Measurement>, ys: seq<Measurement>)
    ensures AppendAll(AppendAll(q, xs), ys) == AppendAll(q, xs + ys)
  {
    assert q.items + xs + ys == q.items + (xs + ys) && q.inserted + xs + ys == q.inserted + (xs + ys);
  }

  // ---------- One iteration of the connection loop ----------

  // For which of the connections i to limit - 1 poll has found data.
  function ReadyFrom(connections: seq<Connections.Connection>, limit: nat, i: nat, env: Connections.Env): (r: seq<bool>)
    requires i <= limit <= |connections|
    ensures |r| == limit - i
    ensures forall k :: 0 <= k < |r| ==> r[k] == env.ready(connections[i + k].socket).pollIn
  {
    seq(limit - i, k requires 0 <= k < limit - i => env.ready(connections[i + k].socket).pollIn)
  }

  // The choices for one connection: read it if it delivers, lock, insert and unlock.
  function ReadScript(c: Connections.Connection, env: Connections.Env): seq<Choice> {
    if Connections.Delivers(c, env) then [Data(env.receipt(c.socket).data), Go, Go, Go] else [Go]
  }

  // The choices for a scan from connection i on: each is read, and the first that has to be is closed.
  function ScanScript(s: Connections.Settings, connections: seq<Connections.Connection>, limit: nat, i: nat,
                      env: Connections.Env): seq<Choice>
    requires i <= limit <= |connections|
    decreases limit - i
  {
    if i == limit then [Go]
    else
      ReadScript(connections[i], env)
      + if Connections.ToClose(s, connections, i, env) then [Leave]
        else [Go] + ScanScript(s, connections, limit, i + 1, env)
  }

  // From loop test to loop test, or to the end of the loop.
  function IterationScript(s: Connections.Settings, connections: seq<Connections.Connection>, lastRecord: int,
                           env: Connections.Env): seq<Choice>
  {
    var n, now := |connections|, Connections.AfterAccept(s, connections, env);
    [Size(n)] +
    if Connections.Exits(s, connections, lastRecord, env) then [Leave]
    else [Ready(ReadyFrom(now, n, 0, env))] + ScanScript(s, now, n, 0, env)
  }

  // These choices insert xs, stay in the loop and lead from p to q.
  predicate Runs(p: ProducerPc, choices: seq<Choice>, xs: seq<Measurement>, q: ProducerPc) {
    Inserts(p, choices) == xs && NextAll(p, choices) == q && InLoop(p, choices)
  }

  lemma {:induction false} InLoopConcat(p: ProducerPc, a: seq<Choice>, b: seq<Choice>)
    requires InLoop(p, a) && InLoop(NextAll(p, a), b)
    ensures InLoop(p, a + b)
    decreases |a|
  {
    if a == [] {
      assert a + b == b;
    } else {
      InLoopConcat(NextPc(p, a[0]), a[1..], b);
      assert (a + b)[1..] == a[1..] + b;
    }
  }

  lemma RunsConcat(p: ProducerPc, a: seq<Choice>, xs: seq<Measurement>, q: ProducerPc,
                   b: seq<Choice>, ys: seq<Measurement>, r: ProducerPc)
    requires Runs(p, a, xs, q) && Runs(q, b, ys, r)
    ensures Runs(p, a + b, xs + ys, r)
  {
    InsertsConcat(p, a, b);
    NextAllConcat(p, a, b);
    InLoopConcat(p, a, b);
  }

  lemma RunsOne(p: ProducerPc, c: Choice)
    requires !p.Insert? && !p.ClearFlag? && !p.Ended?
    ensures Runs(p, [c], [], NextPc(p, c))
  {
    assert [c][1..] == [];
  }

  // Reading one connection.
  lemma ReadRuns(c: Connections.Connection, env: Connections.Env, ready: seq<bool>)
    requires ready != [] && ready[0] == env.ready(c.socket).pollIn
    ensures Runs(Scan(ready), ReadScript(c, env),
                 if Connections.Delivers(c, env) then [env.receipt(c.socket).data] else [], Check(ready[1..]))
  {
    if Connections.Delivers(c, env) {
      var x, rest := env.receipt(c.socket).data, ready[1..];
      RunsOne(Scan(ready), Data(x));
      RunsOne(WantInsert(x, rest), Go);
      InsertRuns(x, rest);
      RunsConcat(WantInsert(x, rest), [Go], [], Insert(x, rest), [Go, Go], [x], Check(rest));
      assert [Go] + [Go, Go] == [Go, Go, Go] && [] + [x] == [x];
      RunsConcat(Scan(ready), [Data(x)], [], WantInsert(x, rest), [Go, Go, Go], [x], Check(rest));
      assert [Data(x)] + [Go, Go, Go] == [Data(x), Go, Go, Go];
    } else {
      RunsOne(Scan(ready), Go);
    }
  }

  lemma InsertRuns(x: Measurement, ready: seq<bool>)
    ensures Runs(Insert(x, ready), [Go, Go], [x], Check(ready))
  {
    InsertsCons(Insert(x, ready), Go, [Go]);
    InsertsCons(InsertedHeld(ready), Go, []);
    assert [Go] + [Go] == [Go, Go] && [Go] + [] == [Go];
    assert [Go, Go][1..] == [Go] && [Go][1..] == [];
  }

  // Reading one connection that is then closed, and one that is not.
  lemma LastRuns(c: Connections.Connection, env: Connections.Env, ready: seq<bool>)
    requires ready != [] && ready[0] == env.ready(c.socket).pollIn
    ensures Runs(Scan(ready), ReadScript(c, env) + [Leave],
                 if Connections.Delivers(c, env) then [env.receipt(c.socket).data] else [], LoopTest)
  {
    var xs := if Connections.Delivers(c, env) then [env.receipt(c.socket).data] else [];
    ReadRuns(c, env, ready);
    RunsOne(Check(ready[1..]), Leave);
    RunsConcat(Scan(ready), ReadScript(c, env), xs, Check(ready[1..]), [Leave], [], LoopTest);
    assert xs + [] == xs;
  }

  lemma PassedRuns(c: Connections.Connection, env: Connections.Env, ready: seq<bool>,
                   script: seq<Choice>, more: seq<Measurement>)
    requires ready != [] && ready[0] == env.ready(c.socket).pollIn
    requires Runs(Scan(ready[1..]), script, more, LoopTest)
    ensures Runs(Scan(ready), ReadScript(c, env) + ([Go] + script),
                 (if Connections.Delivers(c, env) then [env.receipt(c.socket).data] else []) + more, LoopTest)
  {
    var xs := if Connections.Delivers(c, env) then [env.receipt(c.socket).data] else [];
    ReadRuns(c, env, ready);
    RunsOne(Check(ready[1..]), Go);
    RunsConcat(Check(ready[1..]), [Go], [], Scan(ready[1..]), script, more, LoopTest);
    assert [] + more == more;
    RunsConcat(Scan(ready), ReadScript(c, env), xs, Check(ready[1..]), [Go] + script, more, LoopTest);
  }

  // What a scan from connection i on inserts: what its connections deliver, up to the one that is closed.
  function Sent(s: Connections.Settings, connections: seq<Connections.Connection>, limit: nat, i: nat,
                env: Connections.Env): seq<Measurement>
    requires i <= limit <= |connections|
  {
    var r := Connections.FirstToClose(s, connections, limit, i, env);
    Connections.Delivered(connections, i, if r < limit then r + 1 else limit, env)
  }

  lemma SentOne(s: Connections.Settings, connections: seq<Connections.Connection>, limit: nat, i: nat,
                env: Connections.Env)
    requires i < limit <= |connections|
    ensures var c := connections[i];
            var xs := if Connections.Delivers(c, env) then [env.receipt(c.socket).data] else [];
            Sent(s, connections, limit, i, env) ==
            if Connections.ToClose(s, connections, i, env) then xs else xs + Sent(s, connections, limit, i + 1, env)
  {
    assert Connections.Delivered(connections, i + 1, i + 1, env) == [];
  }

  lemma {:induction false} ScanRuns(s: Connections.Settings, connections: seq<Connections.Connection>, limit: nat,
                                    i: nat, env: Connections.Env)
    requires i <= limit <= |connections|
    ensures Runs(Scan(ReadyFrom(connections, limit, i, env)), ScanScript(s, connections, limit, i, env),
                 Sent(s, connections, limit, i, env), LoopTest)
    decreases limit - i
  {
    var ready := ReadyFrom(connections, limit, i, env);
    if i == limit {
      RunsOne(Scan(ready), Go);
    } else {
      SentOne(s, connections, limit, i, env);
      if Connections.ToClose(s, connections, i, env) {
        LastRuns(connections[i], env, ready);
      } else {
        assert ready[1..] == ReadyFrom(connections, limit, i + 1, env);
        ScanRuns(s, connections, limit, i + 1, env);
        PassedRuns(connections[i], env, ready, ScanScript(s, connections, limit, i + 1, env),
                   Sent(s, connections, limit, i + 1, env));
      }
    }
  }

  function EndOf(exited: bool): ProducerPc {
    if exited then ClearFlag else LoopTest
  }

  // One iteration: its choices insert what Connections says.
  lemma IterationRuns(s: Connections.Settings, connections: seq<Connections.Connection>, lastRecord: int,
                      env: Connections.Env)
    ensures var o := Connections.Iteration(s, connections, lastRecord, env);
            Runs(LoopTest, IterationScript(s, connections, lastRecord, env), o.inserted, EndOf(o.exited))
  {
    var n, now := |connections|, Connections.AfterAccept(s, connections, env);
    RunsOne(LoopTest, Size(n));
    Connections.IterationClosedForm(s, connections, lastRecord, env);
    if Connections.Exits(s, connections, lastRecord, env) {
      RunsOne(Poll(n), Leave);
      RunsConcat(LoopTest, [Size(n)], [], Poll(n), [Leave], [], ClearFlag);
    } else {
      var ready := ReadyFrom(now, n, 0, env);
      var xs := Connections.Iteration(s, connections, lastRecord, env).inserted;
      assert now == Connections.WithAccepted(s, connections, env);
      assert Found(n, Ready(ready)) == ready;
      RunsOne(Poll(n), Ready(ready));
      ScanRuns(s, now, n, 0, env);
      RunsConcat(Poll(n), [Ready(ready)], [], Scan(ready), ScanScript(s, now, n, 0, env), xs, LoopTest);
      assert [] + xs == xs;
      RunsConcat(LoopTest, [Size(n)], [], Poll(n), [Ready(ready)] + ScanScript(s, now, n, 0, env), xs, LoopTest);
    }
  }

  // One iteration in every interleaving: when these are the connection manager's choices in a run, what it
  // inserts is what Connections says, in order, whatever the consumers do in between and even if the flag
  // is cleared meanwhile; and if it is not cleared before the loop test, the iteration has been completed.
  lemma IterationInEveryRun(st: State, s: Connections.Settings, connections: seq<Connections.Connection>,
                            lastRecord: int, env: Connections.Env, steps: seq<Step>)
    requires st.producer.LoopTest? && CanRun(st, steps)
    requires Choices(steps) == IterationScript(s, connections, lastRecord, env)
    ensures var o := Connections.Iteration(s, connections, lastRecord, env);
            && After(st, steps).queue.inserted == st.queue.inserted + o.inserted
            && (FlagSetAtTests(st, steps) ==> After(st, steps).producer == EndOf(o.exited))
  {
    IterationRuns(s, connections, lastRecord, env);
    EveryRunInserts(st, steps);
    if FlagSetAtTests(st, steps) {
      EveryRunFollows(st, steps);
    }
  }

  // And there is such a run: the one in which no other thread moves.
  lemma IterationIsProducerRun(st: State, s: Connections.Settings, connections: seq<Connections.Connection>,
                               lastRecord: int, env: Connections.Env)
    requires st.producer.LoopTest? && st.running && Free(st.lock)
    ensures var o := Connections.Iteration(s, connections, lastRecord, env);
            var steps := Steps(IterationScript(s, connections, lastRecord, env));
            && CanRun(st, steps)
            && After(st, steps) == st.(queue := AppendAll(st.queue, o.inserted), producer := EndOf(o.exited))
  {
    IterationRuns(s, connections, lastRecord, env);
    AloneRuns(st, IterationScript(s, connections, lastRecord, env));
  }

  // ---------- The whole loop ----------

  // The choices from a loop test, or from the end of the loop, to the end of the thread: after these
  // iterations the loop test finds the flag cleared, unless the server has timed out.
  function Script(s: Connections.Settings, l: Connections.Ledger, envs: seq<Connections.Env>): seq<Choice>
    decreases |envs|
  {
    if l.exited then [Go]
    else if envs == [] then [Size(|l.connections|), Go]
    else
      IterationScript(s, l.connections, l.lastRecord, envs[0])
      + Script(s, Connections.Advance(s, l, envs[0]), envs[1..])
  }

  lemma {:induction false} ScriptInserts(s: Connections.Settings, l: Connections.Ledger, envs: seq<Connections.Env>)
    ensures l.inserted + Inserts(EndOf(l.exited), Script(s, l, envs)) == Connections.RunAll(s, l, envs).inserted
    decreases |envs|
  {
    if l.exited {
      AtMostOneChoice(ClearFlag, [Go]);
    } else if envs == [] {
      InsertsCons(LoopTest, Size(|l.connections|), [Go]);
      assert [Size(|l.connections|)] + [Go] == [Size(|l.connections|), Go];
      AtMostOneChoice(NextPc(LoopTest, Size(|l.connections|)), [Go]);
    } else {
      var l' := Connections.Advance(s, l, envs[0]);
      var o := Connections.Iteration(s, l.connections, l.lastRecord, envs[0]);
      var rest := Script(s, l', envs[1..]);
      IterationRuns(s, l.connections, l.lastRecord, envs[0]);
      InsertsConcat(LoopTest, IterationScript(s, l.connections, l.lastRecord, envs[0]), rest);
      ScriptInserts(s, l', envs[1..]);
      AppendAssociates(l.inserted, o.inserted, Inserts(EndOf(o.exited), rest));
    }
  }

  lemma FirstChoices(p: ProducerPc, taken: seq<Choice>, choices: seq<Choice>)
    requires taken <= choices
    ensures Inserts(p, taken) <= Inserts(p, choices)
  {
    InsertsConcat(p, taken, choices[|taken|..]);
    assert choices == taken + choices[|taken|..];
  }

  // The whole loop in every interleaving: while the connection manager is on its way through these
  // iterations it has inserted a first part of what they hand on, and all of it at the end.
  lemma LoopInEveryRun(st: State, s: Connections.Settings, now: int, envs: seq<Connections.Env>, steps: seq<Step>)
    requires st.producer.LoopTest? && CanRun(st, steps)
    requires Choices(steps) <= Script(s, Connections.Start(now), envs)
    ensures var all := st.queue.inserted + Connections.RunAll(s, Connections.Start(now), envs).inserted;
            && After(st, steps).queue.inserted <= all
            && (Choices(steps) == Script(s, Connections.Start(now), envs) ==> After(st, steps).queue.inserted == all)
  {
    var script, taken := Script(s, Connections.Start(now), envs), Choices(steps);
    EveryRunInserts(st, steps);
    ScriptInserts(s, Connections.Start(now), envs);
    FirstChoices(LoopTest, taken, script);
    assert Inserts(LoopTest, script) == Connections.RunAll(s, Connections.Start(now), envs).inserted;
  }

  // A drained gateway, from the sockets to the messages: what the sensor nodes sent, as the connection loop
  // received it, decides every message and what is handed to insert_sensor, however the threads moved.
  lemma SocketsDecideMessages(m: Manager, junk: Measurement, s: Connections.Settings, now: int,
                              envs: seq<Connections.Env>, steps: seq<Step>)
    requires Unused(m.table) && CanRun(Init(m, junk), steps)
    requires Choices(steps) == Script(s, Connections.Start(now), envs)
    requires Drained(After(Init(m, junk), steps))
    ensures var st := After(Init(m, junk), steps);
            var received := Connections.RunAll(s, Connections.Start(now), envs).inserted;
            && st.queue.inserted == received
            && st.manager.log == m.log + Decisions(m.limits, m.table, received)
            && (!st.database.fallback ==> Asked(st.database.attempts) == received)
  {
    LoopInEveryRun(Init(m, junk), s, now, envs, steps);
    DrainedOutcome(m, After(Init(m, junk), steps));
    var received := Connections.RunAll(s, Connections.Start(now), envs).inserted;
    assert Init(m, junk).queue.inserted + received == received;
  }
}
