/**
 The connection manager's loop (connmgr.c:61-258): a list of connections and, beside it, the array
 that poll fills. The first half says what one iteration does to the list; it never mentions the
 array. PollServer does the same work through the array.
 */
module Connections {
  import opened Measurements
  import opened ListSpec

  // ---------- What the environment decides ----------

  // revents, as far as it is tested.
  datatype Events = Events(pollIn: bool, pollRdHup: bool)

  // What the three tcp_receive calls leave in data; ok is the test in line 164.
  datatype Receipt = Receipt(ok: bool, data: Measurement)

  // One iteration: the events that poll finds for each descriptor, the connection that is accepted if
  // the server socket is ready, what each connection delivers, and the readings of the clock.
  datatype Env = Env(
    ready: int -> Events,
    accepted: int,
    receipt: int -> Receipt,
    acceptTime: int,       // line 120
    idleTime: int,         // line 130
    checkTime: nat -> int, // line 209, for each connection
    closeTime: int)        // lines 205 and 225

  // ---------- The list of connections ----------

  // sensor_socket_t, by descriptor.
  datatype Connection = Connection(sensorId: SensorId, socket: int, lastRecord: int)

  datatype Event = Opened(id: SensorId) | Closed(id: SensorId) | TimedOut(id: SensorId)

  const FIRST_SENSOR_ID := 0

  // TIMEOUT and the descriptor of the listening socket.
  datatype Settings = Settings(timeout: int, server: int)

  datatype Outcome = Outcome(
    connections: seq<Connection>,
    lastRecord: int,
    exited: bool,
    inserted: seq<Measurement>, // handed to sbuffer_insert, in order
    events: seq<Event>,         // written to the log, in order
    closed: seq<int>)           // connections handed to tcp_close, by descriptor

  // Lines 144-187: the connection has data.
  function Receive(c: Connection, r: Receipt): Connection {
    var c' := if r.ok then c.(lastRecord := r.data.ts) else c;
    if c.sensorId == FIRST_SENSOR_ID then c'.(sensorId := r.data.id) else c'
  }

  function AfterData(c: Connection, env: Env): Connection {
    if env.ready(c.socket).pollIn then Receive(c, env.receipt(c.socket)) else c
  }

  predicate Delivers(c: Connection, env: Env) {
    env.ready(c.socket).pollIn && env.receipt(c.socket).ok
  }

  predicate Opens(c: Connection, env: Env) {
    env.ready(c.socket).pollIn && c.sensorId == FIRST_SENSOR_ID
  }

  // What was sent and logged before the rest of an iteration.
  function After(inserted: seq<Measurement>, events: seq<Event>, rest: Outcome): Outcome {
    rest.(inserted := inserted + rest.inserted, events := events + rest.events)
  }

  lemma AfterAfter(i1: seq<Measurement>, e1: seq<Event>, i2: seq<Measurement>, e2: seq<Event>, rest: Outcome)
    ensures After(i1, e1, After(i2, e2, rest)) == After(i1 + i2, e1 + e2, rest)
  {
    assert i1 + (i2 + rest.inserted) == i1 + i2 + rest.inserted;
    assert e1 + (e2 + rest.events) == e1 + e2 + rest.events;
  }

  // Lines 139-229 from connection i on: limit is the list size at the top of the iteration.
  function Scan(s: Settings, connections: seq<Connection>, lastRecord: int, limit: nat, i: nat, env: Env): Outcome
    requires limit <= |connections|
    decreases limit - i
  {
    if limit <= i then Outcome(connections, lastRecord, false, [], [], [])
    else
      var c := connections[i];
      var c' := AfterData(c, env);
      var inserted := if Delivers(c, env) then [env.receipt(c.socket).data] else [];
      var events := if Opens(c, env) then [Opened(env.receipt(c.socket).data.id)] else [];
      var last := if Delivers(c, env) then env.receipt(c.socket).data.ts else lastRecord;
      var updated := connections[i := c'];
      if env.ready(c.socket).pollRdHup then
        Outcome(RemoveAt(updated, i), env.closeTime, false, inserted, events + [Closed(c'.sensorId)], [c.socket])
      else if env.checkTime(i) > c'.lastRecord + s.timeout then
        Outcome(RemoveAt(updated, i), env.closeTime, false, inserted, events + [TimedOut(c'.sensorId)], [c.socket])
      else
        After(inserted, events, Scan(s, updated, last, limit, i + 1, env))
  }

  predicate Accepts(s: Settings, env: Env) {
    env.ready(s.server).pollIn
  }

  // Lines 106-128
  function AfterAccept(s: Settings, connections: seq<Connection>, env: Env): seq<Connection> {
    if Accepts(s, env) then
      InsertAt(connections, |connections|, Connection(FIRST_SENSOR_ID, env.accepted, env.acceptTime))
    else connections
  }

  // Line 130: the server has had no connection for too long.
  predicate Exits(s: Settings, connections: seq<Connection>, lastRecord: int, env: Env) {
    |connections| == 0 && env.idleTime > lastRecord + s.timeout
  }

  // Lines 72-229: one iteration. At the end connmgr_free frees the list, with all that is in it.
  function Iteration(s: Settings, connections: seq<Connection>, lastRecord: int, env: Env): Outcome {
    if Exits(s, connections, lastRecord, env) then Outcome([], lastRecord, true, [], [], [])
    else Scan(s, AfterAccept(s, connections, env), lastRecord, |connections|, 0, env)
  }

  // ---------- An iteration, without the loop ----------

  // These definitions say what an iteration does without using any of the functions above.

  // A connection after it has been read, if poll has found data for it.
  function Refreshed(c: Connection, env: Env): Connection {
    var (ready, receipt) := (env.ready(c.socket).pollIn, env.receipt(c.socket));
    Connection(if ready && c.sensorId == 0 then receipt.data.id else c.sensorId, c.socket,
               if ready && receipt.ok then receipt.data.ts else c.lastRecord)
  }

  // Must connection k be closed, judging by what it was at the top of the iteration?
  predicate ToClose(s: Settings, connections: seq<Connection>, k: nat, env: Env)
    requires k < |connections|
  {
    env.ready(connections[k].socket).pollRdHup
    || env.checkTime(k) > Refreshed(connections[k], env).lastRecord + s.timeout
  }

  // The first connection from i on that must be closed; limit when there is none.
  function FirstToClose(s: Settings, connections: seq<Connection>, limit: nat, i: nat, env: Env): (r: nat)
    requires i <= limit <= |connections|
    ensures i <= r <= limit
    ensures r < limit ==> ToClose(s, connections, r, env)
    ensures forall k :: i <= k < r ==> !ToClose(s, connections, k, env)
    decreases limit - i
  {
    if i == limit || ToClose(s, connections, i, env) then i else FirstToClose(s, connections, limit, i + 1, env)
  }

  // The connections once the first n have been read.
  function Served(connections: seq<Connection>, n: nat, env: Env): (r: seq<Connection>)
    ensures |r| == |connections|
    ensures forall k :: 0 <= k < |r| ==> r[k] == if k < n then Refreshed(connections[k], env) else connections[k]
  {
    seq(|connections|,
        k requires 0 <= k < |connections| => if k < n then Refreshed(connections[k], env) else connections[k])
  }

  // What connections lo to hi - 1 deliver, in order.
  function Delivered(connections: seq<Connection>, lo: nat, hi: nat, env: Env): seq<Measurement>
    requires hi <= |connections|
    decreases hi - lo
  {
    if hi <= lo then []
    else
      var (ready, receipt) := (env.ready(connections[lo].socket).pollIn, env.receipt(connections[lo].socket));
      (if ready && receipt.ok then [receipt.data] else [])
      + Delivered(connections, lo + 1, hi, env)
  }

  // What reading them writes to the log: each that had no sensor id has been given one.
  function Logged(connections: seq<Connection>, lo: nat, hi: nat, env: Env): seq<Event>
    requires hi <= |connections|
    decreases hi - lo
  {
    if hi <= lo then []
    else
      var (ready, receipt) := (env.ready(connections[lo].socket).pollIn, env.receipt(connections[lo].socket));
      (if ready && connections[lo].sensorId == 0 then [Opened(receipt.data.id)] else [])
      + Logged(connections, lo + 1, hi, env)
  }

  // The time stamp of the last of these measurements.
  function LastOf(xs: seq<Measurement>, default: int): int {
    if xs == [] then default else xs[|xs| - 1].ts
  }

  // Why connection k is closed; hanging up comes first. It is reported with the id that it has by then.
  function Farewell(connections: seq<Connection>, k: nat, env: Env): Event
    requires k < |connections|
  {
    var id := Refreshed(connections[k], env).sensorId;
    if env.ready(connections[k].socket).pollRdHup then Closed(id) else TimedOut(id)
  }

  lemma ServedNext(connections: seq<Connection>, i: nat, env: Env)
    requires i < |connections|
    ensures Served(connections, i, env)[i := AfterData(connections[i], env)] == Served(connections, i + 1, env)
  {
  }

  lemma ScanStops(s: Settings, connections: seq<Connection>, lastRecord: int, limit: nat, i: nat, env: Env)
    requires i < limit <= |connections| && ToClose(s, connections, i, env)
    ensures Scan(s, Served(connections, i, env), lastRecord, limit, i, env) ==
            Outcome(RemoveAt(Served(connections, i + 1, env), i), env.closeTime, false,
                    Delivered(connections, i, i + 1, env),
                    Logged(connections, i, i + 1, env) + [Farewell(connections, i, env)],
                    [connections[i].socket])
  {
    ServedNext(connections, i, env);
    assert Delivered(connections, i + 1, i + 1, env) == [] && Logged(connections, i + 1, i + 1, env) == [];
  }

  lemma ScanPasses(s: Settings, connections: seq<Connection>, lastRecord: int, limit: nat, i: nat, env: Env)
    requires i < limit <= |connections| && !ToClose(s, connections, i, env)
    ensures var xs := Delivered(connections, i, i + 1, env);
            Scan(s, Served(connections, i, env), lastRecord, limit, i, env) ==
            After(xs, Logged(connections, i, i + 1, env),
                  Scan(s, Served(connections, i + 1, env), LastOf(xs, lastRecord), limit, i + 1, env))
  {
    ServedNext(connections, i, env);
    assert Delivered(connections, i + 1, i + 1, env) == [] && Logged(connections, i + 1, i + 1, env) == [];
  }

  lemma {:induction false} DeliveredConcat(connections: seq<Connection>, i: nat, j: nat, k: nat, env: Env)
    requires i <= j <= k <= |connections|
    ensures Delivered(connections, i, j, env) + Delivered(connections, j, k, env) == Delivered(connections, i, k, env)
    decreases j - i
  {
    if i < j { DeliveredConcat(connections, i + 1, j, k, env); }
  }

  lemma {:induction false} LoggedConcat(connections: seq<Connection>, i: nat, j: nat, k: nat, env: Env)
    requires i <= j <= k <= |connections|
    ensures Logged(connections, i, j, env) + Logged(connections, j, k, env) == Logged(connections, i, k, env)
    decreases j - i
  {
    if i < j { LoggedConcat(connections, i + 1, j, k, env); }
  }

  lemma AppendAssociates<T>(a: seq<T>, b: seq<T>, c: seq<T>)
    ensures a + (b + c) == a + b + c
  {
  }

  lemma ReadInTwo(xs: seq<Measurement>, ys: seq<Measurement>, both: seq<Measurement>,
                  events: seq<Event>, more: seq<Event>, all: seq<Event>, lastRecord: int, rest: Outcome)
    requires xs + ys == both && events + more == all
    ensures LastOf(ys, LastOf(xs, lastRecord)) == LastOf(both, lastRecord)
    ensures After(xs, events, After(ys, more, rest)) == After(both, all, rest)
  {
    AfterAfter(xs, events, ys, more, rest);
  }

  // Reading connection i and then those up to r - 1 is reading all of them.
  lemma ReachesFurther(connections: seq<Connection>, lastRecord: int, i: nat, r: nat, env: Env, rest: Outcome)
    requires i < r <= |connections|
    ensures var xs, ys := Delivered(connections, i, i + 1, env), Delivered(connections, i + 1, r, env);
            && LastOf(ys, LastOf(xs, lastRecord)) == LastOf(Delivered(connections, i, r, env), lastRecord)
            && After(xs, Logged(connections, i, i + 1, env), After(ys, Logged(connections, i + 1, r, env), rest))
               == After(Delivered(connections, i, r, env), Logged(connections, i, r, env), rest)
  {
    DeliveredConcat(connections, i, i + 1, r, env);
    LoggedConcat(connections, i, i + 1, r, env);
    ReadInTwo(Delivered(connections, i, i + 1, env), Delivered(connections, i + 1, r, env),
              Delivered(connections, i, r, env),
              Logged(connections, i, i + 1, env), Logged(connections, i + 1, r, env), Logged(connections, i, r, env),
              lastRecord, rest);
  }

  // A scan gets past connections that need not be closed.
  lemma {:induction false} ScanReaches(s: Settings, connections: seq<Connection>, lastRecord: int, limit: nat, i: nat,
                                       r: nat, env: Env)
    requires i <= r <= limit <= |connections|
    requires forall k :: i <= k < r ==> !ToClose(s, connections, k, env)
    ensures var xs := Delivered(connections, i, r, env);
            Scan(s, Served(connections, i, env), lastRecord, limit, i, env) ==
            After(xs, Logged(connections, i, r, env),
                  Scan(s, Served(connections, r, env), LastOf(xs, lastRecord), limit, r, env))
    decreases r - i
  {
    if i < r {
      var last := LastOf(Delivered(connections, i, i + 1, env), lastRecord);
      ScanPasses(s, connections, lastRecord, limit, i, env);
      ScanReaches(s, connections, last, limit, i + 1, r, env);
      var end := LastOf(Delivered(connections, i + 1, r, env), last);
      ReachesOn(connections, lastRecord, i, r, env,
                Scan(s, Served(connections, i, env), lastRecord, limit, i, env),
                Scan(s, Served(connections, i + 1, env), last, limit, i + 1, env),
                Scan(s, Served(connections, r, env), end, limit, r, env));
    } else {
      NothingRead(connections, i, env, Scan(s, Served(connections, i, env), lastRecord, limit, i, env));
    }
  }

  lemma NothingRead(connections: seq<Connection>, i: nat, env: Env, o: Outcome)
    requires i <= |connections|
    ensures After(Delivered(connections, i, i, env), Logged(connections, i, i, env), o) == o
  {
  }

  lemma ReachesOn(connections: seq<Connection>, lastRecord: int, i: nat, r: nat, env: Env,
                  o: Outcome, next: Outcome, rest: Outcome)
    requires i < r <= |connections|
    requires o == After(Delivered(connections, i, i + 1, env), Logged(connections, i, i + 1, env), next)
    requires next == After(Delivered(connections, i + 1, r, env), Logged(connections, i + 1, r, env), rest)
    ensures o == After(Delivered(connections, i, r, env), Logged(connections, i, r, env), rest)
    ensures LastOf(Delivered(connections, i + 1, r, env), LastOf(Delivered(connections, i, i + 1, env), lastRecord))
            == LastOf(Delivered(connections, i, r, env), lastRecord)
  {
    ReachesFurther(connections, lastRecord, i, r, env, rest);
  }

  // The outcome of a scan from connection i on: every connection up to the first that must be closed is
  // read once, in order, and that one goes; the connections behind it, and one just accepted, are left
  // for the next iteration.
  function ScanOutcome(s: Settings, connections: seq<Connection>, lastRecord: int, limit: nat, i: nat,
                       env: Env): Outcome
    requires i <= limit <= |connections|
  {
    var r := FirstToClose(s, connections, limit, i, env);
    if r == limit then
      Outcome(Served(connections, limit, env), LastOf(Delivered(connections, i, limit, env), lastRecord), false,
              Delivered(connections, i, limit, env), Logged(connections, i, limit, env), [])
    else
      Outcome(RemoveAt(Served(connections, r + 1, env), r), env.closeTime, false,
              Delivered(connections, i, r + 1, env),
              Logged(connections, i, r + 1, env) + [Farewell(connections, r, env)],
              [connections[r].socket])
  }

  lemma ScanClosedForm(s: Settings, connections: seq<Connection>, lastRecord: int, limit: nat, i: nat, env: Env)
    requires i <= limit <= |connections|
    ensures Scan(s, Served(connections, i, env), lastRecord, limit, i, env)
            == ScanOutcome(s, connections, lastRecord, limit, i, env)
  {
    var r := FirstToClose(s, connections, limit, i, env);
    ScanReaches(s, connections, lastRecord, limit, i, r, env);
    var last := LastOf(Delivered(connections, i, r, env), lastRecord);
    if r < limit {
      ScanStops(s, connections, last, limit, r, env);
      ReadToTheLast(connections, i, r, env, RemoveAt(Served(connections, r + 1, env), r));
    } else {
      ScanEnds(s, Served(connections, r, env), last, limit, env);
      AfterLast(Delivered(connections, i, r, env), Logged(connections, i, r, env), Served(connections, r, env), last);
    }
  }

  lemma ScanEnds(s: Settings, connections: seq<Connection>, lastRecord: int, limit: nat, env: Env)
    requires limit <= |connections|
    ensures Scan(s, connections, lastRecord, limit, limit, env) == Outcome(connections, lastRecord, false, [], [], [])
  {
  }

  lemma AfterLast(xs: seq<Measurement>, events: seq<Event>, left: seq<Connection>, last: int)
    ensures After(xs, events, Outcome(left, last, false, [], [], [])) == Outcome(left, last, false, xs, events, [])
  {
  }

  // Reading connections i to r - 1 and then the one that is closed.
  lemma ReadToTheLast(connections: seq<Connection>, i: nat, r: nat, env: Env, left: seq<Connection>)
    requires i <= r < |connections|
    ensures After(Delivered(connections, i, r, env), Logged(connections, i, r, env),
                  Outcome(left, env.closeTime, false, Delivered(connections, r, r + 1, env),
                          Logged(connections, r, r + 1, env) + [Farewell(connections, r, env)],
                          [connections[r].socket]))
            == Outcome(left, env.closeTime, false, Delivered(connections, i, r + 1, env),
                       Logged(connections, i, r + 1, env) + [Farewell(connections, r, env)],
                       [connections[r].socket])
  {
    DeliveredConcat(connections, i, r, r + 1, env);
    LoggedConcat(connections, i, r, r + 1, env);
    AppendAssociates(Logged(connections, i, r, env), Logged(connections, r, r + 1, env),
                     [Farewell(connections, r, env)]);
  }

  // The list once a connection has been accepted, if there is a request.
  function WithAccepted(s: Settings, connections: seq<Connection>, env: Env): seq<Connection> {
    connections + if env.ready(s.server).pollIn then [Connection(0, env.accepted, env.acceptTime)] else []
  }

  // The same for a whole iteration: it ends the loop exactly when there was no connection at its top and
  // the server has been idle for longer than the timeout, whether or not a connection is waiting.
  lemma IterationClosedForm(s: Settings, connections: seq<Connection>, lastRecord: int, env: Env)
    ensures Iteration(s, connections, lastRecord, env) ==
            if connections == [] && env.idleTime > lastRecord + s.timeout then Outcome([], lastRecord, true, [], [], [])
            else ScanOutcome(s, WithAccepted(s, connections, env), lastRecord, |connections|, 0, env)
    ensures Iteration(s, connections, lastRecord, env).exited <==>
              connections == [] && env.idleTime > lastRecord + s.timeout
  {
    var now := AfterAccept(s, connections, env);
    assert now == WithAccepted(s, connections, env);
    assert Served(now, 0, env) == now;
    ScanClosedForm(s, now, lastRecord, |connections|, 0, env);
  }

  // Has poll found a connection ready, and does it deliver a whole measurement?
  function Whole(connections: seq<Connection>, env: Env): (p: nat -> bool)
    ensures forall k: nat :: p(k) <==>
              k < |connections| && env.ready(connections[k].socket).pollIn && env.receipt(connections[k].socket).ok
  {
    (k: nat) =>
      k < |connections| && env.ready(connections[k].socket).pollIn && env.receipt(connections[k].socket).ok
  }

  // Has poll found a connection ready that has had no sensor id so far?
  function Unknown(connections: seq<Connection>, env: Env): (p: nat -> bool)
    ensures forall k: nat :: p(k) <==>
              k < |connections| && env.ready(connections[k].socket).pollIn && connections[k].sensorId == 0
  {
    (k: nat) => k < |connections| && env.ready(connections[k].socket).pollIn && connections[k].sensorId == 0
  }

  // What connections lo to hi - 1 deliver is the data of exactly those that poll found ready and whose
  // receipt is complete, each once, in order.
  lemma {:induction false} DeliveredSays(connections: seq<Connection>, lo: nat, hi: nat, env: Env)
    requires lo <= hi <= |connections|
    ensures var sent := Kept(lo, hi, Whole(connections, env));
            && |Delivered(connections, lo, hi, env)| == |sent|
            && forall j :: 0 <= j < |sent| ==>
                 && sent[j] < |connections|
                 && Delivered(connections, lo, hi, env)[j] == env.receipt(connections[sent[j]].socket).data
    decreases hi - lo
  {
    if lo < hi {
      DeliveredSays(connections, lo + 1, hi, env);
    }
  }

  // The same for what is logged: exactly those that are read without having had a sensor id.
  lemma {:induction false} LoggedSays(connections: seq<Connection>, lo: nat, hi: nat, env: Env)
    requires lo <= hi <= |connections|
    ensures var told := Kept(lo, hi, Unknown(connections, env));
            && |Logged(connections, lo, hi, env)| == |told|
            && forall j :: 0 <= j < |told| ==>
                 && told[j] < |connections|
                 && Logged(connections, lo, hi, env)[j] == Opened(env.receipt(connections[told[j]].socket).data.id)
    decreases hi - lo
  {
    if lo < hi {
      LoggedSays(connections, lo + 1, hi, env);
    }
  }

  // ---------- An iteration, in terms of what the environment decides ----------

  // When connection k was last heard of, once it has been read.
  function LastHeard(connections: seq<Connection>, k: nat, env: Env): (last: int)
    requires k < |connections|
    ensures env.ready(connections[k].socket).pollIn && env.receipt(connections[k].socket).ok ==>
              last == env.receipt(connections[k].socket).data.ts
    ensures !env.ready(connections[k].socket).pollIn || !env.receipt(connections[k].socket).ok ==>
              last == connections[k].lastRecord
  {
    Refreshed(connections[k], env).lastRecord
  }

  // Has connection k hung up or been silent for too long, once it has been read?
  predicate Gone(s: Settings, connections: seq<Connection>, k: nat, env: Env)
    requires k < |connections|
  {
    || env.ready(connections[k].socket).pollRdHup
    || env.checkTime(k) > LastHeard(connections, k, env) + s.timeout
  }

  // How many connections an iteration reads: those before the first that is gone, and that one; all if there
  // is none.
  function Reach(s: Settings, connections: seq<Connection>, env: Env): (reach: nat)
    ensures reach <= |connections|
    ensures forall k :: 0 <= k < reach - 1 ==> !Gone(s, connections, k, env)
    ensures reach < |connections| ==> reach > 0 && Gone(s, connections, reach - 1, env)
  {
    var r := FirstToClose(s, connections, |connections|, 0, env);
    assert forall k :: 0 <= k < |connections| ==> Gone(s, connections, k, env) == ToClose(s, connections, k, env);
    if r < |connections| then r + 1 else r
  }

  // The scan of an iteration is over the connections at its top, whatever has been accepted.
  lemma {:induction false} ScanOverTop(s: Settings, connections: seq<Connection>, now: seq<Connection>, i: nat,
                                       env: Env)
    requires i <= |connections| && connections <= now
    ensures FirstToClose(s, now, |connections|, i, env) == FirstToClose(s, connections, |connections|, i, env)
    decreases |connections| - i
  {
    if i < |connections| {
      assert now[i] == connections[i];
      ScanOverTop(s, connections, now, i + 1, env);
    }
  }

  lemma {:induction false} ReadOverTop(connections: seq<Connection>, now: seq<Connection>, lo: nat, hi: nat, env: Env)
    requires lo <= hi <= |connections| && connections <= now
    ensures Delivered(now, lo, hi, env) == Delivered(connections, lo, hi, env)
    ensures Logged(now, lo, hi, env) == Logged(connections, lo, hi, env)
    decreases hi - lo
  {
    if lo < hi {
      assert now[lo] == connections[lo];
      ReadOverTop(connections, now, lo + 1, hi, env);
    }
  }

  // The closed form in terms of Reach: the last connection reached is closed when it is gone.
  lemma IterationByReach(s: Settings, connections: seq<Connection>, lastRecord: int, env: Env)
    requires !(connections == [] && env.idleTime > lastRecord + s.timeout)
    ensures var o, n := Iteration(s, connections, lastRecord, env), Reach(s, connections, env);
            var served := Served(WithAccepted(s, connections, env), n, env);
            && o.inserted == Delivered(connections, 0, n, env)
            && if n > 0 && Gone(s, connections, n - 1, env) then
                 && o.connections == RemoveAt(served, n - 1) && o.closed == [connections[n - 1].socket]
                 && o.lastRecord == env.closeTime
                 && o.events == Logged(connections, 0, n, env) + [Farewell(connections, n - 1, env)]
               else
                 && o.connections == served && o.closed == []
                 && o.lastRecord == LastOf(Delivered(connections, 0, n, env), lastRecord)
                 && o.events == Logged(connections, 0, n, env)
  {
    var now, n := WithAccepted(s, connections, env), Reach(s, connections, env);
    IterationClosedForm(s, connections, lastRecord, env);
    ReachStops(s, connections, now, env);
    ReadOverTop(connections, now, 0, n, env);
    var r := FirstToClose(s, now, |connections|, 0, env);
    if r < |connections| {
      assert Farewell(now, r, env) == Farewell(connections, r, env);
    }
  }

  // Reach and the scan's own bound agree.
  lemma ReachStops(s: Settings, connections: seq<Connection>, now: seq<Connection>, env: Env)
    requires connections <= now
    ensures var n, r := Reach(s, connections, env), FirstToClose(s, now, |connections|, 0, env);
            if n > 0 && Gone(s, connections, n - 1, env) then r == n - 1 else r == n == |connections|
  {
    ScanOverTop(s, connections, now, 0, env);
    var n, r := Reach(s, connections, env), FirstToClose(s, connections, |connections|, 0, env);
    assert n > 0 ==> Gone(s, connections, n - 1, env) == ToClose(s, connections, n - 1, env);
    assert n > 0 && r == |connections| ==> !ToClose(s, connections, n - 1, env);
  }

  // What is handed on is the data of exactly those reached that are ready and deliver a whole measurement, in
  // order; the time of the last record is that of the last of them, or stays, unless a connection is closed.
  lemma IterationSends(s: Settings, connections: seq<Connection>, lastRecord: int, env: Env)
    returns (sent: seq<nat>)
    requires !(connections == [] && env.idleTime > lastRecord + s.timeout)
    ensures Exactly(sent, 0, Reach(s, connections, env), Whole(connections, env))
    ensures var o := Iteration(s, connections, lastRecord, env);
            && |o.inserted| == |sent|
            && (forall j :: 0 <= j < |sent| ==> o.inserted[j] == env.receipt(connections[sent[j]].socket).data)
            && o.lastRecord == if o.closed != [] then env.closeTime
                               else if sent == [] then lastRecord
                               else env.receipt(connections[sent[|sent| - 1]].socket).data.ts
  {
    IterationByReach(s, connections, lastRecord, env);
    DeliveredSays(connections, 0, Reach(s, connections, env), env);
    KeptExactly(0, Reach(s, connections, env), Whole(connections, env));
    sent := Kept(0, Reach(s, connections, env), Whole(connections, env));
  }

  // What is logged is exactly those reached that tell their sensor id, in order, and then the one closed.
  lemma IterationLogs(s: Settings, connections: seq<Connection>, lastRecord: int, env: Env)
    returns (told: seq<nat>)
    requires !(connections == [] && env.idleTime > lastRecord + s.timeout)
    ensures Exactly(told, 0, Reach(s, connections, env), Unknown(connections, env))
    ensures var o, reach := Iteration(s, connections, lastRecord, env), Reach(s, connections, env);
            && |o.events| == |told| + |o.closed|
            && (forall j :: 0 <= j < |told| ==>
                  o.events[j] == Opened(env.receipt(connections[told[j]].socket).data.id))
            && if reach > 0 && Gone(s, connections, reach - 1, env) then
                 var c := connections[reach - 1];
                 var id := if env.ready(c.socket).pollIn && c.sensorId == 0 then env.receipt(c.socket).data.id
                           else c.sensorId;
                 && o.closed == [c.socket]
                 && o.events[|told|] == if env.ready(c.socket).pollRdHup then Closed(id) else TimedOut(id)
               else o.closed == []
  {
    IterationByReach(s, connections, lastRecord, env);
    LoggedSays(connections, 0, Reach(s, connections, env), env);
    KeptExactly(0, Reach(s, connections, env), Unknown(connections, env));
    told := Kept(0, Reach(s, connections, env), Unknown(connections, env));
  }

  // One connection of the list that an iteration has read the first n of.
  lemma ServedSays(s: Settings, connections: seq<Connection>, n: nat, env: Env, k: nat)
    requires n <= |connections| && k < |WithAccepted(s, connections, env)|
    ensures var c := Served(WithAccepted(s, connections, env), n, env)[k];
            if k < |connections| then
              && c.socket == connections[k].socket
              && c.sensorId ==
                 (if k < n && env.ready(c.socket).pollIn && connections[k].sensorId == 0
                  then env.receipt(c.socket).data.id else connections[k].sensorId)
              && c.lastRecord == (if k < n then LastHeard(connections, k, env) else connections[k].lastRecord)
            else env.ready(s.server).pollIn && c == Connection(0, env.accepted, env.acceptTime)
  {
  }

  // The connection closed goes from the list, those read are refreshed, the others stay as they were, all in
  // order, and one that was accepted comes last, without a sensor id.
  lemma IterationKeeps(s: Settings, connections: seq<Connection>, lastRecord: int, env: Env, j: nat)
    requires !(connections == [] && env.idleTime > lastRecord + s.timeout)
    ensures var o := Iteration(s, connections, lastRecord, env);
            |o.connections| == |connections| + (if env.ready(s.server).pollIn then 1 else 0) - |o.closed|
    ensures var o, reach := Iteration(s, connections, lastRecord, env), Reach(s, connections, env);
            j < |o.connections| ==>
              var c, k := o.connections[j], if o.closed != [] && j >= reach - 1 then j + 1 else j;
              if k < |connections| then
                && c.socket == connections[k].socket
                && c.sensorId ==
                   (if k < reach && env.ready(c.socket).pollIn && connections[k].sensorId == 0
                    then env.receipt(c.socket).data.id else connections[k].sensorId)
                && c.lastRecord == (if k < reach then LastHeard(connections, k, env) else connections[k].lastRecord)
              else env.ready(s.server).pollIn && c == Connection(0, env.accepted, env.acceptTime)
  {
    IterationByReach(s, connections, lastRecord, env);
    var o, n := Iteration(s, connections, lastRecord, env), Reach(s, connections, env);
    var now := WithAccepted(s, connections, env);
    if j < |o.connections| {
      if o.closed == [] {
        ServedSays(s, connections, n, env, j);
      } else {
        RemovedAt(Served(now, n, env), n - 1, j);
        ServedSays(s, connections, n, env, if j < n - 1 then j else j + 1);
      }
    }
  }

  // ---------- The array ----------

  const BEGINING_SIZE := 4
  const DECREASE_SIZE := 5

  // Lines 82-103: the size of the array after the resize.
  function Resized(connSize: nat, listSize: nat): nat {
    if listSize == connSize - 1 then connSize * 2
    else if listSize == connSize - DECREASE_SIZE then listSize + 1
    else connSize
  }

  // The resize keeps a slot for each connection; there is one more, which an accepted connection and
  // the shift after a removal need, exactly when the array is not shrunk.
  lemma RoomAfterResize(connSize: nat, listSize: nat)
    requires listSize + 1 <= connSize
    ensures listSize + 1 <= Resized(connSize, listSize)
    ensures listSize + 1 < Resized(connSize, listSize) <==> listSize != connSize - 5
  {
  }

  // A full array, and only that, is enlarged, to twice its size; one with five connections fewer than slots,
  // and only that, is shrunk, to the slots in use.
  lemma WhenResized(connSize: nat, listSize: nat)
    requires listSize + 1 <= connSize
    ensures connSize < Resized(connSize, listSize) <==> listSize + 1 == connSize
    ensures connSize < Resized(connSize, listSize) ==> Resized(connSize, listSize) == 2 * connSize
    ensures Resized(connSize, listSize) < connSize <==> listSize + 5 == connSize
    ensures Resized(connSize, listSize) < connSize ==> Resized(connSize, listSize) == listSize + 1
  {
  }

  // struct pollfd; events is the same for every slot.
  datatype PollFd = PollFd(fd: int, revents: Events)

  // shift_array
  method ShiftArray(index: nat, size: nat, fd: array<PollFd>)
    requires index <= size < fd.Length
    modifies fd
    ensures forall k :: 0 <= k < fd.Length ==> fd[k] == if index <= k < size then old(fd[k + 1]) else old(fd[k])
  {
    var i := index;
    while i < size
      invariant index <= i <= size
      invariant forall k :: 0 <= k < fd.Length ==> fd[k] == if index <= k < i then old(fd[k + 1]) else old(fd[k])
    {
      fd[i] := fd[i + 1];
      i := i + 1;
    }
  }

  class PollServer {
    const settings: Settings
    var fd: array<PollFd>
    var connSize: nat
    var connections: seq<Connection>
    var lastRecord: int

    // Slot i + 1 watches connection i.
    ghost predicate Aligned()
      reads this, fd
    {
      && fd.Length == connSize
      && |connections| + 1 <= connSize
      && fd[0].fd == settings.server
      && forall i :: 0 <= i < |connections| ==> fd[i + 1].fd == connections[i].socket
    }

    // server_create
    constructor (settings: Settings, now: int)
      ensures Aligned() && fresh(fd) && connections == [] && lastRecord == now && connSize == 4
      ensures this.settings == settings
    {
      this.settings := settings;
      connSize := BEGINING_SIZE;
      fd := new PollFd[BEGINING_SIZE](_ => PollFd(settings.server, Events(false, false)));
      connections := [];
      lastRecord := now;
    }

    // poll writes the events of the descriptors in the first n slots, and nothing else.
    method Poll(n: nat, ready: int -> Events)
      requires n <= fd.Length
      modifies fd
      ensures forall k :: 0 <= k < fd.Length ==>
                fd[k] == if k < n then old(fd[k]).(revents := ready(old(fd[k]).fd)) else old(fd[k])
    {
      var i := 0;
      while i < n
        invariant 0 <= i <= n
        invariant forall k :: 0 <= k < fd.Length ==>
                    fd[k] == if k < i then old(fd[k]).(revents := ready(old(fd[k]).fd)) else old(fd[k])
      {
        fd[i] := fd[i].(revents := ready(fd[i].fd));
        i := i + 1;
      }
    }

    // realloc: the slots up to the smaller size keep their contents.
    method Realloc(size: nat)
      modifies this`fd, this`connSize
      ensures fresh(fd) && fd.Length == size == connSize
      ensures forall k :: 0 <= k < size && k < old(fd.Length) ==> fd[k] == old(fd[k])
    {
      var was := fd;
      fd := new PollFd[size](
        k requires 0 <= k reads was => if k < was.Length then was[k] else PollFd(0, Events(false, false)));
      connSize := size;
    }

    // Each of the first n connections has in its slot what this iteration's poll found for it.
    ghost predicate FreshEvents(n: nat, env: Env)
      requires Aligned()
      reads this, fd
    {
      && n <= |connections|
      && forall i :: 0 <= i < n ==> fd[i + 1].revents == env.ready(connections[i].socket)
    }

    // Lines 144-187: read from one connection if its slot says that there is data.
    method ReadFrom(i: nat, env: Env) returns (inserted: seq<Measurement>, events: seq<Event>)
      requires i < |connections| && Aligned()
      requires fd[i + 1].revents == env.ready(connections[i].socket)
      modifies this`connections, this`lastRecord
      ensures var c := old(connections)[i];
              && connections == old(connections)[i := AfterData(c, env)]
              && lastRecord == (if Delivers(c, env) then env.receipt(c.socket).data.ts else old(lastRecord))
              && inserted == (if Delivers(c, env) then [env.receipt(c.socket).data] else [])
              && events == (if Opens(c, env) then [Opened(env.receipt(c.socket).data.id)] else [])
    {
      inserted, events := [], [];
      if fd[i + 1].revents.pollIn {
        var r := env.receipt(connections[i].socket);
        if r.ok {
          connections := connections[i := connections[i].(lastRecord := r.data.ts)];
          lastRecord := r.data.ts;
          inserted := [r.data];
        }
        if connections[i].sensorId == FIRST_SENSOR_ID {
          connections := connections[i := connections[i].(sensorId := r.data.id)];
          events := [Opened(r.data.id)];
        }
      }
    }

    // Lines 201-204 and 221-224: the connection goes from the list, its slot from the array.
    method Remove(i: nat, listSize: nat)
      requires Aligned() && i < listSize <= |connections| <= listSize + 1 < fd.Length
      modifies this`connections, fd
      ensures Aligned()
      ensures connections == RemoveAt(old(connections), i)
    {
      connections := RemoveAt(connections, i);
      ShiftArray(i + 1, listSize + 1, fd);
    }

    // Lines 141-228: one connection; stop is the break after a removal. Whatever is read from its slot
    // is what this iteration's poll found for it.
    method Serve(i: nat, listSize: nat, env: Env)
      returns (stop: bool, inserted: seq<Measurement>, events: seq<Event>, closed: seq<int>)
      requires Aligned() && FreshEvents(listSize, env) && i < listSize
      requires |Scan(settings, connections, lastRecord, listSize, i, env).connections| < |connections| ==>
                 |connections| <= listSize + 1 < fd.Length
      modifies this`connections, this`lastRecord, fd
      ensures Aligned()
      ensures stop ==> Outcome(connections, lastRecord, false, inserted, events, closed)
                       == Scan(settings, old(connections), old(lastRecord), listSize, i, env)
      ensures !stop ==>
                && |connections| == |old(connections)| && FreshEvents(listSize, env) && unchanged(fd) && closed == []
                && After(inserted, events, Scan(settings, connections, lastRecord, listSize, i + 1, env))
                   == Scan(settings, old(connections), old(lastRecord), listSize, i, env)
    {
      var revents := fd[i + 1].revents;
      inserted, events := ReadFrom(i, env);
      closed := [];
      var c := connections[i];
      stop := revents.pollRdHup || env.checkTime(i) > c.lastRecord + settings.timeout;
      if stop {
        closed := [c.socket];
        events := events + [if revents.pollRdHup then Closed(c.sensorId) else TimedOut(c.sensorId)];
        Remove(i, listSize);
        lastRecord := env.closeTime;
      }
    }

    // Lines 139-229
    method ScanConnections(listSize: nat, env: Env)
      returns (inserted: seq<Measurement>, events: seq<Event>, closed: seq<int>)
      requires Aligned() && FreshEvents(listSize, env)
      requires |Scan(settings, connections, lastRecord, listSize, 0, env).connections| < |connections| ==>
                 |connections| <= listSize + 1 < fd.Length
      modifies this`connections, this`lastRecord, fd
      ensures Aligned()
      ensures Outcome(connections, lastRecord, false, inserted, events, closed)
              == Scan(settings, old(connections), old(lastRecord), listSize, 0, env)
    {
      ghost var goal := Scan(settings, connections, lastRecord, listSize, 0, env);
      inserted, events, closed := [], [], [];
      var i := 0;
      while i < listSize
        invariant 0 <= i <= listSize <= |connections| == |old(connections)| && closed == []
        invariant fd == old(fd) && unchanged(fd)
        invariant Aligned() && FreshEvents(listSize, env)
        invariant goal == After(inserted, events, Scan(settings, connections, lastRecord, listSize, i, env))
      {
        var stop, sent, logged, shut := Serve(i, listSize, env);
        AfterAfter(inserted, events, sent, logged,
                   if stop then Outcome(connections, lastRecord, false, [], [], shut)
                   else Scan(settings, connections, lastRecord, listSize, i + 1, env));
        inserted, events, closed := inserted + sent, events + logged, shut;
        if stop {
          return;
        }
        i := i + 1;
      }
    }

    // Lines 72-229: one iteration does to the list what Iteration says, given room in the array for an
    // accepted connection and for the shift after a removal.
    method Iterate(env: Env)
      returns (exited: bool, inserted: seq<Measurement>, events: seq<Event>, closed: seq<int>)
      requires Aligned()
      requires NeedsRoom(settings, connections, lastRecord, env) ==> |connections| != connSize - 5
      modifies this, fd
      ensures Aligned() && (fd == old(fd) || fresh(fd))
      ensures connSize == Resized(old(connSize), |old(connections)|)
      ensures Outcome(connections, lastRecord, exited, inserted, events, closed)
              == Iteration(settings, old(connections), old(lastRecord), env)
    {
      var listSize := |connections|;
      RoomAfterResize(connSize, listSize);
      Poll(listSize + 1, env.ready);
      if listSize == connSize - 1 {
        Realloc(connSize * 2);
      } else if listSize == connSize - DECREASE_SIZE {
        Realloc(listSize + 1);
      }
      if fd[0].revents.pollIn {
        fd[listSize + 1] := fd[listSize + 1].(fd := env.accepted);
        connections := InsertAt(connections, |connections|, Connection(FIRST_SENSOR_ID, env.accepted, env.acceptTime));
      }
      assert connections == AfterAccept(settings, old(connections), env);
      exited, inserted, events, closed := false, [], [], [];
      if listSize == 0 && env.idleTime > lastRecord + settings.timeout {
        connections := [];
        exited := true;
        return;
      }
      inserted, events, closed := ScanConnections(listSize, env);
    }

    // Lines 70-230 for these iterations, or until the server times out; the flag ends the loop after
    // the last of them.
    method ManageConnection(envs: seq<Env>) returns (ledger: Ledger)
      requires Aligned() && RoomThroughout(settings, connections, lastRecord, connSize, envs)
      modifies this, fd
      ensures Aligned()
      ensures ledger.connections == connections && ledger.lastRecord == lastRecord
      ensures ledger == RunAll(settings, Ledger(old(connections), old(lastRecord), false, [], [], [], []), envs)
    {
      ledger := Ledger(connections, lastRecord, false, [], [], [], []);
      ghost var goal := RunAll(settings, ledger, envs);
      var k := 0;
      while k < |envs| && !ledger.exited
        invariant k <= |envs|
        invariant Aligned() && (fd == old(fd) || fresh(fd))
        invariant ledger.connections == connections && ledger.lastRecord == lastRecord
        invariant !ledger.exited ==> RoomThroughout(settings, connections, lastRecord, connSize, envs[k..])
        invariant goal == RunAll(settings, ledger, envs[k..])
      {
        var env := envs[k];
        assert envs[k..][0] == env && envs[k..][1..] == envs[k + 1..];
        var exited, inserted, events, closed := Iterate(env);
        ledger := Ledger(connections, lastRecord, exited, ledger.inserted + inserted, ledger.events + events,
                         ledger.accepted + if Accepts(settings, env) then [env.accepted] else [],
                         ledger.closed + closed);
        k := k + 1;
      }
    }
  }

  // Something is accepted or removed in this iteration.
  predicate NeedsRoom(s: Settings, connections: seq<Connection>, lastRecord: int, env: Env) {
    Accepts(s, env) || |Iteration(s, connections, lastRecord, env).connections| < |connections|
  }

  // Whenever something is accepted or removed, that iteration does not shrink the array.
  predicate RoomThroughout(s: Settings, connections: seq<Connection>, lastRecord: int, connSize: nat, envs: seq<Env>)
    decreases |envs|
  {
    envs == [] ||
    (&& (NeedsRoom(s, connections, lastRecord, envs[0]) ==> |connections| != connSize - 5)
     && var o := Iteration(s, connections, lastRecord, envs[0]);
        o.exited || RoomThroughout(s, o.connections, o.lastRecord, Resized(connSize, |connections|), envs[1..]))
  }

  // Poll finds no descriptor ready but the listening one, if that, and no time passes.
  function Quiet(s: Settings, now: int, joins: bool, socket: int): Env {
    Env(fd => Events(joins && fd == s.server, false), socket,
        c => Receipt(false, Measurement(0, 0.0, 0)), now, now, k => now, now)
  }

  // A quiet iteration does nothing but accept.
  lemma {:induction false} QuietScan(s: Settings, now: int, joins: bool, socket: int, connections: seq<Connection>,
                                     limit: nat, i: nat)
    requires 0 <= s.timeout && limit <= |connections|
    requires forall k :: 0 <= k < |connections| ==>
               connections[k].socket != s.server && connections[k].lastRecord == now
    ensures Scan(s, connections, now, limit, i, Quiet(s, now, joins, socket))
            == Outcome(connections, now, false, [], [], [])
    decreases limit - i
  {
    if i < limit {
      QuietScan(s, now, joins, socket, connections, limit, i + 1);
      assert connections[i := connections[i]] == connections;
    }
  }

  // The first n of the connections that arrive one after the other.
  function Arrivals(s: Settings, now: int, n: nat): (r: seq<Connection>)
    ensures |r| == n
    ensures forall k :: 0 <= k < n ==> r[k].socket != s.server && r[k].lastRecord == now
  {
    seq(n, k requires 0 <= k < n => Connection(FIRST_SENSOR_ID, s.server + 1 + k, now))
  }

  lemma QuietIteration(s: Settings, now: int, n: nat, joins: bool)
    requires 0 <= s.timeout
    ensures Iteration(s, Arrivals(s, now, n), now, Quiet(s, now, joins, s.server + 1 + n))
            == Outcome(Arrivals(s, now, if joins then n + 1 else n), now, false, [], [], [])
  {
    var env, connections := Quiet(s, now, joins, s.server + 1 + n), Arrivals(s, now, n);
    assert AfterAccept(s, connections, env) == Arrivals(s, now, if joins then n + 1 else n);
    QuietScan(s, now, joins, s.server + 1 + n, AfterAccept(s, connections, env), n, 0);
  }

  // Iterations that each accept a connection or none, starting with n.
  function Schedule(s: Settings, now: int, n: nat, joins: seq<bool>): (r: seq<Env>)
    ensures |r| == |joins|
    decreases |joins|
  {
    if joins == [] then []
    else
      [Quiet(s, now, joins[0], s.server + 1 + n)]
      + Schedule(s, now, if joins[0] then n + 1 else n, joins[1..])
  }

  // Do they have room, judging by the sizes alone?
  predicate Fits(n: nat, connSize: nat, joins: seq<bool>)
    decreases |joins|
  {
    joins == [] ||
    (&& (joins[0] ==> n != connSize - DECREASE_SIZE)
     && Fits(if joins[0] then n + 1 else n, Resized(connSize, n), joins[1..]))
  }

  lemma {:induction false} ScheduleHasRoom(s: Settings, now: int, n: nat, connSize: nat, joins: seq<bool>)
    requires 0 <= s.timeout
    ensures RoomThroughout(s, Arrivals(s, now, n), now, connSize, Schedule(s, now, n, joins)) <==>
              Fits(n, connSize, joins)
    decreases |joins|
  {
    if joins != [] {
      QuietIteration(s, now, n, joins[0]);
      ScheduleHasRoom(s, now, if joins[0] then n + 1 else n, Resized(connSize, n), joins[1..]);
      assert Schedule(s, now, n, joins)[1..] == Schedule(s, now, if joins[0] then n + 1 else n, joins[1..]);
    }
  }

  // Three connections that arrive one after the other and a fourth after a pause of one iteration: the
  // pause finds the array full and doubles it to eight slots; the next iteration shrinks it to four and
  // accepts into the fifth.
  lemma ThreeConnectionsLeaveNoRoom(s: Settings, now: int)
    requires 0 <= s.timeout
    ensures RoomThroughout(s, [], now, BEGINING_SIZE, Schedule(s, now, 0, [true, true, true, false]))
    ensures !RoomThroughout(s, [], now, BEGINING_SIZE, Schedule(s, now, 0, [true, true, true, false, true]))
  {
    assert Arrivals(s, now, 0) == [];
    ScheduleHasRoom(s, now, 0, BEGINING_SIZE, [true, true, true, false]);
    ScheduleHasRoom(s, now, 0, BEGINING_SIZE, [true, true, true, false, true]);
    FourFitTheFifthDoesNot();
  }

  lemma FourFitTheFifthDoesNot()
    ensures Fits(0, BEGINING_SIZE, [true, true, true, false])
    ensures !Fits(0, BEGINING_SIZE, [true, true, true, false, true])
  {
    assert Fits(3, 8, []) && !Fits(3, 8, [true]);
    assert Fits(3, 4, [false]) && !Fits(3, 4, [false, true]) by {
      assert [false][1..] == [] && [false, true][1..] == [true];
    }
    assert Fits(2, 4, [true, false]) && !Fits(2, 4, [true, false, true]) by {
      assert [true, false][1..] == [false] && [true, false, true][1..] == [false, true];
    }
    assert Fits(1, 4, [true, true, false]) && !Fits(1, 4, [true, true, false, true]) by {
      assert [true, true, false][1..] == [true, false] && [true, true, false, true][1..] == [true, false, true];
    }
    assert [true, true, true, false][1..] == [true, true, false];
    assert [true, true, true, false, true][1..] == [true, true, false, true];
  }

  // ---------- Whole runs ----------

  // The state of the loop with everything that it has accepted, closed, handed on and logged.
  datatype Ledger = Ledger(
    connections: seq<Connection>,
    lastRecord: int,
    exited: bool,
    inserted: seq<Measurement>,
    events: seq<Event>,
    accepted: seq<int>,
    closed: seq<int>)

  function Advance(s: Settings, l: Ledger, env: Env): Ledger {
    var o := Iteration(s, l.connections, l.lastRecord, env);
    Ledger(o.connections, o.lastRecord, o.exited, l.inserted + o.inserted, l.events + o.events,
           l.accepted + if Accepts(s, env) then [env.accepted] else [], l.closed + o.closed)
  }

  function RunAll(s: Settings, l: Ledger, envs: seq<Env>): Ledger
    decreases |envs|
  {
    if envs == [] || l.exited then l else RunAll(s, Advance(s, l, envs[0]), envs[1..])
  }

  // The outcomes of the iterations, one after the other, up to the one that ends the loop.
  function Outcomes(s: Settings, connections: seq<Connection>, lastRecord: int, envs: seq<Env>): seq<Outcome>
    decreases |envs|
  {
    if envs == [] then []
    else
      var o := Iteration(s, connections, lastRecord, envs[0]);
      [o] + if o.exited then [] else Outcomes(s, o.connections, o.lastRecord, envs[1..])
  }

  function AllInserted(os: seq<Outcome>): seq<Measurement> {
    if os == [] then [] else os[0].inserted + AllInserted(os[1..])
  }

  function AllEvents(os: seq<Outcome>): seq<Event> {
    if os == [] then [] else os[0].events + AllEvents(os[1..])
  }

  function AllClosed(os: seq<Outcome>): seq<int> {
    if os == [] then [] else os[0].closed + AllClosed(os[1..])
  }

  function AllAccepted(s: Settings, envs: seq<Env>): seq<int> {
    if envs == [] then []
    else (if envs[0].ready(s.server).pollIn then [envs[0].accepted] else []) + AllAccepted(s, envs[1..])
  }

  // What is added to the histories by one iteration and then by the others.
  lemma TwoParts(l: Ledger, o: Outcome, accepted: seq<int>, rest: seq<Outcome>, more: seq<int>)
    ensures l.inserted + AllInserted([o] + rest) == l.inserted + o.inserted + AllInserted(rest)
    ensures l.events + AllEvents([o] + rest) == l.events + o.events + AllEvents(rest)
    ensures l.closed + AllClosed([o] + rest) == l.closed + o.closed + AllClosed(rest)
    ensures l.accepted + (accepted + more) == l.accepted + accepted + more
  {
    assert ([o] + rest)[1..] == rest;
    AppendAssociates(l.inserted, o.inserted, AllInserted(rest));
    AppendAssociates(l.events, o.events, AllEvents(rest));
    AppendAssociates(l.closed, o.closed, AllClosed(rest));
    AppendAssociates(l.accepted, accepted, more);
  }

  // What a run hands on, logs and closes is what its iterations do, in order; it accepts wherever there is a
  // request, and is left with what the last iteration leaves.
  ghost predicate IsRunOf(s: Settings, l: Ledger, envs: seq<Env>, os: seq<Outcome>, r: Ledger) {
    && |os| <= |envs|
    && r.inserted == l.inserted + AllInserted(os)
    && r.events == l.events + AllEvents(os)
    && r.closed == l.closed + AllClosed(os)
    && r.accepted == l.accepted + AllAccepted(s, envs[..|os|])
    && (if os == [] then r == l
        else
          var last := os[|os| - 1];
          r.connections == last.connections && r.lastRecord == last.lastRecord && r.exited == last.exited)
  }

  lemma {:induction false} RunIsItsIterations(s: Settings, l: Ledger, envs: seq<Env>)
    requires !l.exited
    ensures IsRunOf(s, l, envs, Outcomes(s, l.connections, l.lastRecord, envs), RunAll(s, l, envs))
    decreases |envs|
  {
    if envs != [] {
      var o, l' := Iteration(s, l.connections, l.lastRecord, envs[0]), Advance(s, l, envs[0]);
      var rest := if o.exited then [] else Outcomes(s, o.connections, o.lastRecord, envs[1..]);
      if o.exited {
        assert RunAll(s, l', envs[1..]) == l';
      } else {
        RunIsItsIterations(s, l', envs[1..]);
      }
      OneMoreIteration(s, l, envs, o, rest, RunAll(s, l', envs[1..]));
    }
  }

  lemma OneMoreIteration(s: Settings, l: Ledger, envs: seq<Env>, o: Outcome, rest: seq<Outcome>, r: Ledger)
    requires envs != [] && o == Iteration(s, l.connections, l.lastRecord, envs[0])
    requires IsRunOf(s, Advance(s, l, envs[0]), envs[1..], rest, r)
    ensures IsRunOf(s, l, envs, [o] + rest, r)
  {
    TwoParts(l, o, if envs[0].ready(s.server).pollIn then [envs[0].accepted] else [],
             rest, AllAccepted(s, envs[1..][..|rest|]));
    assert envs[..|rest| + 1][1..] == envs[1..][..|rest|];
  }

  // Iteration k of a run begins without connections after more than the timeout of silence.
  predicate IdleAt(s: Settings, l: Ledger, envs: seq<Env>, k: nat)
    requires k < |envs|
  {
    var before := RunAll(s, l, envs[..k]);
    !before.exited && before.connections == [] && envs[k].idleTime > before.lastRecord + s.timeout
  }

  // A run has ended exactly when some iteration began like that.
  lemma {:induction false} RunExitsExactlyWhen(s: Settings, l: Ledger, envs: seq<Env>)
    requires !l.exited
    ensures RunAll(s, l, envs).exited <==> exists k :: 0 <= k < |envs| && IdleAt(s, l, envs, k)
    decreases |envs|
  {
    if envs != [] {
      var l' := Advance(s, l, envs[0]);
      IterationClosedForm(s, l.connections, l.lastRecord, envs[0]);
      assert RunAll(s, l, envs[..0]) == l;
      assert IdleAt(s, l, envs, 0) <==> l'.exited;
      if l'.exited {
        assert RunAll(s, l', envs[1..]) == l';
      } else {
        RunExitsExactlyWhen(s, l', envs[1..]);
        forall k | 0 <= k < |envs| - 1 ensures IdleAt(s, l', envs[1..], k) == IdleAt(s, l, envs, k + 1) {
          assert envs[..k + 1][1..] == envs[1..][..k];
        }
        if exists k :: 0 <= k < |envs| && IdleAt(s, l, envs, k) {
          var k :| 0 <= k < |envs| && IdleAt(s, l, envs, k);
          assert IdleAt(s, l', envs[1..], k - 1);
        }
      }
    }
  }

  function Sockets(connections: seq<Connection>): (r: seq<int>)
    ensures |r| == |connections|
    ensures forall i :: 0 <= i < |r| ==> r[i] == connections[i].socket
  {
    seq(|connections|, i requires 0 <= i < |connections| => connections[i].socket)
  }

  // xs can be had from ys by leaving out elements.
  predicate Subsequence(xs: seq<int>, ys: seq<int>)
    decreases |ys|
  {
    || xs == []
    || (ys != [] && xs[|xs| - 1] == ys[|ys| - 1] && Subsequence(xs[..|xs| - 1], ys[..|ys| - 1]))
    || (ys != [] && Subsequence(xs, ys[..|ys| - 1]))
  }

  lemma {:induction false} SubsequenceRemove(xs: seq<int>, ys: seq<int>, r: nat)
    requires Subsequence(xs, ys) && r < |xs|
    ensures Subsequence(RemoveAt(xs, r), ys)
    decreases |ys|
  {
    var front, less := ys[..|ys| - 1], RemoveAt(xs, r);
    if Subsequence(xs, front) {
      SubsequenceRemove(xs, front, r);
    } else if r == |xs| - 1 {
      assert less == xs[..|xs| - 1];
    } else {
      SubsequenceRemove(xs[..|xs| - 1], front, r);
      RemoveBeforeLast(xs, r);
    }
  }

  lemma RemoveBeforeLast(xs: seq<int>, r: nat)
    requires r < |xs| - 1
    ensures var less := RemoveAt(xs, r);
            |less| > 0 && less[|less| - 1] == xs[|xs| - 1] && less[..|less| - 1] == RemoveAt(xs[..|xs| - 1], r)
  {
    var front, last := xs[..|xs| - 1], xs[|xs| - 1];
    assert RemoveAt(xs, r) == xs[..r] + xs[r + 1..] && RemoveAt(front, r) == front[..r] + front[r + 1..];
    assert xs[..r] == front[..r] && xs[r + 1..] == front[r + 1..] + [last];
    AppendAssociates(front[..r], front[r + 1..], [last]);
  }

  lemma RemoveMultiset(xs: seq<int>, r: nat)
    requires r < |xs|
    ensures multiset(xs) == multiset(RemoveAt(xs, r)) + multiset{xs[r]}
  {
    assert xs == xs[..r] + [xs[r]] + xs[r + 1..];
  }

  // This outcome closes connection r and keeps the others, in order; or closes none when r is -1.
  predicate Closes(o: Outcome, connections: seq<Connection>, r: int) {
    if 0 <= r < |connections| then
      o.closed == [connections[r].socket] && Sockets(o.connections) == RemoveAt(Sockets(connections), r)
    else
      r == -1 && o.closed == [] && Sockets(o.connections) == Sockets(connections)
  }

  // A scan closes at most one of the connections it looks at; the others keep their order.
  lemma {:induction false} ScanCloses(s: Settings, connections: seq<Connection>, lastRecord: int, limit: nat, i: nat,
                                      env: Env)
    returns (r: int)
    requires limit <= |connections|
    ensures !Scan(s, connections, lastRecord, limit, i, env).exited
    ensures r < limit && Closes(Scan(s, connections, lastRecord, limit, i, env), connections, r)
    decreases limit - i
  {
    if limit <= i {
      return -1;
    }
    var c := connections[i];
    var c' := AfterData(c, env);
    var updated := connections[i := c'];
    assert Sockets(updated) == Sockets(connections);
    if env.ready(c.socket).pollRdHup || env.checkTime(i) > c'.lastRecord + s.timeout {
      assert Sockets(RemoveAt(updated, i)) == RemoveAt(Sockets(connections), i);
      return i;
    }
    var last := if Delivers(c, env) then env.receipt(c.socket).data.ts else lastRecord;
    r := ScanCloses(s, updated, last, limit, i + 1, env);
  }

  // Every connection accepted is either still there or closed, once, or was forgotten; those still there
  // are in the order of acceptance.
  ghost predicate Accounted(l: Ledger, forgotten: seq<int>) {
    && multiset(l.accepted) == multiset(Sockets(l.connections)) + multiset(l.closed) + multiset(forgotten)
    && Subsequence(Sockets(l.connections), l.accepted)
  }

  // The connection that this iteration accepts and then frees unclosed, with the list.
  function Forgotten(s: Settings, l: Ledger, env: Env): seq<int> {
    if env.ready(s.server).pollIn && l.connections == [] && env.idleTime > l.lastRecord + s.timeout then [env.accepted]
    else []
  }

  lemma AdvanceKeepsAccount(s: Settings, l: Ledger, env: Env)
    requires Accounted(l, [])
    ensures Accounted(Advance(s, l, env), Forgotten(s, l, env))
  {
    var now := AfterAccept(s, l.connections, env);
    var l' := Advance(s, l, env);
    AcceptKeepsAccount(s, l, env);
    if Exits(s, l.connections, l.lastRecord, env) {
      assert l'.closed == l.closed + [] == l.closed && Sockets(l.connections) == [] == Sockets(l'.connections);
    } else {
      var r := ScanCloses(s, now, l.lastRecord, |l.connections|, 0, env);
      CloseKeepsAccount(now, l.closed, l'.accepted, Iteration(s, l.connections, l.lastRecord, env), r);
    }
  }

  lemma CloseKeepsAccount(now: seq<Connection>, closed: seq<int>, accepted: seq<int>, o: Outcome, r: int)
    requires multiset(accepted) == multiset(Sockets(now)) + multiset(closed)
    requires Subsequence(Sockets(now), accepted)
    requires Closes(o, now, r)
    ensures multiset(accepted) == multiset(Sockets(o.connections)) + multiset(closed + o.closed)
    ensures Subsequence(Sockets(o.connections), accepted)
  {
    if r == -1 {
      assert closed + o.closed == closed;
    } else {
      SubsequenceRemove(Sockets(now), accepted, r);
      RemoveMultiset(Sockets(now), r);
    }
  }

  lemma AcceptKeepsAccount(s: Settings, l: Ledger, env: Env)
    requires Accounted(l, [])
    ensures var now := Sockets(AfterAccept(s, l.connections, env));
            var accepted := l.accepted + if Accepts(s, env) then [env.accepted] else [];
            && multiset(accepted) == multiset(now) + multiset(l.closed)
            && Subsequence(now, accepted)
  {
    if Accepts(s, env) {
      var now := Sockets(AfterAccept(s, l.connections, env));
      var accepted := l.accepted + [env.accepted];
      assert now == Sockets(l.connections) + [env.accepted];
      assert now[..|now| - 1] == Sockets(l.connections) && accepted[..|accepted| - 1] == l.accepted;
      assert Subsequence(now[..|now| - 1], accepted[..|accepted| - 1]);
      assert Subsequence(now, accepted);
    } else {
      assert l.accepted + [] == l.accepted;
    }
  }

  lemma ForgottenIsMissing(l: Ledger, forgotten: seq<int>)
    requires Accounted(l, forgotten)
    ensures Accounted(l, []) <==> forgotten == []
  {
    if forgotten != [] {
      var others := multiset(Sockets(l.connections)) + multiset(l.closed);
      assert forgotten[0] in multiset(forgotten);
      assert multiset(l.accepted)[forgotten[0]] > others[forgotten[0]];
      assert others + multiset([]) == others;
    }
  }

  // An iteration keeps the account exactly when it does not accept a connection and end the loop.
  lemma AdvanceAccountsExactlyWhen(s: Settings, l: Ledger, env: Env)
    requires Accounted(l, [])
    ensures Accounted(Advance(s, l, env), []) <==>
              !(env.ready(s.server).pollIn && l.connections == [] && env.idleTime > l.lastRecord + s.timeout)
  {
    AdvanceKeepsAccount(s, l, env);
    ForgottenIsMissing(Advance(s, l, env), Forgotten(s, l, env));
  }

  // The connection that a run forgets, if any: only the iteration that ends it can.
  function ForgottenBy(s: Settings, l: Ledger, envs: seq<Env>): seq<int>
    decreases |envs|
  {
    if envs == [] || l.exited then []
    else if Forgotten(s, l, envs[0]) != [] then Forgotten(s, l, envs[0])
    else ForgottenBy(s, Advance(s, l, envs[0]), envs[1..])
  }

  lemma {:induction false} RunKeepsAccount(s: Settings, l: Ledger, envs: seq<Env>)
    requires Accounted(l, [])
    ensures Accounted(RunAll(s, l, envs), ForgottenBy(s, l, envs))
    decreases |envs|
  {
    if envs != [] && !l.exited {
      var l' := Advance(s, l, envs[0]);
      AdvanceKeepsAccount(s, l, envs[0]);
      if Forgotten(s, l, envs[0]) == [] {
        RunKeepsAccount(s, l', envs[1..]);
      } else {
        assert RunAll(s, l', envs[1..]) == l';
      }
    }
  }

  function Start(now: int): Ledger {
    Ledger([], now, false, [], [], [], [])
  }

  // From the start, over any iterations: every connection accepted is still there or closed exactly when
  // the run does not end in an iteration that accepts one and then times out.
  lemma ConnectionsAreAcceptedMinusClosed(s: Settings, now: int, envs: seq<Env>)
    ensures Accounted(RunAll(s, Start(now), envs), ForgottenBy(s, Start(now), envs))
    ensures Accounted(RunAll(s, Start(now), envs), []) <==> ForgottenBy(s, Start(now), envs) == []
  {
    RunKeepsAccount(s, Start(now), envs);
    ForgottenIsMissing(RunAll(s, Start(now), envs), ForgottenBy(s, Start(now), envs));
  }

  // A connection request that is there when the server times out: the connection is accepted and never
  // closed.
  lemma AcceptedAtTheTimeout(s: Settings, now: int, env: Env) returns (l: Ledger)
    requires env.ready(s.server).pollIn && env.idleTime > now + s.timeout
    ensures l == RunAll(s, Start(now), [env]) && l.exited
    ensures l.accepted == [env.accepted] && l.closed == [] && l.connections == []
    ensures ForgottenBy(s, Start(now), [env]) == [env.accepted] && !Accounted(l, [])
  {
    l := Advance(s, Start(now), env);
    assert RunAll(s, l, [env][1..]) == l;
    ConnectionsAreAcceptedMinusClosed(s, now, [env]);
  }

  // An iteration hands on at most one measurement for each connection there was at its top.
  lemma {:induction false} ScanInserts(s: Settings, connections: seq<Connection>, lastRecord: int, limit: nat, i: nat,
                                       env: Env)
    requires i <= limit <= |connections|
    ensures |Scan(s, connections, lastRecord, limit, i, env).inserted| <= limit - i
    decreases limit - i
  {
    if i < limit {
      var c := connections[i];
      var last := if Delivers(c, env) then env.receipt(c.socket).data.ts else lastRecord;
      ScanInserts(s, connections[i := AfterData(c, env)], last, limit, i + 1, env);
    }
  }
}
