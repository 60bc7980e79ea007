/**
 What the data manager computes for a sequence of measurements (datamgr.c:36-121).

 The first half follows the program: one incremental update of one sensor entry per measurement.
 The second half says what the outcome is without any incremental state: the table and the messages
 as functions of the measurements alone. TableClosedForm and LogClosedForm connect the two.
 */
module SensorWindow {
  import opened Measurements

  // ---------- The incremental computation ----------

  // RUN_AVG_LENGTH, which datamgr.h:22 lets the build choose.
  type WindowLength = n: int | 1 <= n witness 1

  // sensor_t, with its list of temperatures as a sequence, newest first.
  datatype Entry = Entry(id: SensorId, room: SensorId, avg: real, last: int, temps: seq<real>)

  datatype Message =
    | TooCold(id: SensorId, avg: real)
    | TooWarm(room: SensorId, id: SensorId, avg: real, ts: int)
    | InvalidId(id: SensorId)

  // RUN_AVG_LENGTH, SET_MIN_TEMP and SET_MAX_TEMP.
  datatype Limits = Limits(length: WindowLength, min: real, max: real)

  datatype Manager = Manager(limits: Limits, table: seq<Entry>, log: seq<Message>)

  // The least index holding this id, or -1: what dpl_get_index_of_element returns for the sensor list.
  function IndexOfId(table: seq<Entry>, id: SensorId): (i: int)
    ensures -1 <= i < |table|
    ensures 0 <= i ==> table[i].id == id
    ensures forall k :: 0 <= k < (if i < 0 then |table| else i) ==> table[k].id != id
  {
    if table == [] then -1
    else if table[0].id == id then 0
    else
      var rest := IndexOfId(table[1..], id);
      assert forall k :: 1 <= k < |table| ==> table[k] == table[1..][k - 1];
      if rest < 0 then -1 else rest + 1
  }

  // The average when the new value fits the window (datamgr.c:69).
  function AvgGrown(avg: real, size: int, v: real): real
    requires 0 < size
  {
    (avg * (size - 1) as real + v) / size as real
  }

  // The average when the new value pushes an old one out (datamgr.c:76).
  function AvgSlid(avg: real, size: int, out: real, v: real): real
    requires 1 < size
  {
    ((size - 1) as real * avg - out + v) / (size - 1) as real
  }

  // The temperature list and running average after one more value (datamgr.c:57-79).
  function Observe(length: WindowLength, e: Entry, x: Measurement): Entry {
    var temps := [x.value] + e.temps;
    var size := |temps|;
    if size <= length then
      e.(avg := AvgGrown(e.avg, size, x.value), temps := temps, last := x.ts)
    else
      e.(avg := AvgSlid(e.avg, size, temps[length], x.value),
         temps := temps[..length] + temps[length + 1..],
         last := x.ts)
  }

  // The alarm decision (datamgr.c:88-105).
  function Alarm(limits: Limits, e: Entry, ts: int): seq<Message> {
    if e.avg < limits.min then [TooCold(e.id, e.avg)]
    else if e.avg > limits.max then [TooWarm(e.room, e.id, e.avg, ts)]
    else []
  }

  // One pass of the consumer loop on one measurement.
  function Handle(m: Manager, x: Measurement): Manager {
    var i := IndexOfId(m.table, x.id);
    if i < 0 then
      m.(log := m.log + [InvalidId(x.id)])
    else
      var e := Observe(m.limits.length, m.table[i], x);
      m.(table := m.table[i := e], log := m.log + Alarm(m.limits, e, x.ts))
  }

  function HandleAll(m: Manager, xs: seq<Measurement>): Manager {
    if xs == [] then m else Handle(HandleAll(m, xs[..|xs| - 1]), xs[|xs| - 1])
  }

  // ---------- The outcome, without incremental state ----------

  // The values reported for one sensor, oldest first.
  function Values(xs: seq<Measurement>, id: SensorId): seq<real> {
    if xs == [] then []
    else
      var x := xs[|xs| - 1];
      Values(xs[..|xs| - 1], id) + (if x.id == id then [x.value] else [])
  }

  // The time stamp of the last report of one sensor.
  function LastReport(xs: seq<Measurement>, id: SensorId, default: int): int {
    if xs == [] then default
    else if xs[|xs| - 1].id == id then xs[|xs| - 1].ts
    else LastReport(xs[..|xs| - 1], id, default)
  }

  function Min(a: int, b: int): int { if a <= b then a else b }

  // The last min(|vs|, length) values, newest first.
  function Window(length: WindowLength, vs: seq<real>): seq<real> {
    seq(Min(|vs|, length), k requires 0 <= k < Min(|vs|, length) => vs[|vs| - 1 - k])
  }

  function Sum(s: seq<real>): real {
    if s == [] then 0.0 else s[0] + Sum(s[1..])
  }

  function Mean(s: seq<real>): real
    requires s != []
  {
    Sum(s) / |s| as real
  }

  // The entry of a sensor that started with no temperatures, once xs have been handled.
  function EntryAfter(length: WindowLength, e: Entry, xs: seq<Measurement>): Entry {
    var vs := Values(xs, e.id);
    if vs == [] then e
    else Entry(e.id, e.room, Mean(Window(length, vs)), LastReport(xs, e.id, e.last), Window(length, vs))
  }

  // The message caused by the last of xs: decided by the window of its sensor alone.
  function Decision(limits: Limits, table: seq<Entry>, xs: seq<Measurement>): seq<Message>
    requires xs != []
  {
    var x := xs[|xs| - 1];
    var i := IndexOfId(table, x.id);
    if i < 0 then [InvalidId(x.id)]
    else
      var avg := Mean(Window(limits.length, Values(xs, x.id)));
      if avg < limits.min then [TooCold(x.id, avg)]
      else if avg > limits.max then [TooWarm(table[i].room, x.id, avg, x.ts)]
      else []
  }

  function Decisions(limits: Limits, table: seq<Entry>, xs: seq<Measurement>): seq<Message> {
    if xs == [] then [] else Decisions(limits, table, xs[..|xs| - 1]) + Decision(limits, table, xs)
  }

  // The sensor list before the first measurement: empty temperature lists, averages uninitialised.
  ghost predicate Unused(table: seq<Entry>) {
    forall i :: 0 <= i < |table| ==> table[i].temps == []
  }

  // ---------- Arithmetic ----------

  lemma {:induction false} SumConcat(a: seq<real>, b: seq<real>)
    ensures Sum(a + b) == Sum(a) + Sum(b)
  {
    if a == [] {
      assert a + b == b;
    } else {
      SumConcat(a[1..], b);
      assert (a + b)[1..] == a[1..] + b;
    }
  }

  lemma DivIsExact(a: real, s: real, k: real)
    requires k != 0.0
    ensures a == s / k <==> a * k == s
  {
  }

  // ---------- One sensor: the running average is the mean of its window ----------

  ghost predicate IsWindow(length: WindowLength, e: Entry, vs: seq<real>) {
    && e.temps == Window(length, vs)
    && (vs != [] ==> e.avg == Mean(e.temps))
  }

  // Adding a value in front of a list of known mean.
  lemma MeanGrows(avg: real, temps: seq<real>, v: real)
    requires temps != [] ==> avg == Mean(temps)
    ensures AvgGrown(avg, |temps| + 1, v) == Mean([v] + temps)
  {
    var k := |temps| as real;
    SumConcat([v], temps);
    assert Sum([v]) == v by { assert [v][1..] == []; }
    assert avg * k == Sum(temps) by {
      if temps == [] { assert k == 0.0; } else { DivIsExact(avg, Sum(temps), k); }
    }
  }

  // Adding a value in front and dropping the last one.
  lemma MeanSlides(avg: real, temps: seq<real>, v: real)
    requires temps != [] && avg == Mean(temps)
    ensures AvgSlid(avg, |temps| + 1, temps[|temps| - 1], v) == Mean([v] + temps[..|temps| - 1])
  {
    var k, out, rest := |temps| as real, temps[|temps| - 1], temps[..|temps| - 1];
    assert temps == rest + [out];
    SumConcat(rest, [out]);
    SumConcat([v], rest);
    assert Sum([v]) == v by { assert [v][1..] == []; }
    assert Sum([out]) == out by { assert [out][1..] == []; }
    assert k * avg == Sum(temps) by { DivIsExact(avg, Sum(temps), k); }
  }

  // The list after one more value is the window slid by one.
  lemma WindowSlides(length: WindowLength, vs: seq<real>, v: real)
    ensures Window(length, vs + [v]) == [v] + Window(length, vs)[..Min(|vs|, length - 1)]
  {
  }

  // One more value: the window slides by one and the average follows it, whatever the average was
  // before the first value.
  lemma ObserveSlides(length: WindowLength, e: Entry, vs: seq<real>, x: Measurement)
    requires IsWindow(length, e, vs)
    ensures IsWindow(length, Observe(length, e, x), vs + [x.value])
  {
    var k, temps := |e.temps|, [x.value] + e.temps;
    WindowSlides(length, vs, x.value);
    if k < length {
      assert e.temps[..k] == e.temps;
      MeanGrows(e.avg, e.temps, x.value);
    } else {
      assert temps[length] == e.temps[k - 1];
      assert temps[..length] + temps[length + 1..] == [x.value] + e.temps[..k - 1];
      MeanSlides(e.avg, e.temps, x.value);
      assert Min(|vs|, length - 1) == k - 1;
      assert Observe(length, e, x).temps == [x.value] + e.temps[..k - 1];
    }
  }

  // ---------- The whole table ----------

  lemma {:induction false} HandleAllKeepsIds(m: Manager, xs: seq<Measurement>)
    ensures HandleAll(m, xs).limits == m.limits
    ensures |HandleAll(m, xs).table| == |m.table|
    ensures forall i :: 0 <= i < |m.table| ==>
              HandleAll(m, xs).table[i].id == m.table[i].id && HandleAll(m, xs).table[i].room == m.table[i].room
    ensures forall id: SensorId :: IndexOfId(HandleAll(m, xs).table, id) == IndexOfId(m.table, id)
  {
    if xs != [] {
      HandleAllKeepsIds(m, xs[..|xs| - 1]);
    }
    forall id: SensorId
      ensures IndexOfId(HandleAll(m, xs).table, id) == IndexOfId(m.table, id)
    {
      SameIdsSameIndex(HandleAll(m, xs).table, m.table, id);
    }
  }

  lemma SameIdsSameIndex(a: seq<Entry>, b: seq<Entry>, id: SensorId)
    requires |a| == |b|
    requires forall i :: 0 <= i < |a| ==> a[i].id == b[i].id
    ensures IndexOfId(a, id) == IndexOfId(b, id)
  {
    var i, j := IndexOfId(a, id), IndexOfId(b, id);
    if 0 <= i { assert b[i].id == id; }
    if 0 <= j { assert a[j].id == id; }
  }

  // Every entry after any measurements: the first entry of each id holds the window, the mean and the
  // last time stamp of that sensor; a later entry with a repeated id is never touched.
  lemma {:induction false} TableClosedForm(m: Manager, xs: seq<Measurement>, i: int)
    requires Unused(m.table)
    requires 0 <= i < |m.table|
    ensures |HandleAll(m, xs).table| == |m.table|
    ensures HandleAll(m, xs).table[i] ==
            if IndexOfId(m.table, m.table[i].id) == i then EntryAfter(m.limits.length, m.table[i], xs)
            else m.table[i]
  {
    HandleAllKeepsIds(m, xs);
    if xs != [] {
      var ys, x := xs[..|xs| - 1], xs[|xs| - 1];
      HandleAllKeepsIds(m, ys);
      TableClosedForm(m, ys, i);
      if IndexOfId(m.table, x.id) == i {
        HandledEntry(m, xs, i);
      } else {
        assert HandleAll(m, xs).table[i] == HandleAll(m, ys).table[i];
        if IndexOfId(m.table, m.table[i].id) == i {
          assert Values(xs, m.table[i].id) == Values(ys, m.table[i].id);
        }
      }
    }
  }

  // The entry a measurement is matched with, before and after it.
  lemma HandledEntry(m: Manager, xs: seq<Measurement>, i: int)
    requires xs != []
    requires 0 <= i < |m.table| && m.table[i].temps == []
    requires i == IndexOfId(m.table, xs[|xs| - 1].id)
    requires |HandleAll(m, xs[..|xs| - 1]).table| == |m.table|
    requires HandleAll(m, xs[..|xs| - 1]).table[i] == EntryAfter(m.limits.length, m.table[i], xs[..|xs| - 1])
    ensures Observe(m.limits.length, HandleAll(m, xs[..|xs| - 1]).table[i], xs[|xs| - 1])
            == EntryAfter(m.limits.length, m.table[i], xs)
  {
    var ys, x := xs[..|xs| - 1], xs[|xs| - 1];
    ObserveSlides(m.limits.length, HandleAll(m, ys).table[i], Values(ys, x.id), x);
  }

  // Every message: the log is decided by the windows alone.
  lemma {:induction false} LogClosedForm(m: Manager, xs: seq<Measurement>)
    requires Unused(m.table)
    ensures HandleAll(m, xs).log == m.log + Decisions(m.limits, m.table, xs)
  {
    if xs != [] {
      var ys, x := xs[..|xs| - 1], xs[|xs| - 1];
      LogClosedForm(m, ys);
      HandleAllKeepsIds(m, ys);
      var i := IndexOfId(m.table, x.id);
      if 0 <= i {
        TableClosedForm(m, ys, i);
        HandledEntry(m, xs, i);
      }
    }
  }
}
