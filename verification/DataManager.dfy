/**
 The data manager (datamgr.c) on the heap: a list of sensors, each with its own list of temperatures.

 Everything it does to the heap is what SensorWindow says about entries.
 */
module DataManager {
  import opened Measurements
  import opened SensorWindow
  import opened ListSpec
  import DPList

  ghost predicate AllPresent(s: seq<Option<real>>) {
    forall i :: 0 <= i < |s| ==> s[i].Some?
  }

  ghost function Present(s: seq<Option<real>>): seq<real>
    requires AllPresent(s)
  {
    seq(|s|, i requires 0 <= i < |s| && s[i].Some? => s[i].value)
  }

  // sensor_t. Its list of temperatures is created with it and never replaced: the program assigns back
  // the pointer that dpl_insert_at_index returns.
  class Sensor {
    const sensorId: SensorId
    const roomId: SensorId
    const temperatures: DPList.List<real>
    var runningAvg: real
    var lastModified: int

    ghost var Repr: set<object>

    ghost predicate Valid()
      reads this, Repr
      ensures Valid() ==> this in Repr
    {
      && this in Repr && temperatures in Repr
      && (forall n :: n in temperatures.nodes ==> n in Repr)
      && temperatures.Valid() && AllPresent(temperatures.Elements())
    }

    ghost function View(): Entry
      requires Valid()
      reads this, Repr
    {
      Entry(sensorId, roomId, runningAvg, lastModified, Present(temperatures.Elements()))
    }

    // datamgr.c:18-25; the average and the time stamp are not initialised.
    constructor (sensorId: SensorId, roomId: SensorId, runningAvg: real, lastModified: int)
      ensures Valid() && fresh(Repr)
      ensures View() == Entry(sensorId, roomId, runningAvg, lastModified, [])
    {
      this.sensorId := sensorId;
      this.roomId := roomId;
      this.runningAvg := runningAvg;
      this.lastModified := lastModified;
      temperatures := new DPList.List(x => x, x => None, (x, y) => 0);
      new;
      Repr := {this, temperatures};
    }

    ghost function Temperatures(): seq<real>
      requires Valid()
      reads this, Repr
    {
      Present(temperatures.Elements())
    }

    // datamgr.c:54-59: the new value goes to the front.
    method Push(value: real)
      requires Valid()
      modifies Repr
      ensures runningAvg == old(runningAvg)
      ensures Valid() && fresh(Repr - old(Repr))
      ensures Temperatures() == [value] + old(Temperatures())
    {
      ghost var elements := temperatures.Elements();
      var l := DPList.InsertAtIndex(temperatures, Some(value), -1, false);
      Repr := Repr + set n | n in temperatures.nodes;
      assert temperatures.Elements() == [Some(value)] + elements;
    }

    // datamgr.c:78
    method Drop(index: nat)
      requires Valid() && index < |Temperatures()|
      modifies Repr
      ensures runningAvg == old(runningAvg)
      ensures Valid() && Repr == old(Repr)
      ensures Temperatures() == old(Temperatures())[..index] + old(Temperatures())[index + 1..]
    {
      ghost var elements := temperatures.Elements();
      var l, released := DPList.RemoveAtIndex(temperatures, index, false);
      assert temperatures.Elements() == elements[..index] + elements[index + 1..];
    }

    // datamgr.c:61-79: the average follows, and the value that leaves the window is dropped.
    method Average(length: WindowLength)
      requires Valid() && Temperatures() != []
      modifies Repr
      ensures Valid() && Repr == old(Repr)
      ensures var temps, size := old(Temperatures()), |old(Temperatures())|;
              if size <= length then
                Temperatures() == temps && runningAvg == AvgGrown(old(runningAvg), size, temps[0])
              else
                && Temperatures() == temps[..length] + temps[length + 1..]
                && runningAvg == AvgSlid(old(runningAvg), size, temps[length], temps[0])
    {
      var size := DPList.Size(temperatures);
      var first := DPList.ElementAtIndex(temperatures, 0);
      if size <= length {
        runningAvg := AvgGrown(runningAvg, size, first.value);
      } else {
        var out := DPList.ElementAtIndex(temperatures, length);
        runningAvg := AvgSlid(runningAvg, size, out.value, first.value);
        Drop(length);
      }
    }

    // datamgr.c:54-82
    method Record(length: WindowLength, x: Measurement)
      requires Valid()
      modifies Repr
      ensures Valid() && fresh(Repr - old(Repr))
      ensures View() == Observe(length, old(View()), x)
    {
      Push(x.value);
      Average(length);
      lastModified := x.ts;
    }
  }

  // What sensor_compare is handed: a sensor, or the address of a measurement's id, which it reads as
  // the first field of a sensor (datamgr.c:47, datamgr.c:208-211).
  datatype SensorRef = Record(sensor: Sensor) | IdCell(id: SensorId)

  function IdOf(r: SensorRef): SensorId {
    match r
    case Record(s) => s.sensorId
    case IdCell(id) => id
  }

  // sensor_compare
  function SensorCompare(a: SensorRef, b: SensorRef): int {
    if IdOf(a) < IdOf(b) then -1 else if IdOf(a) == IdOf(b) then 0 else 1
  }

  // It orders sensors by their ids, so that dpl_insert_sorted could keep a list of them sorted.
  lemma SensorCompareOrders(s: seq<Option<SensorRef>>)
    ensures Orders(SensorCompare, s)
    ensures forall a, b :: SensorCompare(a, b) <= 0 <==> IdOf(a) <= IdOf(b)
    ensures forall a, b :: SensorCompare(a, b) == 0 <==> IdOf(a) == IdOf(b)
  {
  }

  // One line of room_sensor.map, with what the new sensor's memory happens to hold in the two fields
  // that are not initialised.
  datatype MapRow = MapRow(room: SensorId, id: SensorId, avg: real, last: int)

  function NewEntry(row: MapRow): Entry {
    Entry(row.id, row.room, row.avg, row.last, [])
  }

  // The index at which every row is inserted (datamgr.c:26).
  const MAP_INDEX := 150

  // A list after inserting these one after the other.
  function Loaded<X>(xs: seq<X>): seq<X> {
    if xs == [] then [] else InsertAt(Loaded(xs[..|xs| - 1]), MAP_INDEX, xs[|xs| - 1])
  }

  function Entries(rows: seq<MapRow>): (t: seq<Entry>)
    ensures |t| == |rows|
    ensures forall i :: 0 <= i < |t| ==> t[i] == NewEntry(rows[i])
  {
    seq(|rows|, i requires 0 <= i < |rows| => NewEntry(rows[i]))
  }

  lemma OneMoreRow(rows: seq<MapRow>, k: nat)
    requires k < |rows|
    ensures Loaded(Entries(rows[..k + 1])) == InsertAt(Loaded(Entries(rows[..k])), MAP_INDEX, NewEntry(rows[k]))
  {
    assert Entries(rows[..k + 1])[..k] == Entries(rows[..k]);
  }

  function Reversed<X>(s: seq<X>): (r: seq<X>)
    ensures |r| == |s|
    ensures forall i :: 0 <= i < |s| ==> r[i] == s[|s| - 1 - i]
  {
    seq(|s|, i requires 0 <= i < |s| => s[|s| - 1 - i])
  }

  // The first 150 stay in order; each later one goes before those that came after the 150th.
  lemma {:induction false} LoadedClosedForm<X>(xs: seq<X>)
    ensures Loaded(xs) == if |xs| <= 150 then xs else xs[..150] + Reversed(xs[150..])
  {
    if xs != [] {
      var fewer, x := xs[..|xs| - 1], xs[|xs| - 1];
      LoadedClosedForm(fewer);
      if |xs| <= MAP_INDEX {
        assert InsertAt(fewer, MAP_INDEX, x) == xs;
      } else {
        LaterRow(xs);
      }
    }
  }

  lemma LaterRow<X>(xs: seq<X>)
    requires |xs| > MAP_INDEX
    ensures var fewer := xs[..|xs| - 1];
            var before := if |fewer| <= MAP_INDEX then fewer else fewer[..MAP_INDEX] + Reversed(fewer[MAP_INDEX..]);
            InsertAt(before, MAP_INDEX, xs[|xs| - 1]) == xs[..MAP_INDEX] + Reversed(xs[MAP_INDEX..])
  {
    var fewer, x := xs[..|xs| - 1], xs[|xs| - 1];
    assert fewer[..MAP_INDEX] == xs[..MAP_INDEX];
    assert Reversed(xs[MAP_INDEX..]) == [x] + Reversed(fewer[MAP_INDEX..]);
    var before := fewer[..MAP_INDEX] + Reversed(fewer[MAP_INDEX..]);
    assert |fewer| <= MAP_INDEX ==> before == fewer;
    assert before[..MAP_INDEX] == xs[..MAP_INDEX] && before[MAP_INDEX..] == Reversed(fewer[MAP_INDEX..]);
  }

  // This entry is of the sensor and the room that a row names; the sensor comes second in the row.
  predicate IsOf(e: Entry, row: MapRow) {
    e.id == row.id && e.room == row.room
  }

  // Where row k of n ends up.
  function Place(k: nat, n: nat): (i: nat)
    requires k < n
    ensures i < n
    ensures k < 150 ==> i == k
    ensures k >= 150 ==> i + k == n + 149
  {
    if k < 150 then k else n + 149 - k
  }

  lemma RowsInPlace(rows: seq<MapRow>)
    ensures |Loaded(Entries(rows))| == |rows|
    ensures forall k :: 0 <= k < |rows| ==>
              IsOf(Loaded(Entries(rows))[Place(k, |rows|)], rows[k])
                && Loaded(Entries(rows))[Place(k, |rows|)].temps == []
  {
    LoadedClosedForm(Entries(rows));
  }

  // Which row an id is found in: the first of the first 150 that has it, otherwise the last of the others.
  ghost predicate FoundIn(rows: seq<MapRow>, id: SensorId, k: nat) {
    && k < |rows| && rows[k].id == id
    && (k < 150 ==> forall j :: 0 <= j < k ==> rows[j].id != id)
    && (k >= 150 ==> forall j :: 0 <= j < |rows| && (j < 150 || k < j) ==> rows[j].id != id)
  }

  lemma FoundAfterLoading(rows: seq<MapRow>, id: SensorId)
    ensures (forall k :: 0 <= k < |rows| ==> rows[k].id != id) ==> IndexOfId(Loaded(Entries(rows)), id) < 0
    ensures forall k: nat :: FoundIn(rows, id, k) ==> IndexOfId(Loaded(Entries(rows)), id) == Place(k, |rows|)
  {
    var table, n, i := Loaded(Entries(rows)), |rows|, IndexOfId(Loaded(Entries(rows)), id);
    RowsInPlace(rows);
    if 0 <= i {
      assert Place(Place(i, n), n) == i;
      assert IsOf(table[i], rows[Place(i, n)]);
    }
    forall k: nat | FoundIn(rows, id, k) ensures i == Place(k, n) {
      assert IsOf(table[Place(k, n)], rows[k]);
      var found := Place(i, n);
      assert rows[found].id == id;
    }
  }

  lemma RoomAfterLoading(rows: seq<MapRow>, id: SensorId)
    ensures var t, i := Loaded(Entries(rows)), IndexOfId(Loaded(Entries(rows)), id);
            && ((forall k :: 0 <= k < |rows| ==> rows[k].id != id) ==> i < 0)
            && (forall k: nat :: FoundIn(rows, id, k) ==> 0 <= i && t[i].room == rows[k].room)
  {
    FoundAfterLoading(rows, id);
    RowsInPlace(rows);
    forall k: nat | FoundIn(rows, id, k) ensures IsOf(Loaded(Entries(rows))[Place(k, |rows|)], rows[k]) {
    }
  }

  // However the rows are ordered, no sensor has a temperature yet.
  lemma LoadedUnused(rows: seq<MapRow>)
    ensures Unused(Loaded(Entries(rows)))
  {
    LoadedClosedForm(Entries(rows));
  }

  // What HandleMeasurement promises is one step of SensorWindow.
  lemma HandledIsHandle(limits: Limits, table: seq<Entry>, log: seq<Message>, x: Measurement,
                        after: seq<Entry>, messages: seq<Message>)
    requires var i := IndexOfId(table, x.id);
             if i < 0 then after == table && messages == [InvalidId(x.id)]
             else
               && after == table[i := Observe(limits.length, table[i], x)]
               && messages == Alarm(limits, after[i], x.ts)
    ensures Handle(Manager(limits, table, log), x) == Manager(limits, after, log + messages)
  {
  }

  // The list of sensors with what its elements point to.
  class SensorTable {
    const sensorList: DPList.List<SensorRef>
    ghost var sensors: seq<Sensor>
    ghost var listRepr: set<object>

    ghost function Repr(): set<object>
      reads this, sensors
    {
      {this} + listRepr + set s, o | s in sensors && o in s.Repr :: o
    }

    ghost predicate ListValid()
      reads this, listRepr
    {
      && this !in listRepr && sensorList in listRepr
      && (forall n :: n in sensorList.nodes ==> n in listRepr)
      && sensorList.Valid()
      && sensorList.elementCompare == SensorCompare
      && |sensors| == |sensorList.nodes|
      && forall i :: 0 <= i < |sensors| ==> sensorList.Elements()[i] == Some(Record(sensors[i]))
    }

    // No object belongs to two sensors, or to a sensor and the list.
    ghost predicate Apart()
      reads this, sensors
    {
      && (forall i, j :: 0 <= i < j < |sensors| ==> sensors[i] != sensors[j])
      && (forall s :: s in sensors ==> s.Repr !! listRepr && this !in s.Repr)
      && (forall s, t :: s in sensors && t in sensors && s != t ==> s.Repr !! t.Repr)
    }

    ghost predicate Valid()
      reads this, sensors, Repr()
    {
      && ListValid()
      && (forall s :: s in sensors ==> s.Valid())
      && Apart()
    }

    ghost function Table(): (t: seq<Entry>)
      requires Valid()
      reads this, sensors, Repr()
      ensures |t| == |sensors|
      ensures forall i :: 0 <= i < |t| ==> t[i] == sensors[i].View()
    {
      seq(|sensors|,
          i requires 0 <= i < |sensors| && sensors[i].Valid() reads this, sensors, Repr() => sensors[i].View())
    }

    twostate lemma SensorsUnchanged()
      requires old(Valid())
      requires forall o :: o in old(Repr()) ==> unchanged(o)
      ensures sensors == old(sensors) && listRepr == old(listRepr) && unchanged(sensorList)
      ensures forall s :: s in sensors ==> s.Repr == old(s.Repr) && s.Valid() && s.View() == old(s.View())
    {
      assert this in old(Repr()) && sensorList in old(Repr());
      assert forall s :: s in old(sensors) ==> s in old(Repr()) && old(s.Repr) <= old(Repr());
    }

    // Whatever else changes, the table is what its own objects say.
    twostate lemma TableUnchanged()
      requires old(Valid())
      requires forall o :: o in old(Repr()) ==> unchanged(o)
      ensures Valid() && Repr() == old(Repr()) && Table() == old(Table())
    {
      SensorsUnchanged();
    }

    // The index that dpl_get_index_of_element finds for an id.
    lemma FoundById(id: SensorId, index: int)
      requires Valid()
      requires IsIndexOf(sensorList.elementCompare, sensorList.Elements(), Some(IdCell(id)), index)
      ensures index == IndexOfId(Table(), id)
    {
      assert forall i :: 0 <= i < |sensors| ==>
               (Matches(sensorList.elementCompare, sensorList.Elements()[i], Some(IdCell(id))) <==>
                Table()[i].id == id);
      IndexOfIsUnique(sensorList.elementCompare, sensorList.Elements(), Some(IdCell(id)), index,
                      IndexOfId(Table(), id));
    }

    // The list before the first row of the map file.
    constructor ()
      ensures Valid() && fresh(listRepr) && sensors == [] && Table() == []
    {
      sensorList := new DPList.List(x => x, x => None, SensorCompare);
      sensors := [];
      new;
      listRepr := {sensorList};
    }

    // datamgr.c:54-82 on one sensor of the list: the objects of the others stay as they were.
    method RecordIn(length: WindowLength, sensor: Sensor, x: Measurement)
      requires Valid() && sensor in sensors
      modifies sensor.Repr
      ensures ListValid() && Apart()
      ensures sensor.Valid() && fresh(sensor.Repr - old(sensor.Repr))
      ensures sensor.View() == Observe(length, old(sensor.View()), x)
      ensures forall s :: s in sensors && s != sensor ==>
                s.Repr == old(s.Repr) && s.Valid() && s.View() == old(s.View())
    {
      ghost var before := sensor.Repr;
      sensor.Record(length, x);
      forall s | s in sensors && s != sensor
        ensures s.Repr == old(s.Repr) && s.Valid() && s.View() == old(s.View())
        ensures s.Repr !! sensor.Repr
      {
        assert old(s.Repr) !! before && old(s.Valid());
      }
    }

    // datamgr.c:50-105: the measurement comes from a sensor of the list.
    method HandleKnown(limits: Limits, ghost index: int, sensor: Sensor, x: Measurement)
      returns (messages: seq<Message>)
      requires Valid() && 0 <= index < |sensors| && sensor == sensors[index] && sensor.sensorId == x.id
      modifies sensor.Repr
      ensures Valid() && fresh(Repr() - old(Repr()))
      ensures Table() == old(Table())[index := Observe(limits.length, old(Table())[index], x)]
      ensures messages == Alarm(limits, Table()[index], x.ts)
    {
      ghost var table := Table();
      RecordIn(limits.length, sensor, x);
      RowReplaced(table, index, Observe(limits.length, table[index], x));
      messages :=
        if sensor.runningAvg < limits.min then [TooCold(x.id, sensor.runningAvg)]
        else if sensor.runningAvg > limits.max then [TooWarm(sensor.roomId, x.id, sensor.runningAvg, x.ts)]
        else [];
    }

    // A table in which the sensor at one index has changed.
    lemma RowReplaced(table: seq<Entry>, index: nat, e: Entry)
      requires Valid() && index < |sensors| == |table|
      requires sensors[index].View() == e
      requires forall i :: 0 <= i < |sensors| && i != index ==> sensors[i].View() == table[i]
      ensures Table() == table[index := e]
    {
    }

    // datamgr.c:47: the index of this id.
    method Find(id: SensorId) returns (index: int)
      requires Valid()
      ensures Valid() && Repr() == old(Repr()) && Table() == old(Table())
      ensures index == IndexOfId(Table(), id)
    {
      index := DPList.IndexOfElement(sensorList, Some(IdCell(id)));
      FoundById(id, index);
    }

    // datamgr.c:52: the sensor at an index that Find returned.
    method SensorAt(index: int) returns (sensor: Sensor)
      requires Valid() && 0 <= index < |sensors|
      ensures Valid() && Repr() == old(Repr()) && Table() == old(Table())
      ensures sensor == sensors[index]
    {
      var element := DPList.ElementAtIndex(sensorList, index);
      sensor := element.value.sensor;
    }

    method HandleFound(limits: Limits, index: int, x: Measurement) returns (messages: seq<Message>)
      requires Valid() && 0 <= index < |sensors| && index == IndexOfId(Table(), x.id)
      modifies Repr()
      ensures Valid() && fresh(Repr() - old(Repr()))
      ensures Table() == old(Table())[index := Observe(limits.length, old(Table())[index], x)]
      ensures messages == Alarm(limits, Table()[index], x.ts)
    {
      assert Table()[index].id == x.id;
      var sensor := SensorAt(index);
      messages := HandleKnown(limits, index, sensor, x);
    }

    // One pass of the consumer loop (datamgr.c:46-122), but for the synchronisation.
    method HandleMeasurement(limits: Limits, x: Measurement) returns (messages: seq<Message>)
      requires Valid()
      modifies Repr()
      ensures Valid() && fresh(Repr() - old(Repr()))
      ensures var table, i := old(Table()), IndexOfId(old(Table()), x.id);
              if i < 0 then Table() == table && messages == [InvalidId(x.id)]
              else
                && Table() == table[i := Observe(limits.length, table[i], x)]
                && messages == Alarm(limits, Table()[i], x.ts)
    {
      var index := Find(x.id);
      if index >= 0 {
        messages := HandleFound(limits, index, x);
      } else {
        messages := [InvalidId(x.id)];
      }
    }

    // ---------- Loading the map file ----------

    // datamgr.c:18-25: a new sensor leaves the table as it is.
    method NewSensor(row: MapRow) returns (sensor: Sensor)
      requires Valid()
      ensures Valid() && Repr() == old(Repr()) && Table() == old(Table())
      ensures sensor.Valid() && fresh(sensor.Repr) && sensor.View() == NewEntry(row)
    {
      sensor := new Sensor(row.id, row.room, row.avg, row.last);
    }

    // datamgr.c:18-26
    method AddSensor(row: MapRow)
      requires Valid()
      modifies this, listRepr
      ensures Valid() && fresh(listRepr - old(listRepr))
      ensures forall s :: s in sensors ==> if s in old(sensors) then s.Repr == old(s.Repr) else fresh(s.Repr)
      ensures Table() == InsertAt(old(Table()), MAP_INDEX, NewEntry(row))
    {
      var sensor := NewSensor(row);
      LinkSensor(sensor);
    }

    method LinkSensor(sensor: Sensor)
      requires Valid() && sensor.Valid() && sensor.Repr !! Repr()
      modifies this, listRepr
      ensures sensors == InsertAt(old(sensors), MAP_INDEX, sensor)
      ensures Valid() && fresh(listRepr - old(listRepr))
      ensures sensor.Repr == old(sensor.Repr) && forall s :: s in old(sensors) ==> s.Repr == old(s.Repr)
      ensures Table() == InsertAt(old(Table()), MAP_INDEX, sensor.View()) && sensor.View() == old(sensor.View())
    {
      ghost var before, table := sensors, Table();
      LinkNode(sensor);
      forall s | s in before
        ensures s.Repr == old(s.Repr) && s.Valid() && s.View() == old(s.View())
      {
        assert old(s.Valid()) && old(s.Repr) !! old(listRepr);
      }
      LinkedApart(before, sensor);
      Linked(before, table, sensor);
    }

    lemma LinkedApart(before: seq<Sensor>, sensor: Sensor)
      requires sensors == InsertAt(before, MAP_INDEX, sensor) && sensor !in before
      requires forall i, j :: 0 <= i < j < |before| ==> before[i] != before[j]
      requires forall s :: s in before || s == sensor ==> s.Repr !! listRepr && this !in s.Repr
      requires forall s, t :: s in before && t in before && s != t ==> s.Repr !! t.Repr
      requires forall s :: s in before ==> s.Repr !! sensor.Repr
      ensures Apart()
    {
      assert forall s :: s in sensors ==> s in before || s == sensor;
    }

    // The list of sensors alone.
    method LinkNode(sensor: Sensor)
      requires ListValid()
      modifies this, listRepr
      ensures ListValid() && fresh(listRepr - old(listRepr))
      ensures sensors == InsertAt(old(sensors), MAP_INDEX, sensor)
    {
      ghost var before, elements := sensors, sensorList.Elements();
      var l := DPList.InsertAtIndex(sensorList, Some(Record(sensor)), MAP_INDEX, false);
      sensors := InsertAt(before, MAP_INDEX, sensor);
      listRepr := listRepr + set n | n in sensorList.nodes;
      assert sensorList.Elements() == InsertAt(elements, MAP_INDEX, Some(Record(sensor)));
    }

    lemma Linked(before: seq<Sensor>, table: seq<Entry>, sensor: Sensor)
      requires Valid()
      requires sensors == InsertAt(before, MAP_INDEX, sensor)
      requires |before| == |table| && forall i :: 0 <= i < |before| ==>
                 before[i].Valid() && before[i].View() == table[i]
      ensures Table() == InsertAt(table, MAP_INDEX, sensor.View())
    {
    }

    // datamgr.c:13-27
    static method LoadRows(rows: seq<MapRow>) returns (table: SensorTable)
      ensures table.Valid() && fresh(table.Repr())
      ensures table.Table() == Loaded(Entries(rows))
    {
      table := new SensorTable();
      var k := 0;
      while k < |rows|
        invariant k <= |rows|
        invariant table.Valid() && fresh(table) && fresh(table.listRepr)
        invariant forall s :: s in table.sensors ==> fresh(s.Repr)
        invariant table.Table() == Loaded(Entries(rows[..k]))
      {
        table.AddSensor(rows[k]);
        OneMoreRow(rows, k);
        k := k + 1;
      }
      assert rows[..k] == rows;
    }

    // The same: each row becomes a sensor, in its place.
    static method LoadMap(rows: seq<MapRow>) returns (table: SensorTable)
      ensures table.Valid() && fresh(table.Repr())
      ensures table.Table() == Loaded(Entries(rows))
      ensures |table.Table()| == |rows|
      ensures forall k :: 0 <= k < |rows| ==> IsOf(table.Table()[Place(k, |rows|)], rows[k])
    {
      table := LoadRows(rows);
      RowsInPlace(rows);
    }

    // ---------- Lookups ----------

    // datamgr_get_room_id, datamgr_get_avg and datamgr_get_last_modified walk the list for the first
    // sensor with this id and return a field of it; without one they end the program.
    method Lookup(id: SensorId) returns (sensor: Sensor?)
      requires Valid()
      ensures var i := IndexOfId(old(Table()), id);
              if i < 0 then sensor == null else sensor == sensors[i]
    {
      ghost var table := Table();
      var size := DPList.Size(sensorList);
      var index := 0;
      while index < size
        invariant 0 <= index <= size == |sensors|
        invariant ListValid()
        invariant forall k :: 0 <= k < index ==> table[k].id != id
      {
        var element := DPList.ElementAtIndex(sensorList, index);
        sensor := element.value.sensor;
        assert sensor == sensors[index] && table[index].id == sensor.sensorId;
        if sensor.sensorId == id {
          assert index == IndexOfId(table, id);
          return;
        }
        index := index + 1;
      }
      return null;
    }

    method GetRoomId(id: SensorId) returns (room: Option<SensorId>)
      requires Valid()
      ensures var i := IndexOfId(old(Table()), id); room == if i < 0 then None else Some(old(Table())[i].room)
    {
      var sensor := Lookup(id);
      room := if sensor == null then None else Some(sensor.roomId);
    }

    // The room that the map file gives a sensor.
    static method RoomInMap(rows: seq<MapRow>, id: SensorId) returns (room: Option<SensorId>)
      ensures (forall k :: 0 <= k < |rows| ==> rows[k].id != id) ==> room == None
      ensures forall k: nat :: FoundIn(rows, id, k) ==> room == Some(rows[k].room)
    {
      var table := LoadRows(rows);
      room := table.GetRoomId(id);
      RoomAfterLoading(rows, id);
    }

    method GetAvg(id: SensorId) returns (avg: Option<real>)
      requires Valid()
      ensures var i := IndexOfId(old(Table()), id); avg == if i < 0 then None else Some(old(Table())[i].avg)
    {
      var sensor := Lookup(id);
      avg := if sensor == null then None else Some(sensor.runningAvg);
    }

    method GetLastModified(id: SensorId) returns (last: Option<int>)
      requires Valid()
      ensures var i := IndexOfId(old(Table()), id); last == if i < 0 then None else Some(old(Table())[i].last)
    {
      var sensor := Lookup(id);
      last := if sensor == null then None else Some(sensor.lastModified);
    }
  }
}
