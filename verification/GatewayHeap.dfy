/**
 The transition system of Gateway carried out on the heap: the linked buffer (SharedBuffer) and the
 sensor list (DataManager) go through any run in step with it.
 */
module GatewayHeap {
  import opened Measurements
  import opened SensorWindow
  import opened Gateway
  import opened GatewaySafety
  import opened SharedBuffer
  import opened DataManager

  // What a step does to the data manager's table and messages.
  lemma ManagerChanges(st: State, step: Step)
    requires Enabled(st, step)
    ensures Apply(st, step).manager ==
            if step.Consume? && step.who.DataMgr? && st.dataMgr.pc.Work? then Handle(st.manager, st.dataMgr.data)
            else st.manager
  {
  }

  // The part of a step that touches the buffer.
  method BufferStep(st: State, step: Step, buffer: SBuffer)
    requires Inv(st) && Enabled(st, step)
    requires buffer.Valid() && buffer.Contents() == st.queue.items
    modifies buffer, buffer.nodes
    ensures buffer.Valid() && buffer.Contents() == Apply(st, step).queue.items
    ensures fresh(set n | n in buffer.nodes && n !in old(buffer.nodes))
  {
    QueueChanges(st, step);
    if step.Produce? && st.producer.Insert? {
      buffer.Insert(st.producer.x);
      assert forall n :: n in buffer.nodes && n !in old(buffer.nodes) ==> n == buffer.nodes[|buffer.nodes| - 1];
    } else if step.Consume? && C(st, step.who).pc.Remove? {
      var data := buffer.Remove();
      HeadInHand(st, step.who, step.who);
      assert data == Some(C(st, step.who).data);
    } else if step.Consume? && C(st, step.who).pc.Read? {
      var data := buffer.GetData();
      assert C(ReadStep(st, step.who), step.who) ==
             C(st, step.who).(pc := if data.None? then EmptyHeld else DataHeld,
                              result := if data.None? then NoData else C(st, step.who).result,
                              data := if data.None? then C(st, step.who).data else data.value);
    }
  }

  // The part that touches the sensor list.
  method ManagerStep(st: State, step: Step, table: SensorTable) returns (messages: seq<Message>)
    requires Enabled(st, step)
    requires table.Valid() && table.Table() == st.manager.table
    modifies table.Repr()
    ensures table.Valid() && fresh(table.Repr() - old(table.Repr()))
    ensures Apply(st, step).manager == Manager(st.manager.limits, table.Table(), st.manager.log + messages)
  {
    ManagerChanges(st, step);
    messages := [];
    if step.Consume? && step.who.DataMgr? && st.dataMgr.pc.Work? {
      messages := table.HandleMeasurement(st.manager.limits, st.dataMgr.data);
      HandledIsHandle(st.manager.limits, st.manager.table, st.manager.log, st.dataMgr.data, table.Table(), messages);
    }
  }

  ghost function BufferRepr(buffer: SBuffer): set<object>
    reads buffer
  {
    {buffer} + (set n: object | n in buffer.nodes)
  }

  // The buffer and the sensor list hold what the state says, and share nothing.
  ghost predicate Shows(st: State, buffer: SBuffer, table: SensorTable)
    reads buffer, buffer.nodes, table, table.sensors, table.Repr()
  {
    && buffer.Valid() && table.Valid()
    && BufferRepr(buffer) !! table.Repr()
    && buffer.Contents() == st.queue.items
    && table.Table() == st.manager.table
  }

  // The buffer's part leaves the sensor list alone.
  method BufferStepBeside(st: State, step: Step, buffer: SBuffer, table: SensorTable)
    requires Inv(st) && Enabled(st, step) && Shows(st, buffer, table)
    modifies buffer, buffer.nodes
    ensures buffer.Valid() && buffer.Contents() == Apply(st, step).queue.items
    ensures fresh(BufferRepr(buffer) - old(BufferRepr(buffer)))
    ensures table.Valid() && table.Repr() == old(table.Repr()) && table.Table() == old(table.Table())
    ensures BufferRepr(buffer) !! table.Repr()
  {
    BufferStep(st, step, buffer);
    table.TableUnchanged();
  }

  // The sensor list's part leaves the buffer alone.
  method ManagerStepBeside(st: State, step: Step, buffer: SBuffer, table: SensorTable) returns (messages: seq<Message>)
    requires Enabled(st, step)
    requires table.Valid() && table.Table() == st.manager.table
    requires buffer.Valid() && BufferRepr(buffer) !! table.Repr()
    modifies table.Repr()
    ensures table.Valid() && fresh(table.Repr() - old(table.Repr()))
    ensures Apply(st, step).manager == Manager(st.manager.limits, table.Table(), st.manager.log + messages)
    ensures buffer.Valid() && BufferRepr(buffer) == old(BufferRepr(buffer))
            && buffer.Contents() == old(buffer.Contents())
    ensures BufferRepr(buffer) !! table.Repr()
  {
    messages := ManagerStep(st, step, table);
  }

  method HeapStep(st: State, step: Step, buffer: SBuffer, table: SensorTable) returns (messages: seq<Message>)
    requires Inv(st) && Enabled(st, step) && Shows(st, buffer, table)
    modifies BufferRepr(buffer), table.Repr()
    ensures Shows(Apply(st, step), buffer, table)
    ensures fresh(BufferRepr(buffer) - old(BufferRepr(buffer))) && fresh(table.Repr() - old(table.Repr()))
    ensures Apply(st, step).manager.log == st.manager.log + messages
    ensures Apply(st, step).manager.limits == st.manager.limits
  {
    ghost var tableRepr := table.Repr();
    BufferStepBeside(st, step, buffer, table);
    assert table.Repr() == tableRepr;
    messages := ManagerStepBeside(st, step, buffer, table);
    assert fresh(table.Repr() - tableRepr);
  }

  // Any run from here, on the heap.
  method Replay(st: State, steps: seq<Step>, buffer: SBuffer, table: SensorTable, log0: seq<Message>)
    returns (log: seq<Message>)
    requires Inv(st) && CanRun(st, steps) && Shows(st, buffer, table) && log0 == st.manager.log
    modifies BufferRepr(buffer), table.Repr()
    ensures Shows(After(st, steps), buffer, table)
    ensures log == After(st, steps).manager.log
    decreases |steps|
  {
    if steps == [] {
      return log0;
    }
    StepKeepsInv(st, steps[0]);
    var messages := HeapStep(st, steps[0], buffer, table);
    log := Replay(Apply(st, steps[0]), steps[1..], buffer, table, log0 + messages);
  }

  // The gateway of these rows before its first step.
  function Loading(limits: Limits, rows: seq<MapRow>, junk: Measurement): State {
    Init(Manager(limits, Loaded(Entries(rows)), []), junk)
  }

  // The objects of a gateway whose map file holds these rows.
  method Create(limits: Limits, rows: seq<MapRow>, junk: Measurement) returns (buffer: SBuffer, table: SensorTable)
    ensures fresh(BufferRepr(buffer)) && fresh(table.Repr())
    ensures Shows(Loading(limits, rows, junk), buffer, table)
  {
    buffer := new SBuffer();
    table := SensorTable.LoadRows(rows);
  }

  // What the transition system's manager has after a run: what the windows of the handled insertions say.
  lemma DecidedByWindows(limits: Limits, rows: seq<MapRow>, junk: Measurement, steps: seq<Step>)
    requires CanRun(Loading(limits, rows, junk), steps)
    ensures var st := After(Loading(limits, rows, junk), steps);
            && st.dataMgr.handled <= st.queue.inserted
            && st.manager.log == Decisions(limits, Loaded(Entries(rows)), st.dataMgr.handled)
            && WindowTable(limits, Loaded(Entries(rows)), st.dataMgr.handled, st.manager.table)
  {
    var start := Loading(limits, rows, junk);
    var m, st := start.manager, After(start, steps);
    InitInv(m, junk);
    RunKeepsInv(m, start, steps);
    LoadedUnused(rows);
    LogClosedForm(m, st.dataMgr.handled);
    HandleAllKeepsIds(m, st.dataMgr.handled);
    forall i | 0 <= i < |m.table|
      ensures st.manager.table[i] ==
              if IndexOfId(m.table, m.table[i].id) == i then EntryAfter(limits.length, m.table[i], st.dataMgr.handled)
              else m.table[i]
    {
      TableClosedForm(m, st.dataMgr.handled, i);
    }
  }

  // after holds, for each sensor that table held unused, the window and mean of what it reported in xs.
  ghost predicate WindowTable(limits: Limits, table: seq<Entry>, xs: seq<Measurement>, after: seq<Entry>) {
    && |after| == |table|
    && forall i :: 0 <= i < |table| ==>
         after[i] == if IndexOfId(table, table[i].id) == i then EntryAfter(limits.length, table[i], xs) else table[i]
  }

  // Every run of the gateway, on the heap from its creation, for any map file: the buffer and the sensor
  // list are those of the transition system, the sensor list holds the windows of what has been handled,
  // and the log is what those windows call for.
  method RunGateway(limits: Limits, rows: seq<MapRow>, junk: Measurement, steps: seq<Step>)
    returns (buffer: SBuffer, table: SensorTable, log: seq<Message>)
    requires CanRun(Loading(limits, rows, junk), steps)
    ensures var st := After(Loading(limits, rows, junk), steps);
            && Shows(st, buffer, table) && log == st.manager.log
            && st.dataMgr.handled <= st.queue.inserted
            && log == Decisions(limits, Loaded(Entries(rows)), st.dataMgr.handled)
            && WindowTable(limits, Loaded(Entries(rows)), st.dataMgr.handled, table.Table())
  {
    InitInv(Manager(limits, Loaded(Entries(rows)), []), junk);
    buffer, table := Create(limits, rows, junk);
    log := Replay(Loading(limits, rows, junk), steps, buffer, table, []);
    DecidedByWindows(limits, rows, junk, steps);
  }
}
