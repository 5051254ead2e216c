/**
 * T7 Ctrl (src/T7Ctrl.cpp:263-559): feeds the Control Change messages
 * relayed by T7 Midi to its two drivers, queues the cable events they
 * complete, and has the widget execute the queue on the GUI side; it also
 * saves and loads the drivers' tables and the replace policy.
 */
module T7Ctrl {
  import opened Wrappers
  import opened Json
  import Fifo
  import opened T7Types
  import opened T7Mapping
  import opened T7Driver
  import opened T7Graph
  import opened T7Midi

  /** Capacity of the event ring buffer `events`. */
  const EventQueueCapacity: nat := 16
  /** Capacity of the engine-side trace buffer `debugMessagesEngine`. */
  const DebugCapacity: nat := 256

  /**
   * One trace line of `debugMessagesEngine`: driver, device, the channel
   * counting from 1, the controller and the signed value.  The text
   * formatting of the line is not modelled.
   */
  datatype DebugLine = CcTrace(driverId: int, deviceId: int, channel: int, cc: int, value: int)

  /** What the engine side of the module holds. */
  datatype CtrlState = CtrlState(
    replaceInputCable: bool,
    toggle: DriverState,
    gate: DriverState,
    events: seq<CableEvent>,
    debug: seq<DebugLine>)

  /** The state right after construction: replace on, empty tables, nothing queued. */
  function InitialCtrl(): (c: CtrlState)
    ensures c.replaceInputCable && c.events == [] && c.debug == []
    ensures c.toggle == InitialState() && c.gate == InitialState()
  {
    CtrlState(true, InitialState(), InitialState(), [], [])
  }

  /**
   * One driver's turn in `processMidi`: the driver processes the message;
   * if that completes an event, the event gets the module's logger and
   * joins the queue unless the queue is full.
   */
  function Turn(k: DriverKind, s: DriverState, msg: MidiMessage, replace: bool, q: seq<CableEvent>): (r: (DriverState, seq<CableEvent>))
    ensures r.0 == Handle(k, s, msg, replace).1
    ensures q <= r.1 && |r.1| <= |q| + 1
    ensures |q| <= EventQueueCapacity ==> |r.1| <= EventQueueCapacity
    ensures |r.1| == |q| + 1 ==>
      Handle(k, s, msg, replace).0 != [] && r.1[|q|] == Handle(k, s, msg, replace).0[0].(hasLogger := true)
    ensures Handle(k, s, msg, replace).0 != [] && |q| < EventQueueCapacity ==>
      r.1 == q + [Handle(k, s, msg, replace).0[0].(hasLogger := true)]
    ensures Handle(k, s, msg, replace).0 == [] || |q| >= EventQueueCapacity ==> r.1 == q
  {
    var h := Handle(k, s, msg, replace);
    (h.1, if h.0 == [] then q else Fifo.Offer(q, h.0[0].(hasLogger := true), EventQueueCapacity))
  }

  /**
   * `processMidi`: only Control Change messages count.  Each leaves a trace
   * line (dropped when the trace buffer is full); then the Toggle driver and
   * after it the Gate driver take their turn with the same message.
   */
  function ProcessMidiState(c: CtrlState, driverId: int, deviceId: int, msg: MidiMessage): (r: CtrlState)
    ensures msg.Status() != StatusCc ==> r == c
    ensures r.replaceInputCable == c.replaceInputCable
    ensures r.toggle.portMap == c.toggle.portMap && r.gate.portMap == c.gate.portMap
    ensures c.events <= r.events && |r.events| <= |c.events| + 2
    ensures |c.events| <= EventQueueCapacity ==> |r.events| <= EventQueueCapacity
    ensures |c.events| >= EventQueueCapacity ==> r.events == c.events
    ensures msg.Status() == StatusCc ==>
      r.debug == Fifo.Offer(c.debug, CcTrace(driverId, deviceId, msg.Channel() + 1, msg.Note(), msg.Value()), DebugCapacity)
    ensures forall i :: |c.events| <= i < |r.events| ==>
      r.events[i].hasLogger && r.events[i].replaceInputCable == c.replaceInputCable
    ensures msg.Status() == StatusCc ==>
      var t := Turn(ToggleDriver, c.toggle, msg, c.replaceInputCable, c.events);
      var g := Turn(GateDriver, c.gate, msg, c.replaceInputCable, t.1);
      r.toggle == t.0 && r.gate == g.0 && r.events == g.1
  {
    if msg.Status() != StatusCc then c
    else
      var debug := Fifo.Offer(c.debug, CcTrace(driverId, deviceId, msg.Channel() + 1, msg.Note(), msg.Value()), DebugCapacity);
      var t := Turn(ToggleDriver, c.toggle, msg, c.replaceInputCable, c.events);
      var g := Turn(GateDriver, c.gate, msg, c.replaceInputCable, t.1);
      c.(toggle := t.0, gate := g.0, events := g.1, debug := debug)
  }

  /** The events a driver emitted, as queued: each one carrying the module's logger. */
  function Logged(es: seq<CableEvent>): (r: seq<CableEvent>)
    ensures |r| == |es|
    ensures forall i :: 0 <= i < |es| ==> r[i] == es[i].(hasLogger := true)
  {
    seq(|es|, i requires 0 <= i < |es| => es[i].(hasLogger := true))
  }

  /**
   * With room for two events, a Control Change queues the Toggle driver's
   * event (if it completes one) ahead of the Gate driver's (if it completes
   * one), and each driver steps exactly as `Handle` says.
   */
  lemma {:induction false} ToggleQueuedBeforeGate(c: CtrlState, driverId: int, deviceId: int, msg: MidiMessage)
    requires msg.Status() == StatusCc && |c.events| + 2 <= EventQueueCapacity
    ensures var r := ProcessMidiState(c, driverId, deviceId, msg);
      var ht := Handle(ToggleDriver, c.toggle, msg, c.replaceInputCable);
      var hg := Handle(GateDriver, c.gate, msg, c.replaceInputCable);
      && r.toggle == ht.1 && r.gate == hg.1
      && r.events == c.events + Logged(ht.0) + Logged(hg.0)
  {
    var ht := Handle(ToggleDriver, c.toggle, msg, c.replaceInputCable);
    var hg := Handle(GateDriver, c.gate, msg, c.replaceInputCable);
    var t := Turn(ToggleDriver, c.toggle, msg, c.replaceInputCable, c.events);
    assert t.1 == c.events + Logged(ht.0);
    assert Turn(GateDriver, c.gate, msg, c.replaceInputCable, t.1).1 == t.1 + Logged(hg.0);
  }

  /** `process`: every relayed message in order (all of them are MIDI messages). */
  function ProcessAll(c: CtrlState, ms: seq<T7MidiMessage>): CtrlState
    decreases |ms|
  {
    if ms == [] then c
    else ProcessAll(ProcessMidiState(c, ms[0].driverId, ms[0].deviceId, ms[0].msg), ms[1..])
  }

  /**
   * What holds between messages: both buffers within capacity, the Toggle
   * driver on the Toggle kind, armed halves of the right port type, and no
   * driver holding a completed pair.
   */
  predicate Inv(c: CtrlState) {
    && |c.events| <= EventQueueCapacity && |c.debug| <= DebugCapacity
    && c.toggle.lastEventType == Toggle
    && c.toggle.WellArmed() && c.gate.WellArmed()
    && !c.toggle.Ready() && !c.gate.Ready()
  }

  lemma InitialCtrlInv()
    ensures Inv(InitialCtrl())
  {
  }

  lemma ProcessMidiKeepsInv(c: CtrlState, driverId: int, deviceId: int, msg: MidiMessage)
    requires Inv(c)
    ensures Inv(ProcessMidiState(c, driverId, deviceId, msg))
  {
    if msg.Status() == StatusCc {
      var h := Handle(ToggleDriver, c.toggle, msg, c.replaceInputCable);
      assert h.1.lastEventType == Toggle;
    }
  }

  /** Any stream of relayed messages keeps the invariant. */
  lemma {:induction false} ProcessAllKeepsInv(c: CtrlState, ms: seq<T7MidiMessage>)
    requires Inv(c)
    ensures Inv(ProcessAll(c, ms))
    decreases |ms|
  {
    if ms != [] {
      ProcessMidiKeepsInv(c, ms[0].driverId, ms[0].deviceId, ms[0].msg);
      ProcessAllKeepsInv(ProcessMidiState(c, ms[0].driverId, ms[0].deviceId, ms[0].msg), ms[1..]);
    }
  }

  /** Events already queued stay queued, in order, whatever arrives after them. */
  lemma {:induction false} ProcessAllKeepsQueued(c: CtrlState, ms: seq<T7MidiMessage>)
    ensures c.events <= ProcessAll(c, ms).events
    ensures |c.events| >= EventQueueCapacity ==> ProcessAll(c, ms).events == c.events
    decreases |ms|
  {
    if ms != [] {
      ProcessAllKeepsQueued(ProcessMidiState(c, ms[0].driverId, ms[0].deviceId, ms[0].msg), ms[1..]);
    }
  }

  /** `onReset`: both tables emptied, replace switched back on. */
  function ResetState(c: CtrlState): (r: CtrlState)
    ensures r.replaceInputCable
    ensures r.toggle.portMap == map[] && r.gate.portMap == map[]
    ensures r.events == c.events && r.debug == c.debug
    ensures Inv(c) ==> Inv(r)
  {
    c.(replaceInputCable := true, toggle := c.toggle.(portMap := map[]), gate := c.gate.(portMap := map[]))
  }

  // ---- The saved mapping ----

  predicate NameTyped(dj: Json) {
    Get(dj, "driverName").Some? ==> IsString(Get(dj, "driverName"))
  }

  /** True when the entry's "driverName" is the name of driver `k`. */
  predicate Names(dj: Json, k: DriverKind) {
    Get(dj, "driverName") == Some(JStr(DriverName(k)))
  }

  /** A driver entry the loader can read without building a string from NULL. */
  predicate WellTypedDriverJson(dj: Json) {
    NameTyped(dj) && ((Names(dj, ToggleDriver) || Names(dj, GateDriver)) ==> WellTypedRecords(EventRecords(dj)))
  }

  predicate WellTypedDrivers(ds: seq<Json>) {
    forall i :: 0 <= i < |ds| ==> WellTypedDriverJson(ds[i])
  }

  /**
   * `driverMappingFromJson` for one driver: each entry naming it reloads its
   * table from scratch, so the last such entry decides.
   */
  function LoadTable(k: DriverKind, m: PortMap, ds: seq<Json>): PortMap
    requires WellTypedDrivers(ds)
    decreases |ds|
  {
    if ds == [] then m
    else
      var d := ds[|ds| - 1];
      if Names(d, k) then TableFromJson(d) else LoadTable(k, m, ds[..|ds| - 1])
  }

  /** The position of the last entry naming driver `k`, if any. */
  function LastNaming(ds: seq<Json>, k: DriverKind): (r: Option<nat>)
    requires WellTypedDrivers(ds)
    ensures r.Some? ==> r.value < |ds| && Names(ds[r.value], k)
    ensures r.Some? ==> forall j :: r.value < j < |ds| ==> !Names(ds[j], k)
    ensures r.None? ==> forall j :: 0 <= j < |ds| ==> !Names(ds[j], k)
    decreases |ds|
  {
    if ds == [] then None
    else if Names(ds[|ds| - 1], k) then Some(|ds| - 1)
    else LastNaming(ds[..|ds| - 1], k)
  }

  /** The last entry naming the driver decides its table; with none, the table is kept. */
  lemma {:induction false} LoadTableLastWins(k: DriverKind, m: PortMap, ds: seq<Json>)
    requires WellTypedDrivers(ds)
    ensures LoadTable(k, m, ds) ==
      match LastNaming(ds, k)
      case None => m
      case Some(i) => TableFromJson(ds[i])
    decreases |ds|
  {
    if ds != [] {
      var n := |ds| - 1;
      if !Names(ds[n], k) {
        LoadTableLastWins(k, m, ds[..n]);
        var li := LastNaming(ds[..n], k);
        if li.Some? {
          assert ds[..n][li.value] == ds[li.value];
        }
      }
    }
  }

  /** Loading a mapping: each driver's table is reloaded; armed halves and kinds stay. */
  function LoadMapping(c: CtrlState, driversJ: Json): (r: CtrlState)
    requires WellTypedDrivers(Items(Some(driversJ)))
    ensures r.replaceInputCable == c.replaceInputCable && r.events == c.events && r.debug == c.debug
    ensures Inv(c) ==> Inv(r)
  {
    var ds := Items(Some(driversJ));
    c.(toggle := c.toggle.(portMap := LoadTable(ToggleDriver, c.toggle.portMap, ds)),
       gate := c.gate.(portMap := LoadTable(GateDriver, c.gate.portMap, ds)))
  }

  /** The entry `driverMappingToJson` writes for one driver. */
  ghost function DriverJson(k: DriverKind, m: PortMap): Json {
    JObj(map["events" := TableToJson(m), "driverName" := JStr(DriverName(k))])
  }

  /** `driverMappingToJson`: one entry per driver, Toggle first. */
  ghost function MappingJson(toggleMap: PortMap, gateMap: PortMap): Json {
    JArr([DriverJson(ToggleDriver, toggleMap), DriverJson(GateDriver, gateMap)])
  }

  /** `dataToJson`: the replace policy and the mapping. */
  ghost function DataJson(c: CtrlState): Json {
    JObj(map["replaceInputCable" := JBool(c.replaceInputCable), "driver" := MappingJson(c.toggle.portMap, c.gate.portMap)])
  }

  predicate WellTypedData(rootJ: Json) {
    Get(rootJ, "driver").Some? ==> WellTypedDrivers(Items(Get(rootJ, "driver")))
  }

  /** `dataFromJson`: a missing or non-boolean policy reads as false; a missing mapping is no change. */
  function LoadData(c: CtrlState, rootJ: Json): (r: CtrlState)
    requires WellTypedData(rootJ)
    ensures r.replaceInputCable == (Get(rootJ, "replaceInputCable") == Some(JBool(true)))
    ensures Get(rootJ, "driver").None? ==> r == c.(replaceInputCable := r.replaceInputCable)
    ensures r.events == c.events && r.debug == c.debug
  {
    var c1 := c.(replaceInputCable := BoolValue(Get(rootJ, "replaceInputCable")));
    match Get(rootJ, "driver")
    case None => c1
    case Some(driversJ) => LoadMapping(c1, driversJ)
  }

  /** The saved mapping reads back as both saved tables, whatever tables the loader held. */
  lemma MappingRoundTrip(toggleMap: PortMap, gateMap: PortMap, m1: PortMap, m2: PortMap)
    requires ExportableTable(toggleMap) && ExportableTable(gateMap)
    ensures WellTypedDrivers(Items(Some(MappingJson(toggleMap, gateMap))))
    ensures LoadTable(ToggleDriver, m1, Items(Some(MappingJson(toggleMap, gateMap)))) == toggleMap
    ensures LoadTable(GateDriver, m2, Items(Some(MappingJson(toggleMap, gateMap)))) == gateMap
  {
    var tj := DriverJson(ToggleDriver, toggleMap);
    var gj := DriverJson(GateDriver, gateMap);
    var ds := [tj, gj];
    DriverNamesDiffer();
    TableRoundTrip(toggleMap);
    TableRoundTrip(gateMap);
    assert Items(Some(MappingJson(toggleMap, gateMap))) == ds;
    assert EventRecords(tj) == Items(Some(TableToJson(toggleMap)));
    assert EventRecords(gj) == Items(Some(TableToJson(gateMap)));
    assert Names(tj, ToggleDriver) && !Names(tj, GateDriver);
    assert Names(gj, GateDriver) && !Names(gj, ToggleDriver);
    assert WellTypedDrivers(ds);
    assert ds[..1] == [tj];
    assert [tj][..0] == [];
  }

  /**
   * Round trip of the saved data: loading what was saved from a module
   * gives any module that module's replace policy and tables, keeping its own
   * armed halves, kinds and queues.
   */
  lemma DataRoundTrip(saved: CtrlState, c: CtrlState)
    requires ExportableTable(saved.toggle.portMap) && ExportableTable(saved.gate.portMap)
    ensures WellTypedData(DataJson(saved))
    ensures LoadData(c, DataJson(saved)) ==
      c.(replaceInputCable := saved.replaceInputCable,
         toggle := c.toggle.(portMap := saved.toggle.portMap),
         gate := c.gate.(portMap := saved.gate.portMap))
  {
    MappingRoundTrip(saved.toggle.portMap, saved.gate.portMap, c.toggle.portMap, c.gate.portMap);
    assert Get(DataJson(saved), "driver") == Some(MappingJson(saved.toggle.portMap, saved.gate.portMap));
  }


  // ---- A worked scenario ----

  /** Channel 1, controller 12 names output 5 of module 4, in yellow. */
  const ScenarioOut: MidiPortDescriptor := MidiPortDescriptor(4, 0, 5, 64, "#ffff00", "")
  /** Controller 13 on any channel names input 3 of module 2. */
  const ScenarioIn: MidiPortDescriptor := MidiPortDescriptor(2, 1, 3, 64, "", "")

  /** A fresh module whose Toggle table holds the two entries above. */
  function ScenarioStart(): CtrlState {
    InitialCtrl().(toggle := InitialState().(portMap := map[(0, 12) := ScenarioOut, (AnyChannel, 13) := ScenarioIn]))
  }

  /** The event the scenario expects: a Toggle from output 5 of module 4 to input 3 of module 2, in yellow. */
  const ScenarioEvent: CableEvent := CableEvent(Toggle, PortDescriptor(4, 0, 5), PortDescriptor(2, 1, 3), "#ffff00", true, true)

  /** "channel 1, CC 12, 127" arms the Toggle driver's output half and queues nothing. */
  lemma ScenarioArmsOutput()
    ensures var c1 := ProcessMidiState(ScenarioStart(), 0, 0, MidiMessage(0xB0, 12, 127));
      && c1.replaceInputCable && c1.events == [] && c1.gate == InitialState()
      && c1.toggle == ScenarioStart().toggle.(lastOutput := Some(ScenarioOut))
  {
    var msg := MidiMessage(0xB0, 12, 127);
    assert msg.Channel() == 0 && msg.Note() == 12 && msg.Value() == 127;
    assert Target(ScenarioStart().toggle, msg) == Some(ScenarioOut);
  }

  /** Then "channel 2, CC 13, 127" arms the input half, which completes the pair into the scenario's event. */
  lemma ScenarioCompletesPair(c: CtrlState)
    requires c.replaceInputCable && c.events == [] && c.gate == InitialState()
    requires c.toggle == ScenarioStart().toggle.(lastOutput := Some(ScenarioOut))
    ensures ProcessMidiState(c, 0, 0, MidiMessage(0xB1, 13, 127)).events == [ScenarioEvent]
  {
    var msg := MidiMessage(0xB1, 13, 127);
    assert msg.Channel() == 1 && msg.Note() == 13 && msg.Value() == 127;
    assert Target(c.toggle, msg) == Some(ScenarioIn);
  }

  /** "channel 1, CC 12, 127" then "channel 2, CC 13, 127" queue exactly the scenario's Toggle event. */
  lemma ScenarioQueuesToggle()
    ensures ProcessAll(ScenarioStart(), [MakeMidiMessage(MidiMessage(0xB0, 12, 127), 0, 0), MakeMidiMessage(MidiMessage(0xB1, 13, 127), 0, 0)]).events
      == [ScenarioEvent]
  {
    var c0 := ScenarioStart();
    var m1 := MakeMidiMessage(MidiMessage(0xB0, 12, 127), 0, 0);
    var m2 := MakeMidiMessage(MidiMessage(0xB1, 13, 127), 0, 0);
    var c1 := ProcessMidiState(c0, 0, 0, m1.msg);
    ScenarioArmsOutput();
    var c2 := ProcessMidiState(c1, 0, 0, m2.msg);
    ScenarioCompletesPair(c1);
    assert [m1, m2][1..] == [m2] && [m2][1..] == [];
    assert ProcessAll(c2, []) == c2;
    assert ProcessAll(c1, [m2]) == c2;
  }

  /** Executing the scenario's event patches the yellow cable, and executing it again removes it. */
  lemma ScenarioToggleTwice()
    ensures
      var w := World({2, 4}, [], [], []);
      && Execute(ScenarioEvent, w).cables == [Cable(4, 5, 2, 3, HexColor("#ffff00"))]
      && Execute(ScenarioEvent, Execute(ScenarioEvent, w)).cables == []
  {
    var w1 := Execute(ScenarioEvent, World({2, 4}, [], [], []));
    assert w1.cables == [Cable(4, 5, 2, 3, HexColor("#ffff00"))];
    assert First(w1.cables, CableQueryOf(ScenarioEvent)) == Some(0);
  }

  /**
   * From a fresh module whose Toggle table holds the two entries above, the
   * messages "channel 1, CC 12, 127" and "channel 2, CC 13, 127" queue one
   * Toggle event; executing it patches the yellow cable, and executing it a
   * second time removes it again.
   */
  lemma ScenarioTogglePatchesThenUnpatches()
    ensures
      var ms := [MakeMidiMessage(MidiMessage(0xB0, 12, 127), 0, 0), MakeMidiMessage(MidiMessage(0xB1, 13, 127), 0, 0)];
      var w := World({2, 4}, [], [], []);
      && ProcessAll(ScenarioStart(), ms).events == [ScenarioEvent]
      && Execute(ScenarioEvent, w).cables == [Cable(4, 5, 2, 3, HexColor("#ffff00"))]
      && Execute(ScenarioEvent, Execute(ScenarioEvent, w)).cables == []
  {
    ScenarioQueuesToggle();
    ScenarioToggleTwice();
  }

  // ---- The module object ----

  class CtrlModule {
    var replaceInputCable: bool
    const toggle: Driver
    const gate: Driver
    var events: seq<CableEvent>
    var debugMessagesEngine: seq<DebugLine>
    const eventLogger: EventLogger

    /** The driver list: a Toggle driver, then a distinct Gate driver. */
    predicate Valid() {
      toggle != gate && toggle.kind == ToggleDriver && gate.kind == GateDriver
    }

    ghost function State(): CtrlState
      reads this, toggle, gate
    {
      CtrlState(replaceInputCable, toggle.State(), gate.State(), events, debugMessagesEngine)
    }

    /** The constructor resets (replace on), then creates the Toggle and the Gate driver. */
    constructor ()
      ensures Valid() && State() == InitialCtrl() && eventLogger.lines == []
      ensures fresh(toggle) && fresh(gate) && fresh(eventLogger)
    {
      replaceInputCable := true;
      events := [];
      debugMessagesEngine := [];
      eventLogger := new EventLogger();
      toggle := new Driver(ToggleDriver);
      gate := new Driver(GateDriver);
    }

    method OnReset()
      requires Valid()
      modifies this, toggle, gate
      ensures State() == ResetState(old(State()))
    {
      toggle.Reset();
      gate.Reset();
      replaceInputCable := true;
    }

    /** The "Replace input cables" menu item flips the policy. */
    method ToggleReplaceInputCable()
      modifies this
      ensures replaceInputCable == !old(replaceInputCable)
      ensures events == old(events) && debugMessagesEngine == old(debugMessagesEngine)
    {
      replaceInputCable := !replaceInputCable;
    }

    method DriverTurn(d: Driver, msg: MidiMessage)
      modifies this, d
      ensures (d.State(), events) == Turn(d.kind, old(d.State()), msg, replaceInputCable, old(events))
      ensures replaceInputCable == old(replaceInputCable) && debugMessagesEngine == old(debugMessagesEngine)
    {
      var ready := d.ProcessMessage(msg);
      if ready {
        var e := d.GetEvent(replaceInputCable);
        var ev := e.value.(hasLogger := true);
        if |events| < EventQueueCapacity {
          events := events + [ev];
        }
      }
    }

    method ProcessMidi(driverId: int, deviceId: int, msg: MidiMessage)
      requires Valid()
      modifies this, toggle, gate
      ensures State() == ProcessMidiState(old(State()), driverId, deviceId, msg)
    {
      if msg.Status() == StatusCc {
        if |debugMessagesEngine| < DebugCapacity {
          debugMessagesEngine := debugMessagesEngine + [CcTrace(driverId, deviceId, msg.Channel() + 1, msg.Note(), msg.Value())];
        }
        DriverTurn(toggle, msg);
        DriverTurn(gate, msg);
      }
    }

    /**
     * `process`: when the right neighbour is a T7 Midi (`right`, null
     * otherwise), handle every message in its consumer vector, then empty it.
     */
    method Process(right: T7MidiModule?)
      requires Valid()
      modifies this, toggle, gate, right
      ensures State() == ProcessAll(old(State()), if right == null then [] else old(right.LeftConsumer()))
      ensures right != null ==>
        && right.LeftConsumer() == []
        && right.LeftProducer() == old(right.LeftProducer())
        && right.midiInput == old(right.midiInput)
        && right.messageFlipRequested == old(right.messageFlipRequested)
    {
      if right != null {
        var queue := right.LeftConsumer();
        var i := 0;
        while i < |queue|
          invariant 0 <= i <= |queue|
          invariant ProcessAll(old(State()), queue) == ProcessAll(State(), queue[i..])
          invariant unchanged(right)
        {
          var m := queue[i];
          ProcessMidi(m.driverId, m.deviceId, m.msg);
          assert queue[i..][1..] == queue[i + 1..];
          i := i + 1;
        }
        right.ClearConsumer();
      }
    }

    method DriverMappingToJson() returns (driversJ: Json)
      requires Valid()
      ensures driversJ == MappingJson(toggle.portMap, gate.portMap)
    {
      var toggleEvents := toggle.ToJson();
      var gateEvents := gate.ToJson();
      var toggleJ := JObj(map["events" := toggleEvents, "driverName" := JStr(DriverName(toggle.kind))]);
      var gateJ := JObj(map["events" := gateEvents, "driverName" := JStr(DriverName(gate.kind))]);
      driversJ := JArr([toggleJ, gateJ]);
    }

    method DriverMappingFromJson(driversJ: Json)
      requires Valid() && WellTypedDrivers(Items(Some(driversJ)))
      modifies toggle, gate
      ensures State() == LoadMapping(old(State()), driversJ)
    {
      var ds := Items(Some(driversJ));
      var i := 0;
      while i < |ds|
        invariant 0 <= i <= |ds|
        invariant WellTypedDrivers(ds[..i])
        invariant toggle.State() == old(toggle.State()).(portMap := LoadTable(ToggleDriver, old(toggle.portMap), ds[..i]))
        invariant gate.State() == old(gate.State()).(portMap := LoadTable(GateDriver, old(gate.portMap), ds[..i]))
      {
        var dj := ds[i];
        assert ds[..i + 1][..i] == ds[..i] && ds[..i + 1][i] == dj;
        var nameJ := Get(dj, "driverName");
        if nameJ.Some? {
          var name := StringValue(nameJ);
          if DriverName(toggle.kind) == name {
            toggle.FromJson(dj);
          }
          if DriverName(gate.kind) == name {
            gate.FromJson(dj);
          }
        }
        i := i + 1;
      }
      assert ds[..|ds|] == ds;
    }

    method DataToJson() returns (rootJ: Json)
      requires Valid()
      ensures rootJ == DataJson(State())
    {
      var driversJ := DriverMappingToJson();
      rootJ := JObj(map["replaceInputCable" := JBool(replaceInputCable), "driver" := driversJ]);
    }

    method DataFromJson(rootJ: Json)
      requires Valid() && WellTypedData(rootJ)
      modifies this, toggle, gate
      ensures State() == LoadData(old(State()), rootJ)
    {
      replaceInputCable := BoolValue(Get(rootJ, "replaceInputCable"));
      var driverJ := Get(rootJ, "driver");
      if driverJ.Some? {
        DriverMappingFromJson(driverJ.value);
      }
    }

    /**
     * The widget's `step`: shift every queued event out and execute it
     * against the rack, logging to the module's logger.
     */
    method WidgetStep(rack: Rack)
      modifies this, rack, eventLogger
      ensures events == []
      ensures Snapshot(rack, eventLogger) == ExecuteAll(old(events), old(Snapshot(rack, eventLogger)))
      ensures replaceInputCable == old(replaceInputCable) && debugMessagesEngine == old(debugMessagesEngine)
    {
      while |events| > 0
        invariant ExecuteAll(events, Snapshot(rack, eventLogger)) == ExecuteAll(old(events), old(Snapshot(rack, eventLogger)))
        invariant replaceInputCable == old(replaceInputCable) && debugMessagesEngine == old(debugMessagesEngine)
        decreases |events|
      {
        var e := events[0];
        events := events[1..];
        ExecuteEvent(e, rack, eventLogger);
      }
    }
  }
}
