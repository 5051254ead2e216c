/**
 * The two MIDI drivers of T7 Ctrl (src/T7Ctrl.cpp:8-260): a mapping table,
 * the two pending halves of a cable (an output and an input) and the kind
 * of event that completing them produces.
 */
module T7Driver {
  import opened Wrappers
  import opened Json
  import opened T7Types
  import opened T7Mapping

  /** `MidiCcTwoMessageToggle` or `MidiCcTwoMessageGate`. */
  datatype DriverKind = ToggleDriver | GateDriver

  /** `getName` of each driver: the key used in the saved mapping. */
  function DriverName(k: DriverKind): (name: string)
    ensures |name| > 0
  {
    match k
    case ToggleDriver => "MidiCcTwoMessageToggle"
    case GateDriver => "MidiCcTwoMessageGate"
  }

  lemma DriverNamesDiffer()
    ensures DriverName(ToggleDriver) != DriverName(GateDriver)
  {
    assert DriverName(ToggleDriver)[18] != DriverName(GateDriver)[18];
  }

  /**
   * The state a driver keeps: its table, the armed input and output halves
   * (as copies of table entries) and the kind of the next event.  The kind
   * starts at Toggle because the drivers are value-initialised.
   */
  datatype DriverState = DriverState(
    portMap: PortMap,
    lastInput: Option<MidiPortDescriptor>,
    lastOutput: Option<MidiPortDescriptor>,
    lastEventType: EventKind)
  {
    /** Both halves armed: `processMessage` answers true. */
    predicate Ready() {
      lastInput.Some? && lastOutput.Some?
    }

    /** Nothing armed. */
    predicate Idle() {
      lastInput.None? && lastOutput.None?
    }

    /** The armed output half is an output entry and the armed input half an input entry. */
    predicate WellArmed() {
      && (lastOutput.Some? ==> lastOutput.value.portType == 0)
      && (lastInput.Some? ==> lastInput.value.portType == 1)
    }

    /** The armed halves are entries of the current table. */
    predicate ArmedFromTable() {
      && (lastOutput.Some? ==> lastOutput.value in portMap.Values)
      && (lastInput.Some? ==> lastInput.value in portMap.Values)
    }
  }

  function InitialState(): (s: DriverState)
    ensures s.Idle() && s.portMap == map[] && s.lastEventType == Toggle
  {
    DriverState(map[], None, None, Toggle)
  }

  /** The entry a message addresses (exact channel, then the wildcard channel). */
  function Target(s: DriverState, msg: MidiMessage): Option<MidiPortDescriptor> {
    Lookup(s.portMap, msg.Channel(), msg.Note())
  }

  /** Arm the half a port entry stands for; an entry of another port type arms nothing. */
  function Arm(s: DriverState, pd: MidiPortDescriptor): (r: DriverState)
    ensures r.portMap == s.portMap && r.lastEventType == s.lastEventType
    ensures pd.portType == 0 ==> r.lastOutput == Some(pd) && r.lastInput == s.lastInput
    ensures pd.portType == 1 ==> r.lastInput == Some(pd) && r.lastOutput == s.lastOutput
    ensures pd.portType != 0 && pd.portType != 1 ==> r == s
  {
    if pd.portType == 0 then s.(lastOutput := Some(pd))
    else if pd.portType == 1 then s.(lastInput := Some(pd))
    else s
  }

  /**
   * `MidiCcTwoMessageToggle::processMessage`: a mapped message whose value
   * reaches the entry's threshold arms its half, and an output half also
   * sets the kind to Toggle; anything else leaves the state alone.
   */
  function ToggleStep(s: DriverState, msg: MidiMessage): (r: DriverState)
    ensures r.portMap == s.portMap
    ensures Target(s, msg).None? ==> r == s
    ensures Target(s, msg).Some? && msg.Value() < Target(s, msg).value.midiCcValue ==> r == s
    ensures r.lastEventType == s.lastEventType || r.lastEventType == Toggle
    ensures r.lastOutput != s.lastOutput ==> r.lastOutput == Target(s, msg) && r.lastEventType == Toggle
    ensures r.lastInput != s.lastInput ==> r.lastInput == Target(s, msg)
    ensures s.WellArmed() ==> r.WellArmed()
    ensures s.ArmedFromTable() ==> r.ArmedFromTable()
    ensures Target(s, msg).Some? && msg.Value() >= Target(s, msg).value.midiCcValue ==>
      && (Target(s, msg).value.portType == 0 ==>
            r.lastOutput == Target(s, msg) && r.lastEventType == Toggle && r.lastInput == s.lastInput)
      && (Target(s, msg).value.portType == 1 ==>
            r.lastInput == Target(s, msg) && r.lastOutput == s.lastOutput && r.lastEventType == s.lastEventType)
  {
    match Target(s, msg)
    case None => s
    case Some(pd) =>
      if msg.Value() >= pd.midiCcValue then
        var s1 := if pd.portType == 0 then s.(lastEventType := Toggle) else s;
        Arm(s1, pd)
      else s
  }

  /**
   * `MidiCcTwoMessageGate::processMessage`: every mapped message arms its
   * half; value 0 sets the kind to Remove, a value reaching the threshold
   * sets it to Add (this wins when the threshold is at most 0), and a value
   * in between keeps the previous kind.
   */
  function GateStep(s: DriverState, msg: MidiMessage): (r: DriverState)
    ensures r.portMap == s.portMap
    ensures Target(s, msg).None? ==> r == s
    ensures Target(s, msg).Some? ==>
      var pd := Target(s, msg).value;
      && (msg.Value() >= pd.midiCcValue ==> r.lastEventType == Add)
      && (msg.Value() == 0 < pd.midiCcValue ==> r.lastEventType == Remove)
      && (msg.Value() != 0 && msg.Value() < pd.midiCcValue ==> r.lastEventType == s.lastEventType)
      && (pd.portType == 0 ==> r.lastOutput == Some(pd) && r.lastInput == s.lastInput)
      && (pd.portType == 1 ==> r.lastInput == Some(pd) && r.lastOutput == s.lastOutput)
    ensures s.WellArmed() ==> r.WellArmed()
    ensures s.ArmedFromTable() ==> r.ArmedFromTable()
  {
    match Target(s, msg)
    case None => s
    case Some(pd) =>
      var k1 := if msg.Value() == 0 then Remove else s.lastEventType;
      var k2 := if msg.Value() >= pd.midiCcValue then Add else k1;
      Arm(s.(lastEventType := k2), pd)
  }

  function Step(k: DriverKind, s: DriverState, msg: MidiMessage): (r: DriverState)
    ensures r.portMap == s.portMap
    ensures s.WellArmed() ==> r.WellArmed()
    ensures s.ArmedFromTable() ==> r.ArmedFromTable()
  {
    match k
    case ToggleDriver => ToggleStep(s, msg)
    case GateDriver => GateStep(s, msg)
  }

  /**
   * `getEvent`: when both halves are armed, an event of the current kind
   * from the output half to the input half, coloured as the output entry and
   * carrying the module's replace policy, after which nothing is armed;
   * otherwise no event and no change.
   */
  function TakeEvent(s: DriverState, replace: bool): (r: (Option<CableEvent>, DriverState))
    ensures r.0.Some? <==> s.Ready()
    ensures !s.Ready() ==> r.1 == s
    ensures s.Ready() ==> r.1 == s.(lastInput := None, lastOutput := None)
    ensures s.Ready() ==>
      var e := r.0.value;
      && e.kind == s.lastEventType
      && e.outPd == s.lastOutput.value.Port() && e.inPd == s.lastInput.value.Port()
      && e.cableColor == s.lastOutput.value.cableColor
      && e.replaceInputCable == replace && !e.hasLogger
  {
    if s.Ready() then
      var e := NewCableEvent(s.lastEventType, s.lastOutput.value.Port(), s.lastInput.value.Port());
      (Some(e.(cableColor := s.lastOutput.value.cableColor, replaceInputCable := replace)),
       s.(lastInput := None, lastOutput := None))
    else (None, s)
  }

  /** An event is handed out once: asking again right after gives nothing. */
  lemma TakeEventOnce(s: DriverState, replace: bool)
    ensures TakeEvent(TakeEvent(s, replace).1, replace).0.None?
  {
    if s.Ready() {
      assert TakeEvent(s, replace).1.Idle();
    }
  }

  /** One message as the module handles it: process it, and collect the event if ready. */
  function Handle(k: DriverKind, s: DriverState, msg: MidiMessage, replace: bool): (r: (seq<CableEvent>, DriverState))
    ensures |r.0| <= 1
    ensures !r.1.Ready()
    ensures r.0 != [] <==> Step(k, s, msg).Ready()
    ensures r.0 != [] ==> Some(r.0[0]) == TakeEvent(Step(k, s, msg), replace).0
    ensures !Step(k, s, msg).Ready() ==> r.1 == Step(k, s, msg)
    ensures Step(k, s, msg).Ready() ==> r.1 == Step(k, s, msg).(lastInput := None, lastOutput := None)
  {
    var s1 := Step(k, s, msg);
    if s1.Ready() then
      var t := TakeEvent(s1, replace);
      ([t.0.value], t.1)
    else ([], s1)
  }

  /** A driver fed a sequence of messages: the events it emits and its final state. */
  function Run(k: DriverKind, s: DriverState, msgs: seq<MidiMessage>, replace: bool): (r: (seq<CableEvent>, DriverState))
    ensures |r.0| <= |msgs|
    ensures r.1.portMap == s.portMap
    decreases |msgs|
  {
    if msgs == [] then ([], s)
    else
      var h := Handle(k, s, msgs[0], replace);
      var t := Run(k, h.1, msgs[1..], replace);
      (h.0 + t.0, t.1)
  }

  /** An event from an output entry to an input entry of the table. */
  predicate ConnectsTableOutputToInput(e: CableEvent, m: PortMap) {
    exists o, i :: o in m.Values && i in m.Values && o.portType == 0 && i.portType == 1
      && e.outPd == o.Port() && e.inPd == i.Port() && e.cableColor == o.cableColor
  }

  /**
   * Every event either driver emits runs from an output entry of its table
   * to an input entry of it, coloured as the output entry.
   */
  lemma {:induction false} RunEventsConnectOutputToInput(k: DriverKind, s: DriverState, msgs: seq<MidiMessage>, replace: bool)
    requires s.WellArmed() && s.ArmedFromTable()
    ensures forall e :: e in Run(k, s, msgs, replace).0 ==> ConnectsTableOutputToInput(e, s.portMap)
    decreases |msgs|
  {
    if msgs != [] {
      var s1 := Step(k, s, msgs[0]);
      var h := Handle(k, s, msgs[0], replace);
      if s1.Ready() {
        var e := h.0[0];
        assert ConnectsTableOutputToInput(e, s.portMap) by {
          var o := s1.lastOutput.value;
          var i := s1.lastInput.value;
          assert o in s.portMap.Values && i in s.portMap.Values;
        }
      }
      assert h.1.WellArmed() && h.1.ArmedFromTable();
      RunEventsConnectOutputToInput(k, h.1, msgs[1..], replace);
    }
  }

  /** The Toggle driver never leaves the Toggle kind, so it emits only Toggle events. */
  lemma {:induction false} ToggleDriverEmitsOnlyToggles(s: DriverState, msgs: seq<MidiMessage>, replace: bool)
    requires s.lastEventType == Toggle
    ensures Run(ToggleDriver, s, msgs, replace).1.lastEventType == Toggle
    ensures forall e :: e in Run(ToggleDriver, s, msgs, replace).0 ==> e.kind == Toggle
    decreases |msgs|
  {
    if msgs != [] {
      var h := Handle(ToggleDriver, s, msgs[0], replace);
      assert h.1.lastEventType == Toggle;
      ToggleDriverEmitsOnlyToggles(h.1, msgs[1..], replace);
    }
  }

  /** A message that reaches its entry's threshold, for an entry of the given port type. */
  predicate Fires(s: DriverState, msg: MidiMessage, portType: int) {
    Target(s, msg).Some? && Target(s, msg).value.portType == portType
    && msg.Value() >= Target(s, msg).value.midiCcValue
  }

  /**
   * The two-message protocol: from nothing armed, an output message and an
   * input message that both reach their thresholds, in either order, give
   * exactly one event between the two entries (Toggle from the Toggle
   * driver, Add from the Gate driver) and leave nothing armed.
   */
  lemma {:induction false} PairEmitsOneEvent(k: DriverKind, s: DriverState, first: MidiMessage, second: MidiMessage, replace: bool)
    requires s.Idle()
    requires (Fires(s, first, 0) && Fires(s, second, 1)) || (Fires(s, first, 1) && Fires(s, second, 0))
    ensures var r := Run(k, s, [first, second], replace);
      var o := if Fires(s, first, 0) then Target(s, first).value else Target(s, second).value;
      var i := if Fires(s, first, 0) then Target(s, second).value else Target(s, first).value;
      && r.0 == [CableEvent(if k == ToggleDriver then Toggle else Add, o.Port(), i.Port(), o.cableColor, replace, false)]
      && r.1.Idle()
  {
    var h1 := Handle(k, s, first, replace);
    assert h1.0 == [];
    var h2 := Handle(k, h1.1, second, replace);
    assert Target(h1.1, second) == Target(s, second);
    var msgs := [first, second];
    assert msgs[1..] == [second];
    assert Run(k, h1.1, [second], replace) == (h2.0, h2.1) by {
      var one := [second];
      assert one[0] == second && one[1..] == [];
      assert Run(k, h2.1, one[1..], replace) == ([], h2.1);
      assert h2.0 + [] == h2.0;
    }
  }

  /** A message the table does not map changes nothing, in either driver. */
  lemma UnmappedMessageIgnored(k: DriverKind, s: DriverState, msg: MidiMessage)
    requires (msg.Channel(), msg.Note()) !in s.portMap && (AnyChannel, msg.Note()) !in s.portMap
    ensures Step(k, s, msg) == s
  {
  }

  /**
   * A driver object: its kind is fixed at construction, its table and
   * armed halves change in place.
   */
  class Driver {
    const kind: DriverKind
    var portMap: PortMap
    var lastInput: Option<MidiPortDescriptor>
    var lastOutput: Option<MidiPortDescriptor>
    var lastEventType: EventKind

    ghost function State(): DriverState
      reads this
    {
      DriverState(portMap, lastInput, lastOutput, lastEventType)
    }

    constructor(kind: DriverKind)
      ensures this.kind == kind && State() == InitialState()
    {
      this.kind := kind;
      portMap := map[];
      lastInput := None;
      lastOutput := None;
      lastEventType := Toggle;
    }

    /** `processMessage`: update the armed halves; answer whether both are armed. */
    method ProcessMessage(msg: MidiMessage) returns (ready: bool)
      modifies this
      ensures State() == Step(kind, old(State()), msg)
      ensures ready == State().Ready()
    {
      var target := Lookup(portMap, msg.Channel(), msg.Note());
      if target.Some? {
        var pd := target.value;
        var value := msg.Value();
        if kind == ToggleDriver {
          if value >= pd.midiCcValue {
            if pd.portType == 0 { lastEventType := Toggle; }
            if pd.portType == 0 { lastOutput := Some(pd); }
            if pd.portType == 1 { lastInput := Some(pd); }
          }
        } else {
          if value == 0 { lastEventType := Remove; }
          if value >= pd.midiCcValue { lastEventType := Add; }
          if pd.portType == 0 { lastOutput := Some(pd); }
          if pd.portType == 1 { lastInput := Some(pd); }
        }
      }
      ready := lastInput.Some? && lastOutput.Some?;
    }

    /** `getEvent`: hand out the completed event, if any, and disarm. */
    method GetEvent(replace: bool) returns (e: Option<CableEvent>)
      modifies this
      ensures (e, State()) == TakeEvent(old(State()), replace)
    {
      if lastInput.Some? && lastOutput.Some? {
        var ev := NewCableEvent(lastEventType, lastOutput.value.Port(), lastInput.value.Port());
        e := Some(ev.(cableColor := lastOutput.value.cableColor, replaceInputCable := replace));
        lastInput := None;
        lastOutput := None;
      } else {
        e := None;
      }
    }

    /** `reset`: the table is emptied; armed halves and the kind stay. */
    method Reset()
      modifies this
      ensures State() == old(State()).(portMap := map[])
    {
      portMap := map[];
    }

    /** `fromJson`: reset, then import the "events" records; armed halves and the kind stay. */
    method FromJson(driverJ: Json)
      requires WellTypedRecords(EventRecords(driverJ))
      modifies this
      ensures State() == old(State()).(portMap := TableFromJson(driverJ))
    {
      Reset();
      var rs := EventRecords(driverJ);
      var i := 0;
      while i < |rs|
        invariant 0 <= i <= |rs|
        invariant WellTypedRecords(rs[..i])
        invariant State() == old(State()).(portMap := Import(rs[..i]))
      {
        ImportSnoc(rs, i);
        match DecodeRecord(rs[i]) {
          case Some(kv) => portMap := portMap[kv.0 := kv.1];
          case None =>
        }
        i := i + 1;
      }
      assert rs[..|rs|] == rs;
    }

    /** `toJson`: the "events" array, written in the key order of the table. */
    method ToJson() returns (eventsJ: Json)
      ensures eventsJ == TableToJson(portMap)
    {
      eventsJ := EncodeTable(portMap);
    }
  }
}
