/**
 * The cable events of src/T7.cpp executed against the patch.  The patch is
 * abstracted to the set of live module ids, the rack's cable list in
 * container order, the undo history and the module's GUI log.  The pure
 * function `Execute` states what one event does; the `Rack` class and the
 * method `ExecuteEvent` do it step by step, as the source does, and are
 * proved to agree with it.
 */
module T7Graph {
  import opened Wrappers
  import opened T7Types

  // ---- The patch ----

  /** A cable colour: the rack's default, or one set from a hex string. */
  datatype Color = DefaultColor | HexColor(hex: string)

  /** A complete cable from output `outPort` of `outModule` to input `inPort` of `inModule`. */
  datatype Cable = Cable(outModule: int, outPort: int, inModule: int, inPort: int, color: Color)

  /** An undo-history record. */
  datatype HistoryAction = CableAdd(cable: Cable) | CableRemove(cable: Cable)

  /** Everything an event can observe or change. */
  datatype World = World(modules: set<int>, cables: seq<Cable>, history: seq<HistoryAction>, log: seq<string>)

  // ---- Searching the cable list ----

  /**
   * The two searches the events make: the cables leaving an output port
   * whose input port id is `inPort` (the input module is not compared), and
   * the cables plugged into one input port.
   */
  datatype CableQuery =
    | FromOutputTo(outModule: int, outPort: int, inPort: int)
    | OnInput(inModule: int, inPort: int)

  predicate Matches(c: Cable, q: CableQuery) {
    match q
    case FromOutputTo(m, p, ip) => c.outModule == m && c.outPort == p && c.inPort == ip
    case OnInput(m, p) => c.inModule == m && c.inPort == p
  }

  /** Index of the first cable at or after `from` that matches `q`. */
  function FirstFrom(cables: seq<Cable>, q: CableQuery, from: nat): (r: Option<nat>)
    requires from <= |cables|
    ensures r.Some? ==> from <= r.value < |cables| && Matches(cables[r.value], q)
    ensures r.Some? ==> forall j :: from <= j < r.value ==> !Matches(cables[j], q)
    ensures r.None? ==> forall j :: from <= j < |cables| ==> !Matches(cables[j], q)
    decreases |cables| - from
  {
    if from == |cables| then None
    else if Matches(cables[from], q) then Some(from)
    else FirstFrom(cables, q, from + 1)
  }

  /** Index of the first cable in container order that matches `q`. */
  function First(cables: seq<Cable>, q: CableQuery): (r: Option<nat>)
    ensures r.Some? ==> r.value < |cables| && Matches(cables[r.value], q)
    ensures r.Some? ==> forall j :: 0 <= j < r.value ==> !Matches(cables[j], q)
    ensures r.None? ==> forall j :: 0 <= j < |cables| ==> !Matches(cables[j], q)
  {
    FirstFrom(cables, q, 0)
  }

  /** Number of cables that match `q`. */
  function Count(cables: seq<Cable>, q: CableQuery): nat {
    if cables == [] then 0
    else Count(cables[..|cables| - 1], q) + (if Matches(cables[|cables| - 1], q) then 1 else 0)
  }

  /** The search `findCable` makes for an event (src/T7.cpp:30-43). */
  function CableQueryOf(e: CableEvent): CableQuery {
    FromOutputTo(e.outPd.moduleId, e.outPd.portId, e.inPd.portId)
  }

  /** The search for the cable already plugged into the event's input port. */
  function InputQueryOf(e: CableEvent): CableQuery {
    OnInput(e.inPd.moduleId, e.inPd.portId)
  }

  // ---- What one event does ----

  /** The cable an Add or Toggle event creates. */
  function NewCable(e: CableEvent): (c: Cable)
    ensures Matches(c, CableQueryOf(e)) && Matches(c, InputQueryOf(e))
    ensures c.outModule == e.outPd.moduleId && c.outPort == e.outPd.portId
    ensures c.inModule == e.inPd.moduleId && c.inPort == e.inPd.portId
    ensures c.color == DefaultColor <==> e.cableColor == ""
  {
    Cable(e.outPd.moduleId, e.outPd.portId, e.inPd.moduleId, e.inPd.portId,
          if e.cableColor == "" then DefaultColor else HexColor(e.cableColor))
  }

  /** `removeCable`: push a CableRemove record, then take the cable out of the rack. */
  function RemoveAt(w: World, i: nat): World
    requires i < |w.cables|
  {
    w.(cables := w.cables[..i] + w.cables[i + 1..], history := w.history + [CableRemove(w.cables[i])])
  }

  /** `addCable`: put the cable into the rack, then push a CableAdd record. */
  function Append(w: World, c: Cable): World {
    w.(cables := w.cables + [c], history := w.history + [CableAdd(c)])
  }

  function LogLine(w: World, e: CableEvent, s: string): World {
    w.(log := Log(e.hasLogger, w.log, s))
  }

  /** True when the output or the input module of the event no longer exists. */
  predicate Stale(e: CableEvent, w: World) {
    e.outPd.moduleId !in w.modules || e.inPd.moduleId !in w.modules
  }

  /**
   * The branch that patches a new cable (src/T7.cpp:68-100, 130-162).  An
   * occupied input loses its first cable when the policy says replace;
   * otherwise "input port occupied" is logged and, because the `break` only
   * leaves the port loop, the cable is patched all the same.
   */
  function Connect(e: CableEvent, w: World): (r: World)
    ensures r.modules == w.modules
    ensures |r.cables| >= 1 && r.cables[|r.cables| - 1] == NewCable(e)
    ensures |r.history| >= 1 && r.history[|r.history| - 1] == CableAdd(NewCable(e))
    ensures First(w.cables, InputQueryOf(e)).None? || !e.replaceInputCable ==>
      r.cables == w.cables + [NewCable(e)] && r.history == w.history + [CableAdd(NewCable(e))]
    ensures First(w.cables, InputQueryOf(e)).Some? && e.replaceInputCable ==>
      var j := First(w.cables, InputQueryOf(e)).value;
      r.cables == w.cables[..j] + w.cables[j + 1..] + [NewCable(e)]
      && r.history == w.history + [CableRemove(w.cables[j]), CableAdd(NewCable(e))]
  {
    var w1 :=
      match First(w.cables, InputQueryOf(e))
      case None => w
      case Some(j) => if e.replaceInputCable then RemoveAt(w, j) else LogLine(w, e, "input port occupied");
    LogLine(Append(w1, NewCable(e)), e, "cable patched")
  }

  /** `execute` of the Toggle, Add and Remove events (src/T7.cpp:52-196). */
  function Execute(e: CableEvent, w: World): (r: World)
    ensures Stale(e, w) ==> r == w
    ensures r.modules == w.modules
    ensures w.history <= r.history && |r.history| <= |w.history| + 2
    ensures w.log <= r.log
    ensures |w.cables| - 1 <= |r.cables| <= |w.cables| + 1
    ensures !e.hasLogger ==> r.log == w.log
  {
    if Stale(e, w) then w
    else
      match First(w.cables, CableQueryOf(e))
      case Some(i) =>
        if e.kind == Add then LogLine(w, e, "cable already patched")
        else LogLine(RemoveAt(w, i), e, "cable removed")
      case None =>
        if e.kind == Remove then LogLine(w, e, "no cable to remove")
        else Connect(e, w)
  }

  /** Execute a batch of events in order, each exactly once. */
  function ExecuteAll(es: seq<CableEvent>, w: World): World
    decreases |es|
  {
    if es == [] then w else ExecuteAll(es[1..], Execute(es[0], w))
  }

  // ---- Properties of Execute ----

  /**
   * Remove, or Toggle on an existing cable: the first matching cable, and
   * only it, leaves the rack, with one CableRemove record; a Remove with
   * nothing to find changes only the log.
   */
  lemma RemoveEventRemovesFirstMatch(e: CableEvent, w: World)
    requires e.kind != Add && !Stale(e, w)
    ensures var r := Execute(e, w);
      match First(w.cables, CableQueryOf(e))
      case Some(i) =>
        && multiset(r.cables) == multiset(w.cables) - multiset{w.cables[i]}
        && r.cables == w.cables[..i] + w.cables[i + 1..]
        && r.history == w.history + [CableRemove(w.cables[i])]
        && r.log == Log(e.hasLogger, w.log, "cable removed")
      case None =>
        e.kind == Remove ==>
        && r.cables == w.cables && r.history == w.history
        && r.log == Log(e.hasLogger, w.log, "no cable to remove")
  {
    match First(w.cables, CableQueryOf(e))
    case Some(i) =>
      assert w.cables == w.cables[..i] + [w.cables[i]] + w.cables[i + 1..];
    case None =>
  }

  /**
   * Add or Toggle with no cable between the pair and a free input: the new
   * cable is appended with one CableAdd record and "cable patched" is logged.
   */
  lemma FreeInputPatches(e: CableEvent, w: World)
    requires e.kind != Remove && !Stale(e, w)
    requires First(w.cables, CableQueryOf(e)).None? && First(w.cables, InputQueryOf(e)).None?
    ensures Execute(e, w) == w.(cables := w.cables + [NewCable(e)],
                                history := w.history + [CableAdd(NewCable(e))],
                                log := Log(e.hasLogger, w.log, "cable patched"))
  {
  }

  /** Add: an already patched cable changes nothing but the log. */
  lemma AddEventOnExistingCable(e: CableEvent, w: World)
    requires e.kind == Add && !Stale(e, w) && First(w.cables, CableQueryOf(e)).Some?
    ensures Execute(e, w) == w.(log := Log(e.hasLogger, w.log, "cable already patched"))
  {
  }

  /**
   * Add or Toggle against an occupied input with the replace policy off:
   * "input port occupied" is logged and the new cable is patched anyway.
   */
  lemma OccupiedInputWithoutReplaceStillPatches(e: CableEvent, w: World)
    requires e.kind != Remove && !Stale(e, w) && !e.replaceInputCable
    requires First(w.cables, CableQueryOf(e)).None? && First(w.cables, InputQueryOf(e)).Some?
    ensures Execute(e, w).cables == w.cables + [NewCable(e)]
    ensures Execute(e, w).history == w.history + [CableAdd(NewCable(e))]
    ensures Execute(e, w).log == Log(e.hasLogger, Log(e.hasLogger, w.log, "input port occupied"), "cable patched")
  {
  }

  /**
   * Add or Toggle against an occupied input with the replace policy on: the
   * first cable on that input goes (its own CableRemove record), then the new
   * cable comes (its own CableAdd record).
   */
  lemma OccupiedInputWithReplace(e: CableEvent, w: World)
    requires e.kind != Remove && !Stale(e, w) && e.replaceInputCable
    requires First(w.cables, CableQueryOf(e)).None? && First(w.cables, InputQueryOf(e)).Some?
    ensures var j := First(w.cables, InputQueryOf(e)).value;
      && Execute(e, w).cables == w.cables[..j] + w.cables[j + 1..] + [NewCable(e)]
      && Execute(e, w).history == w.history + [CableRemove(w.cables[j]), CableAdd(NewCable(e))]
      && Execute(e, w).log == Log(e.hasLogger, w.log, "cable patched")
  {
  }

  // Counting lemmas

  lemma {:induction false} CountAppend(a: seq<Cable>, b: seq<Cable>, q: CableQuery)
    ensures Count(a + b, q) == Count(a, q) + Count(b, q)
    decreases |b|
  {
    if b == [] {
      assert a + b == a;
    } else {
      var b' := b[..|b| - 1];
      assert (a + b)[..|a + b| - 1] == a + b';
      CountAppend(a, b', q);
    }
  }

  lemma {:induction false} CountNone(cs: seq<Cable>, q: CableQuery)
    requires forall j :: 0 <= j < |cs| ==> !Matches(cs[j], q)
    ensures Count(cs, q) == 0
    decreases |cs|
  {
    if cs != [] {
      CountNone(cs[..|cs| - 1], q);
    }
  }

  lemma CountRemoveAt(cs: seq<Cable>, i: nat, q: CableQuery)
    requires i < |cs|
    ensures Count(cs, q) == Count(cs[..i] + cs[i + 1..], q) + (if Matches(cs[i], q) then 1 else 0)
  {
    assert cs == cs[..i] + [cs[i]] + cs[i + 1..];
    CountAppend(cs[..i] + [cs[i]], cs[i + 1..], q);
    CountAppend(cs[..i], [cs[i]], q);
    CountAppend(cs[..i], cs[i + 1..], q);
    assert [cs[i]][..0] == [];
  }

  /**
   * With the replace policy on and exactly one cable on the input, Add
   * leaves exactly one cable on that input: the new one, at the end.
   */
  lemma ReplaceLeavesOneCableOnInput(e: CableEvent, w: World)
    requires e.kind == Add && !Stale(e, w) && e.replaceInputCable
    requires First(w.cables, CableQueryOf(e)).None?
    requires Count(w.cables, InputQueryOf(e)) == 1
    ensures var r := Execute(e, w);
      Count(r.cables, InputQueryOf(e)) == 1 && r.cables[|r.cables| - 1] == NewCable(e)
  {
    var q := InputQueryOf(e);
    if First(w.cables, q).None? {
      CountNone(w.cables, q);
      assert false;
    }
    var j := First(w.cables, q).value;
    var rest := w.cables[..j] + w.cables[j + 1..];
    CountRemoveAt(w.cables, j, q);
    CountAppend(rest, [NewCable(e)], q);
    assert [NewCable(e)][..0] == [];
  }

  /**
   * Toggle applied twice to a pair with no cable between them, when the
   * first application removes nothing (the input is free or the policy is
   * not to replace), gives back the original cable list.
   */
  lemma ToggleTwiceRestoresCables(e: CableEvent, w: World)
    requires e.kind == Toggle && !Stale(e, w)
    requires First(w.cables, CableQueryOf(e)).None?
    requires !e.replaceInputCable || First(w.cables, InputQueryOf(e)).None?
    ensures Execute(e, Execute(e, w)).cables == w.cables
    ensures Execute(e, Execute(e, w)).modules == w.modules
  {
    var w1 := Execute(e, w);
    var n := NewCable(e);
    assert w1.cables == w.cables + [n];
    var q := CableQueryOf(e);
    assert forall j :: 0 <= j < |w.cables| ==> w1.cables[j] == w.cables[j];
    assert Matches(w1.cables[|w.cables|], q);
    assert First(w1.cables, q) == Some(|w.cables|);
    assert w1.cables[..|w.cables|] == w.cables;
  }

  // ---- The history accounts for the change of the cable list ----

  /** The cable list minus the first cable equal to `c`. */
  function RemoveFirst(cs: seq<Cable>, c: Cable): seq<Cable>
    decreases |cs|
  {
    if cs == [] then []
    else if cs[0] == c then cs[1..]
    else [cs[0]] + RemoveFirst(cs[1..], c)
  }

  /** Redo the given history records on a cable list. */
  function Replay(cs: seq<Cable>, hs: seq<HistoryAction>): seq<Cable>
    decreases |hs|
  {
    if hs == [] then cs
    else
      match hs[0]
      case CableAdd(c) => Replay(cs + [c], hs[1..])
      case CableRemove(c) => Replay(RemoveFirst(cs, c), hs[1..])
  }

  lemma {:induction false} RemoveFirstAt(cs: seq<Cable>, i: nat)
    requires i < |cs|
    requires forall j :: 0 <= j < i ==> cs[j] != cs[i]
    ensures RemoveFirst(cs, cs[i]) == cs[..i] + cs[i + 1..]
    decreases i
  {
    if i > 0 {
      var t := cs[1..];
      assert t[i - 1] == cs[i];
      RemoveFirstAt(t, i - 1);
      assert cs[..i] == [cs[0]] + t[..i - 1];
      assert cs[i + 1..] == t[i..];
    }
  }

  /** Removing the first match of a query removes the first cable equal to it. */
  lemma RemoveFirstOfQuery(cs: seq<Cable>, q: CableQuery)
    requires First(cs, q).Some?
    ensures var i := First(cs, q).value; RemoveFirst(cs, cs[i]) == cs[..i] + cs[i + 1..]
  {
    RemoveFirstAt(cs, First(cs, q).value);
  }

  /** The history records of an event that removes the first matching cable. */
  lemma {:induction false} HistoryOfRemoval(e: CableEvent, w: World)
    requires !Stale(e, w) && e.kind != Add && First(w.cables, CableQueryOf(e)).Some?
    ensures var r := Execute(e, w);
      Replay(w.cables, r.history[|w.history|..]) == r.cables
  {
    var i := First(w.cables, CableQueryOf(e)).value;
    RemoveFirstOfQuery(w.cables, CableQueryOf(e));
    assert Execute(e, w).history[|w.history|..] == [CableRemove(w.cables[i])];
  }

  /** The history records of an event that patches a new cable. */
  lemma {:induction false} HistoryOfConnect(e: CableEvent, w: World)
    ensures var r := Connect(e, w);
      Replay(w.cables, r.history[|w.history|..]) == r.cables
  {
    var r := Connect(e, w);
    var n := NewCable(e);
    var added := [CableAdd(n)];
    assert added[1..] == [];
    if First(w.cables, InputQueryOf(e)).Some? && e.replaceInputCable {
      var j := First(w.cables, InputQueryOf(e)).value;
      var rest := w.cables[..j] + w.cables[j + 1..];
      RemoveFirstOfQuery(w.cables, InputQueryOf(e));
      var hs := [CableRemove(w.cables[j]), CableAdd(n)];
      assert r.history[|w.history|..] == hs;
      assert hs[1..] == added;
      assert Replay(w.cables, hs) == Replay(rest, added);
      assert Replay(rest, added) == Replay(rest + [n], []);
    } else {
      assert r.history[|w.history|..] == added;
      assert Replay(w.cables, added) == Replay(w.cables + [n], []);
    }
  }

  /**
   * The records an event pushes to the history, redone on the old cable
   * list, give exactly the new cable list: each removal and each addition
   * is recorded, on its own.
   */
  lemma HistoryAccountsForCables(e: CableEvent, w: World)
    ensures var r := Execute(e, w);
      Replay(w.cables, r.history[|w.history|..]) == r.cables
  {
    var r := Execute(e, w);
    if Stale(e, w) {
      assert r.history[|w.history|..] == [];
    } else if First(w.cables, CableQueryOf(e)).Some? {
      if e.kind == Add {
        assert r.history[|w.history|..] == [];
      } else {
        HistoryOfRemoval(e, w);
      }
    } else if e.kind == Remove {
      assert r.history[|w.history|..] == [];
    } else {
      HistoryOfConnect(e, w);
    }
  }

  // ---- The imperative side ----

  /** The module's event logger: a 256-line buffer that drops lines when full. */
  class EventLogger {
    var lines: seq<string>

    constructor ()
      ensures lines == []
    {
      lines := [];
    }

    /** `EventLogger::log`: keep the line only if the buffer is not full. */
    method Log(s: string)
      modifies this
      ensures lines == T7Types.Log(true, old(lines), s)
    {
      if |lines| < GuiLogCapacity {
        lines := lines + [s];
      }
    }
  }

  /** The rack as the events see it: live module ids, the cable container and the undo history. */
  class Rack {
    var modules: set<int>
    var cables: seq<Cable>
    var history: seq<HistoryAction>

    constructor (modules: set<int>, cables: seq<Cable>)
      ensures this.modules == modules && this.cables == cables && history == []
    {
      this.modules := modules;
      this.cables := cables;
      history := [];
    }

    /** Walk the cable container in order and stop at the first cable matching `q`. */
    method FindFirst(q: CableQuery) returns (r: Option<nat>)
      ensures r == First(cables, q)
    {
      var i := 0;
      while i < |cables|
        invariant 0 <= i <= |cables|
        invariant forall j :: 0 <= j < i ==> !Matches(cables[j], q)
      {
        if Matches(cables[i], q) {
          assert FirstFrom(cables, q, i) == Some(i);
          FirstFromSkips(cables, q, i);
          return Some(i);
        }
        i := i + 1;
      }
      FirstFromSkips(cables, q, i);
      return None;
    }

    /** `T7CableEvent::removeCable`. */
    method RemoveCable(i: nat)
      requires i < |cables|
      modifies this
      ensures modules == old(modules)
      ensures cables == old(cables[..i] + cables[i + 1..])
      ensures history == old(history) + [CableRemove(old(cables[i]))]
    {
      history := history + [CableRemove(cables[i])];
      cables := cables[..i] + cables[i + 1..];
    }

    /** `T7CableEvent::addCable`. */
    method AddCable(c: Cable)
      modifies this
      ensures modules == old(modules)
      ensures cables == old(cables) + [c]
      ensures history == old(history) + [CableAdd(c)]
    {
      cables := cables + [c];
      history := history + [CableAdd(c)];
    }
  }

  /** Skipping leading non-matches does not change the first match. */
  lemma FirstFromSkips(cs: seq<Cable>, q: CableQuery, i: nat)
    requires i <= |cs|
    requires forall j :: 0 <= j < i ==> !Matches(cs[j], q)
    ensures First(cs, q) == FirstFrom(cs, q, i)
    decreases i
  {
    if i > 0 {
      FirstFromSkips(cs, q, i - 1);
    }
  }

  ghost function Snapshot(rack: Rack, logger: EventLogger): World
    reads rack, logger
  {
    World(rack.modules, rack.cables, rack.history, logger.lines)
  }

  /** `T7Event::log` on the imperative side. */
  method LogTo(e: CableEvent, logger: EventLogger, s: string)
    modifies logger
    ensures logger.lines == Log(e.hasLogger, old(logger.lines), s)
  {
    if e.hasLogger {
      logger.Log(s);
    }
  }

  /** `execute` of the three cable events, step by step. */
  method ExecuteEvent(e: CableEvent, rack: Rack, logger: EventLogger)
    modifies rack, logger
    ensures Snapshot(rack, logger) == Execute(e, old(Snapshot(rack, logger)))
  {
    ghost var w := Snapshot(rack, logger);
    if e.outPd.moduleId !in rack.modules || e.inPd.moduleId !in rack.modules {
      return;
    }
    var found := rack.FindFirst(CableQueryOf(e));
    if found.Some? {
      if e.kind == Add {
        LogTo(e, logger, "cable already patched");
      } else {
        rack.RemoveCable(found.value);
        LogTo(e, logger, "cable removed");
      }
    } else if e.kind == Remove {
      LogTo(e, logger, "no cable to remove");
    } else {
      var occupied := rack.FindFirst(InputQueryOf(e));
      if occupied.Some? {
        if e.replaceInputCable {
          rack.RemoveCable(occupied.value);
        } else {
          LogTo(e, logger, "input port occupied");
        }
      }
      rack.AddCable(NewCable(e));
      LogTo(e, logger, "cable patched");
    }
  }
}
