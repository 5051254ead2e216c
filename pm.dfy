/**
 * The port context menu (src/Pm.cpp): which entries a right click on a
 * patched port offers, and the cable operations behind them: disconnect the
 * top cable, disconnect every cable, rotate the drawing order, and cycle the
 * top cable's colour through the palette.
 */
module Pm {
  import opened Wrappers

  /** A port widget: its identity and whether it is an output. */
  datatype PortWidget = PortWidget(id: int, isOutput: bool)

  /** A cable widget: identity, its two ends (an end being dragged is absent), and its colour, an index-free palette code. */
  datatype PmCable = PmCable(id: int, outputPort: Option<int>, inputPort: Option<int>, color: int)

  /** Undo records: one cable removal, or a named group of them. */
  datatype Action = CableRemove(cable: PmCable) | ComplexAction(name: string, actions: seq<Action>)

  predicate Touches(c: PmCable, port: int) {
    c.outputPort == Some(port) || c.inputPort == Some(port)
  }

  /** `CableWidget::isComplete`: both ends are plugged. */
  predicate Complete(c: PmCable) {
    c.outputPort.Some? && c.inputPort.Some?
  }

  // ---- The rack's cable queries ----

  /** `RackWidget::getCablesOnPort`: the cables touching the port, in drawing order. */
  function CablesOnPort(cs: seq<PmCable>, port: int): (r: seq<PmCable>)
    ensures |r| <= |cs|
    ensures forall c :: c in r <==> c in cs && Touches(c, port)
    decreases |cs|
  {
    if cs == [] then []
    else
      var n := |cs| - 1;
      CablesOnPort(cs[..n], port) + (if Touches(cs[n], port) then [cs[n]] else [])
  }

  /** `RackWidget::getTopCable`: the index of the last complete cable touching the port. */
  function TopCable(cs: seq<PmCable>, port: int): (r: Option<nat>)
    ensures r.Some? ==> r.value < |cs| && Complete(cs[r.value]) && Touches(cs[r.value], port)
    ensures r.Some? ==> forall k :: r.value < k < |cs| ==> !(Complete(cs[k]) && Touches(cs[k], port))
    ensures r.None? ==> forall k :: 0 <= k < |cs| ==> !(Complete(cs[k]) && Touches(cs[k], port))
    decreases |cs|
  {
    if cs == [] then None
    else
      var n := |cs| - 1;
      if Complete(cs[n]) && Touches(cs[n], port) then Some(n) else TopCable(cs[..n], port)
  }

  /** The cables not in `gone`, in their order: the list after `RackWidget::removeCable` of each of them. */
  function Without(cs: seq<PmCable>, gone: seq<PmCable>): (r: seq<PmCable>)
    ensures |r| <= |cs|
    decreases |cs|
  {
    if cs == [] then []
    else
      var n := |cs| - 1;
      Without(cs[..n], gone) + (if cs[n] in gone then [] else [cs[n]])
  }

  /** The cables kept are exactly those listed and not gone. */
  lemma {:induction false} WithoutMembers(cs: seq<PmCable>, gone: seq<PmCable>)
    ensures forall c :: c in Without(cs, gone) <==> c in cs && c !in gone
    decreases |cs|
  {
    if cs != [] {
      var n := |cs| - 1;
      WithoutMembers(cs[..n], gone);
      assert cs == cs[..n] + [cs[n]];
    }
  }

  lemma {:induction false} WithoutSnoc(cs: seq<PmCable>, gone: seq<PmCable>, g: PmCable)
    ensures Without(Without(cs, gone), [g]) == Without(cs, gone + [g])
    decreases |cs|
  {
    if cs != [] {
      var n := |cs| - 1;
      WithoutSnoc(cs[..n], gone, g);
      var w := Without(cs, gone);
      if cs[n] !in gone {
        assert w[..|w| - 1] == Without(cs[..n], gone);
      } else {
        assert w == Without(cs[..n], gone);
      }
    }
  }

  lemma {:induction false} WithoutNothing(cs: seq<PmCable>)
    ensures Without(cs, []) == cs
    decreases |cs|
  {
    if cs != [] {
      WithoutNothing(cs[..|cs| - 1]);
      assert cs == cs[..|cs| - 1] + [cs[|cs| - 1]];
    }
  }

  /** The cables that do not touch the port, in their order. */
  function Untouched(cs: seq<PmCable>, port: int): (r: seq<PmCable>)
    ensures forall c :: c in r <==> c in cs && !Touches(c, port)
    decreases |cs|
  {
    if cs == [] then []
    else
      var n := |cs| - 1;
      Untouched(cs[..n], port) + (if Touches(cs[n], port) then [] else [cs[n]])
  }

  /** The port's cables and the untouched ones split the cable list: each cable lands in exactly one, as often as it is listed. */
  lemma {:induction false} CablesOnPortSplit(cs: seq<PmCable>, port: int)
    ensures multiset(CablesOnPort(cs, port)) + multiset(Untouched(cs, port)) == multiset(cs)
    decreases |cs|
  {
    if cs != [] {
      var n := |cs| - 1;
      CablesOnPortSplit(cs[..n], port);
      assert cs == cs[..n] + [cs[n]];
    }
  }

  /** The port's cables of a prefix of the list are a prefix of the port's cables. */
  lemma {:induction false} CablesOnPortPrefix(cs: seq<PmCable>, port: int, k: nat)
    requires k <= |cs|
    ensures CablesOnPort(cs[..k], port) <= CablesOnPort(cs, port)
    decreases |cs| - k
  {
    if k < |cs| {
      CablesOnPortPrefix(cs, port, k + 1);
      assert cs[..k + 1][..k] == cs[..k];
    } else {
      assert cs[..k] == cs;
    }
  }

  /**
   * Drawing order: a cable touching the port at position `j` sits among the
   * port's cables right after those that precede it.
   */
  lemma {:induction false} CablesOnPortAt(cs: seq<PmCable>, port: int, j: nat)
    requires j < |cs| && Touches(cs[j], port)
    ensures |CablesOnPort(cs[..j], port)| < |CablesOnPort(cs, port)|
    ensures CablesOnPort(cs, port)[|CablesOnPort(cs[..j], port)|] == cs[j]
  {
    CablesOnPortPrefix(cs, port, j + 1);
    assert cs[..j + 1][..j] == cs[..j];
    assert CablesOnPort(cs[..j + 1], port) == CablesOnPort(cs[..j], port) + [cs[j]];
  }

  /** Removing every cable the port has leaves exactly the cables that do not touch it. */
  lemma {:induction false} WithoutCablesOnPort(cs: seq<PmCable>, all: seq<PmCable>, port: int)
    requires forall c :: c in cs ==> c in all
    ensures Without(cs, CablesOnPort(all, port)) == Untouched(cs, port)
    decreases |cs|
  {
    if cs != [] {
      var n := |cs| - 1;
      assert cs[n] in cs;
      WithoutCablesOnPort(cs[..n], all, port);
    }
  }

  // ---- The menu ----

  /** The widget under the mouse. */
  datatype Hovered = NoWidget | OtherWidget | OverPort(pw: PortWidget)

  const OutputMenuLabel := "Output-port"
  const InputMenuLabel := "Input-port"

  /**
   * `PmContainer::onButton`: a right press over a port widget that has a
   * cable opens the port's menu and consumes the event; anything else
   * opens nothing.  The entries are given by their texts.
   */
  function MenuFor(press: bool, rightButton: bool, hovered: Hovered, cs: seq<PmCable>): (r: (bool, Option<seq<string>>))
    ensures r.0 <==> r.1.Some?
    ensures r.1.Some? <==> press && rightButton && hovered.OverPort? && |CablesOnPort(cs, hovered.pw.id)| > 0
    ensures r.1.Some? && hovered.pw.isOutput ==>
      var c := |CablesOnPort(cs, hovered.pw.id)|;
      && |r.1.value| >= 2 && r.1.value[..2] == [OutputMenuLabel, "Output channels"]
      && ("Go to input-port" in r.1.value <==> c == 1)
      && ("Disconnect all" in r.1.value <==> c > 1)
      && ("Rotate ordering" in r.1.value <==> c > 1)
      && "Disconnect" in r.1.value && "Next color" in r.1.value
    ensures r.1.Some? && !hovered.pw.isOutput ==>
      r.1.value == [InputMenuLabel, "Go to output-port", "Disconnect", "Next color"]
  {
    if !(press && rightButton) || !hovered.OverPort? then (false, None)
    else
      var pw := hovered.pw;
      var c := |CablesOnPort(cs, pw.id)|;
      if c == 0 then (false, None)
      else if pw.isOutput then
        (true, Some([OutputMenuLabel, "Output channels"]
          + (if c == 1 then ["Go to input-port"] else [])
          + ["Disconnect"]
          + (if c > 1 then ["Disconnect all", "Rotate ordering"] else [])
          + ["Next color"]))
      else (true, Some([InputMenuLabel, "Go to output-port", "Disconnect", "Next color"]))
  }

  // ---- Rotating the drawing order ----

  /** The index of the first complete cable touching the port, as the rotate loop finds it. */
  function FirstTouching(cs: seq<PmCable>, port: int): (r: Option<nat>)
    ensures r.Some? ==> r.value < |cs| && Complete(cs[r.value]) && Touches(cs[r.value], port)
    ensures r.Some? ==> forall k :: 0 <= k < r.value ==> !(Complete(cs[k]) && Touches(cs[k], port))
    ensures r.None? ==> forall k :: 0 <= k < |cs| ==> !(Complete(cs[k]) && Touches(cs[k], port))
    decreases |cs|
  {
    if cs == [] then None
    else if Complete(cs[0]) && Touches(cs[0], port) then Some(0)
    else match FirstTouching(cs[1..], port)
      case None => None
      case Some(i) => Some(i + 1)
  }

  /** The list after `RotateItem`: the first complete cable on the port is spliced to the end. */
  function Rotated(cs: seq<PmCable>, port: int): seq<PmCable> {
    match FirstTouching(cs, port)
    case None => cs
    case Some(i) => cs[..i] + cs[i + 1..] + [cs[i]]
  }

  /** Rotating keeps the same cables, moves the chosen one last and keeps the others in their order. */
  lemma RotatedIsPermutation(cs: seq<PmCable>, port: int)
    ensures multiset(Rotated(cs, port)) == multiset(cs)
    ensures FirstTouching(cs, port).None? ==> Rotated(cs, port) == cs
    ensures FirstTouching(cs, port).Some? ==>
      var i := FirstTouching(cs, port).value;
      Rotated(cs, port)[|cs| - 1] == cs[i] && Rotated(cs, port)[..|cs| - 1] == cs[..i] + cs[i + 1..]
  {
    var first := FirstTouching(cs, port);
    if first.Some? {
      var i := first.value;
      var r := cs[..i] + cs[i + 1..] + [cs[i]];
      assert Rotated(cs, port) == r;
      assert cs == cs[..i] + ([cs[i]] + cs[i + 1..]);
      assert multiset(r) == multiset(cs[..i]) + multiset(cs[i + 1..]) + multiset([cs[i]]);
      assert r[..|cs| - 1] == cs[..i] + cs[i + 1..];
    }
  }

  // ---- Distinct cable widgets ----

  /** Every cable widget appears once: no two entries share an identity. */
  predicate DistinctIds(cs: seq<PmCable>) {
    forall i, j :: 0 <= i < j < |cs| ==> cs[i].id != cs[j].id
  }

  lemma {:induction false} WithoutAbsent(cs: seq<PmCable>, gone: seq<PmCable>)
    requires forall k :: 0 <= k < |cs| ==> cs[k] !in gone
    ensures Without(cs, gone) == cs
    decreases |cs|
  {
    if cs != [] {
      var n := |cs| - 1;
      WithoutAbsent(cs[..n], gone);
      assert cs[n] !in gone;
      assert cs == cs[..n] + [cs[n]];
    }
  }

  /** Among distinct cables, removing the cable at index `i` removes that entry and no other. */
  lemma {:induction false} WithoutOne(cs: seq<PmCable>, i: nat)
    requires DistinctIds(cs) && i < |cs|
    ensures Without(cs, [cs[i]]) == cs[..i] + cs[i + 1..]
    decreases |cs|
  {
    var n := |cs| - 1;
    var p := cs[..n];
    if i == n {
      forall k | 0 <= k < |p|
        ensures p[k] !in [cs[i]]
      {
        assert p[k].id != cs[i].id;
      }
      WithoutAbsent(p, [cs[i]]);
      assert Without(cs, [cs[i]]) == Without(p, [cs[i]]);
      assert cs[..i] + cs[i + 1..] == p;
    } else {
      assert DistinctIds(p) by {
        forall a, b | 0 <= a < b < |p|
          ensures p[a].id != p[b].id
        {
          assert p[a] == cs[a] && p[b] == cs[b];
        }
      }
      assert p[i] == cs[i];
      WithoutOne(p, i);
      assert cs[n] !in [cs[i]] by {
        assert cs[i].id != cs[n].id;
      }
      assert Without(cs, [cs[i]]) == Without(p, [cs[i]]) + [cs[n]];
      assert cs[..i] + cs[i + 1..] == p[..i] + p[i + 1..] + [cs[n]];
    }
  }

  /** Dropping one entry keeps the others distinct. */
  lemma RemoveIndexDistinct(cs: seq<PmCable>, i: nat)
    requires DistinctIds(cs) && i < |cs|
    ensures DistinctIds(cs[..i] + cs[i + 1..])
  {
    var r := cs[..i] + cs[i + 1..];
    forall a, b | 0 <= a < b < |r|
      ensures r[a].id != r[b].id
    {
      var fa := if a < i then a else a + 1;
      var fb := if b < i then b else b + 1;
      assert r[a] == cs[fa] && r[b] == cs[fb] && fa < fb;
    }
  }

  /** The cables left untouched by a port are still distinct. */
  lemma {:induction false} UntouchedDistinct(cs: seq<PmCable>, port: int)
    requires DistinctIds(cs)
    ensures DistinctIds(Untouched(cs, port))
    decreases |cs|
  {
    if cs != [] {
      var n := |cs| - 1;
      var p := cs[..n];
      assert DistinctIds(p);
      UntouchedDistinct(p, port);
      var u := Untouched(p, port);
      forall k | 0 <= k < |u|
        ensures u[k].id != cs[n].id
      {
        assert u[k] in p;
      }
    }
  }

  /** Rotating moves entries but keeps them distinct. */
  lemma RotatedDistinct(cs: seq<PmCable>, port: int)
    requires DistinctIds(cs)
    ensures DistinctIds(Rotated(cs, port))
  {
    if FirstTouching(cs, port).Some? {
      var i := FirstTouching(cs, port).value;
      var r := Rotated(cs, port);
      assert r == cs[..i] + cs[i + 1..] + [cs[i]];
      forall a, b | 0 <= a < b < |r|
        ensures r[a].id != r[b].id
      {
        var fa := if a < i then a else if a < |cs| - 1 then a + 1 else i;
        var fb := if b < i then b else if b < |cs| - 1 then b + 1 else i;
        assert r[a] == cs[fa] && r[b] == cs[fb] && fa != fb;
      }
    }
  }

  // ---- The rack ----

  /** The rack's cable list (drawing order), undo history and next palette index. */
  class PmRack {
    var cables: seq<PmCable>
    var history: seq<Action>
    var nextCableColorId: int

    /** The rack holds each cable widget once. */
    ghost predicate Valid()
      reads this
    {
      DistinctIds(cables)
    }

    constructor (cs: seq<PmCable>)
      requires DistinctIds(cs)
      ensures Valid()
      ensures cables == cs && history == [] && nextCableColorId == 0
    {
      cables := cs;
      history := [];
      nextCableColorId := 0;
    }

    /** `DisconnectItem::onAction`: the top cable, if any, is removed with one undo record. */
    method Disconnect(pw: PortWidget)
      requires Valid()
      modifies this
      ensures Valid()
      ensures TopCable(old(cables), pw.id).None? ==> cables == old(cables) && history == old(history)
      ensures TopCable(old(cables), pw.id).Some? ==>
        var i := TopCable(old(cables), pw.id).value;
        var cw := old(cables)[i];
        && cables == Without(old(cables), [cw]) && history == old(history) + [CableRemove(cw)]
        && cables == old(cables)[..i] + old(cables)[i + 1..]
      ensures nextCableColorId == old(nextCableColorId)
    {
      var top := TopCable(cables, pw.id);
      if top.Some? {
        var cw := cables[top.value];
        WithoutOne(cables, top.value);
        RemoveIndexDistinct(cables, top.value);
        history := history + [CableRemove(cw)];
        cables := Without(cables, [cw]);
      }
    }

    /**
     * `DisconnectAllItem::onAction`: every cable on the port is removed and
     * one group named "remove all cables" holding a removal per cable is
     * recorded, even when there was none.
     */
    method DisconnectAll(pw: PortWidget)
      requires Valid()
      modifies this
      ensures Valid()
      ensures cables == Untouched(old(cables), pw.id)
      ensures history == old(history) + [ComplexAction("remove all cables", RemoveRecords(CablesOnPort(old(cables), pw.id)))]
      ensures nextCableColorId == old(nextCableColorId)
    {
      var c := CablesOnPort(cables, pw.id);
      var rest, actions := RemoveEach(cables, c);
      WithoutCablesOnPort(old(cables), old(cables), pw.id);
      UntouchedDistinct(old(cables), pw.id);
      cables := rest;
      history := history + [ComplexAction("remove all cables", actions)];
    }

    /** `RotateItem::onAction`. */
    method Rotate(pw: PortWidget)
      requires Valid()
      modifies this
      ensures Valid()
      ensures cables == Rotated(old(cables), pw.id)
      ensures history == old(history) && nextCableColorId == old(nextCableColorId)
    {
      var i := 0;
      while i < |cables|
        invariant 0 <= i <= |cables|
        invariant forall k :: 0 <= k < i ==> !(Complete(cables[k]) && Touches(cables[k], pw.id))
      {
        if !Complete(cables[i]) {
          i := i + 1;
          continue;
        }
        if Touches(cables[i], pw.id) {
          break;
        }
        i := i + 1;
      }
      RotatedDistinct(cables, pw.id);
      if i < |cables| {
        FirstTouchingAt(cables, pw.id, i);
        cables := cables[..i] + cables[i + 1..] + [cables[i]];
      } else {
        FirstTouchingNone(cables, pw.id);
      }
    }

    /**
     * `NextColorItem::onAction`: the top cable takes the palette entry at
     * the current index, and the index advances modulo the palette size.
     */
    method NextColor(pw: PortWidget, palette: seq<int>)
      requires TopCable(cables, pw.id).Some?
      requires 0 <= nextCableColorId < |palette|
      requires Valid()
      modifies this
      ensures Valid()
      ensures var i := TopCable(old(cables), pw.id).value;
        cables == old(cables)[i := old(cables)[i].(color := palette[old(nextCableColorId)])]
      ensures nextCableColorId == (old(nextCableColorId) + 1) % |palette|
      ensures 0 <= nextCableColorId < |palette|
      ensures history == old(history)
    {
      var top := TopCable(cables, pw.id);
      var cid := nextCableColorId;
      nextCableColorId := nextCableColorId + 1;
      nextCableColorId := nextCableColorId % |palette|;
      cables := cables[top.value := cables[top.value].(color := palette[cid])];
    }
  }

  /** The loop of `DisconnectAllItem::onAction`: each listed cable is recorded and removed in turn. */
  method RemoveEach(cs: seq<PmCable>, c: seq<PmCable>) returns (rest: seq<PmCable>, actions: seq<Action>)
    ensures rest == Without(cs, c) && actions == RemoveRecords(c)
  {
    rest := cs;
    actions := [];
    WithoutNothing(cs);
    var k := 0;
    while k < |c|
      invariant 0 <= k <= |c|
      invariant rest == Without(cs, c[..k])
      invariant actions == RemoveRecords(c[..k])
    {
      WithoutSnoc(cs, c[..k], c[k]);
      assert c[..k + 1] == c[..k] + [c[k]];
      actions := actions + [CableRemove(c[k])];
      rest := Without(rest, [c[k]]);
      k := k + 1;
    }
    assert c[..|c|] == c;
  }

  /** One removal record per cable, in order. */
  function RemoveRecords(cs: seq<PmCable>): (r: seq<Action>)
    ensures |r| == |cs| && forall k :: 0 <= k < |cs| ==> r[k] == CableRemove(cs[k])
  {
    seq(|cs|, k requires 0 <= k < |cs| => CableRemove(cs[k]))
  }

  lemma {:induction false} FirstTouchingAt(cs: seq<PmCable>, port: int, i: nat)
    requires i < |cs| && Complete(cs[i]) && Touches(cs[i], port)
    requires forall k :: 0 <= k < i ==> !(Complete(cs[k]) && Touches(cs[k], port))
    ensures FirstTouching(cs, port) == Some(i)
    decreases i
  {
    if i > 0 {
      FirstTouchingAt(cs[1..], port, i - 1);
    }
  }

  lemma {:induction false} FirstTouchingNone(cs: seq<PmCable>, port: int)
    requires forall k :: 0 <= k < |cs| ==> !(Complete(cs[k]) && Touches(cs[k], port))
    ensures FirstTouching(cs, port) == None
    decreases |cs|
  {
    if cs != [] {
      FirstTouchingNone(cs[1..], port);
    }
  }

  /** The top cable and the rotated cable are the two ends of the same search: after a rotation the rotated cable is on top. */
  lemma RotatedCableIsOnTop(cs: seq<PmCable>, port: int)
    requires FirstTouching(cs, port).Some?
    ensures TopCable(Rotated(cs, port), port) == Some(|cs| - 1)
  {
    var i := FirstTouching(cs, port).value;
    var r := Rotated(cs, port);
    assert r == cs[..i] + cs[i + 1..] + [cs[i]];
    assert |r| == |cs| && r[|cs| - 1] == cs[i];
  }
}
