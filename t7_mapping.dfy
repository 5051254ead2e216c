/**
 * The mapping table of `MidiCcTwoMessage` (src/T7Ctrl.cpp): entries keyed
 * by (MIDI channel, controller number), channel -1 being the wildcard, with
 * its lenient JSON import and its export in the key order of `std::map`.
 */
module T7Mapping {
  import opened Wrappers
  import opened Json
  import opened FixedWidth
  import opened T7Types

  /**
   * `MidiPortDescriptor`: the target port (port type 0 = output, 1 = input),
   * the trigger threshold, the cable colour and a free comment.
   */
  datatype MidiPortDescriptor = MidiPortDescriptor(
    moduleId: int,
    portType: int,
    portId: int,
    midiCcValue: int,
    cableColor: string,
    comment: string)
  {
    /** The `PortDescriptor` part, as copied into an event. */
    function Port(): (pd: PortDescriptor)
      ensures pd.moduleId == moduleId && pd.portType == portType && pd.portId == portId
    {
      PortDescriptor(moduleId, portType, portId)
    }
  }

  /** (channel, controller); the channel is stored counting from 0. */
  type Key = (int, int)

  type PortMap = map<Key, MidiPortDescriptor>

  /** The wildcard channel. */
  const AnyChannel: int := -1

  /**
   * The lookup both drivers make: the exact channel first, then the
   * wildcard channel, else nothing.
   */
  function Lookup(m: PortMap, ch: int, cc: int): (r: Option<MidiPortDescriptor>)
    ensures (ch, cc) in m ==> r == Some(m[(ch, cc)])
    ensures (ch, cc) !in m && (AnyChannel, cc) in m ==> r == Some(m[(AnyChannel, cc)])
    ensures r.None? <==> (ch, cc) !in m && (AnyChannel, cc) !in m
  {
    if (ch, cc) in m then Some(m[(ch, cc)])
    else if (AnyChannel, cc) in m then Some(m[(AnyChannel, cc)])
    else None
  }

  // ---- Import ----

  /** True when a record carries every field the import needs and names type "cable". */
  predicate Admitted(eventJ: Json)
    requires IsString(Get(eventJ, "type"))
  {
    var midiJ := Get(eventJ, "midi");
    var targetJ := Get(eventJ, "target");
    && StringValue(Get(eventJ, "type")) == "cable"
    && midiJ.Some? && targetJ.Some?
    && GetIn(midiJ, "channel").Some? && GetIn(midiJ, "cc").Some?
    && GetIn(targetJ, "moduleId").Some? && GetIn(targetJ, "portType").Some? && GetIn(targetJ, "portId").Some?
  }

  /**
   * What the import needs to avoid building a `std::string` from NULL: a
   * string "type" on every record, and on an admitted record a string
   * "portType" and, where present, a string "cableColor" and "comment".
   */
  predicate WellTypedRecord(eventJ: Json) {
    && IsString(Get(eventJ, "type"))
    && (Admitted(eventJ) ==>
          && IsString(GetIn(Get(eventJ, "target"), "portType"))
          && (Get(eventJ, "cableColor").Some? ==> IsString(Get(eventJ, "cableColor")))
          && (Get(eventJ, "comment").Some? ==> IsString(Get(eventJ, "comment"))))
  }

  predicate WellTypedRecords(rs: seq<Json>) {
    forall i :: 0 <= i < |rs| ==> WellTypedRecord(rs[i])
  }

  /** An optional string member, "" when missing. */
  function OptionalString(j: Option<Json>): string
    requires j.Some? ==> IsString(j)
  {
    if j.Some? then StringValue(j) else ""
  }

  /**
   * One pass of the import loop (src/T7Ctrl.cpp:145-176): the entry a record
   * stands for, or nothing when the record is skipped.  The wire channel
   * counts from 1 and is stored counting from 0; any port type other than
   * "output" means input; a missing "ccValue" reads as 0.
   */
  function DecodeRecord(eventJ: Json): (r: Option<(Key, MidiPortDescriptor)>)
    requires WellTypedRecord(eventJ)
    ensures r.Some? <==> Admitted(eventJ)
    ensures r.Some? ==> r.value.1.portType == 0 || r.value.1.portType == 1
  {
    if !Admitted(eventJ) then None
    else
      var midiJ := Get(eventJ, "midi");
      var targetJ := Get(eventJ, "target");
      var ch := Int32(IntValue(GetIn(midiJ, "channel")) - 1);
      var cc := Int32(IntValue(GetIn(midiJ, "cc")));
      var pd := MidiPortDescriptor(
        IntValue(GetIn(targetJ, "moduleId")),
        if StringValue(GetIn(targetJ, "portType")) == "output" then 0 else 1,
        Int32(IntValue(GetIn(targetJ, "portId"))),
        Int32(IntValue(GetIn(midiJ, "ccValue"))),
        OptionalString(Get(eventJ, "cableColor")),
        OptionalString(Get(eventJ, "comment")));
      Some(((ch, cc), pd))
  }

  /** Insert a decoded record; a later record for the same key replaces the earlier one. */
  function InsertDecoded(m: PortMap, d: Option<(Key, MidiPortDescriptor)>): PortMap {
    match d
    case None => m
    case Some(kv) => m[kv.0 := kv.1]
  }

  /** What each record decodes to, in record order. */
  function DecodeAll(rs: seq<Json>): (ds: seq<Option<(Key, MidiPortDescriptor)>>)
    requires WellTypedRecords(rs)
    ensures |ds| == |rs|
  {
    seq(|rs|, i requires 0 <= i < |rs| && WellTypedRecords(rs) => DecodeRecord(rs[i]))
  }

  /** The table built from decoded records, starting empty, in order. */
  function Build(ds: seq<Option<(Key, MidiPortDescriptor)>>): PortMap
    decreases |ds|
  {
    if ds == [] then map[]
    else InsertDecoded(Build(ds[..|ds| - 1]), ds[|ds| - 1])
  }

  /** The table the import loop builds from a sequence of records. */
  function Import(rs: seq<Json>): PortMap
    requires WellTypedRecords(rs)
  {
    Build(DecodeAll(rs))
  }

  /** The records of a driver object: its "events" array, if any. */
  function EventRecords(driverJ: Json): seq<Json> {
    Items(Get(driverJ, "events"))
  }

  /** `fromJson`: the table is emptied, then filled from the "events" records. */
  function TableFromJson(driverJ: Json): PortMap
    requires WellTypedRecords(EventRecords(driverJ))
  {
    Import(EventRecords(driverJ))
  }

  predicate DecodesTo(d: Option<(Key, MidiPortDescriptor)>, k: Key) {
    d.Some? && d.value.0 == k
  }

  /** A key is in the built table exactly when some record decodes to it. */
  lemma {:induction false} BuildKeys(ds: seq<Option<(Key, MidiPortDescriptor)>>, k: Key)
    ensures k in Build(ds) <==> exists i :: 0 <= i < |ds| && DecodesTo(ds[i], k)
    decreases |ds|
  {
    if ds != [] {
      var n := |ds| - 1;
      var init := ds[..n];
      BuildKeys(init, k);
      if k in Build(init) {
        var i :| 0 <= i < |init| && DecodesTo(init[i], k);
        assert ds[i] == init[i];
      }
      if exists i :: 0 <= i < |ds| && DecodesTo(ds[i], k) {
        var i :| 0 <= i < |ds| && DecodesTo(ds[i], k);
        if i < n {
          assert init[i] == ds[i];
        }
      }
    }
  }

  /** The last record for a key decides its entry. */
  lemma {:induction false} BuildLastWins(ds: seq<Option<(Key, MidiPortDescriptor)>>, i: nat)
    requires i < |ds| && ds[i].Some?
    requires forall j :: i < j < |ds| ==> !DecodesTo(ds[j], ds[i].value.0)
    ensures ds[i].value.0 in Build(ds) && Build(ds)[ds[i].value.0] == ds[i].value.1
    decreases |ds|
  {
    var n := |ds| - 1;
    var init := ds[..n];
    if i < n {
      assert init[i] == ds[i];
      forall j | i < j < |init| ensures !DecodesTo(init[j], init[i].value.0) {
        assert init[j] == ds[j];
      }
      BuildLastWins(init, i);
    }
  }

  /** One more record extends the import by that record's entry, as the loop does. */
  lemma ImportSnoc(rs: seq<Json>, i: nat)
    requires WellTypedRecords(rs) && i < |rs|
    ensures WellTypedRecords(rs[..i]) && WellTypedRecords(rs[..i + 1])
    ensures Import(rs[..i + 1]) == InsertDecoded(Import(rs[..i]), DecodeRecord(rs[i]))
  {
    var a := rs[..i];
    var b := rs[..i + 1];
    assert forall j :: 0 <= j < |a| ==> a[j] == rs[j];
    assert forall j :: 0 <= j < |b| ==> b[j] == rs[j];
    assert DecodeAll(b)[..i] == DecodeAll(a);
  }

  /** Import keeps exactly the keys some admitted record names. */
  lemma ImportKeys(rs: seq<Json>, k: Key)
    requires WellTypedRecords(rs)
    ensures k in Import(rs) <==>
      exists i :: 0 <= i < |rs| && DecodesTo(DecodeRecord(rs[i]), k)
  {
    var ds := DecodeAll(rs);
    BuildKeys(ds, k);
    if k in Import(rs) {
      var i :| 0 <= i < |ds| && DecodesTo(ds[i], k);
      assert DecodesTo(DecodeRecord(rs[i]), k);
    }
    if exists i :: 0 <= i < |rs| && DecodesTo(DecodeRecord(rs[i]), k) {
      var i :| 0 <= i < |rs| && DecodesTo(DecodeRecord(rs[i]), k);
      assert DecodesTo(ds[i], k);
    }
  }

  /** For each key the import keeps the last admitted record naming it. */
  lemma ImportLastWins(rs: seq<Json>, i: nat)
    requires WellTypedRecords(rs) && i < |rs|
    requires DecodeRecord(rs[i]).Some?
    requires forall j :: i < j < |rs| ==> !DecodesTo(DecodeRecord(rs[j]), DecodeRecord(rs[i]).value.0)
    ensures var kv := DecodeRecord(rs[i]).value; kv.0 in Import(rs) && Import(rs)[kv.0] == kv.1
  {
    var ds := DecodeAll(rs);
    forall j | i < j < |ds| ensures !DecodesTo(ds[j], ds[i].value.0) {
      assert ds[j] == DecodeRecord(rs[j]);
    }
    BuildLastWins(ds, i);
  }

  // ---- Export ----

  /**
   * The record `toJson` writes for one entry (src/T7Ctrl.cpp:116-133): the
   * channel counting from 1, "output" or "input", a "cableColor" only for an
   * output entry, and the comment.
   */
  function EncodeRecord(k: Key, pd: MidiPortDescriptor): Json {
    var midiJ := JObj(map["channel" := JInt(k.0 + 1), "cc" := JInt(k.1), "ccValue" := JInt(pd.midiCcValue)]);
    var targetJ := JObj(map[
      "moduleId" := JInt(pd.moduleId),
      "portType" := JStr(if pd.portType == 0 then "output" else "input"),
      "portId" := JInt(pd.portId)]);
    var base := map["type" := JStr("cable"), "midi" := midiJ, "target" := targetJ, "comment" := JStr(pd.comment)];
    JObj(if pd.portType == 0 then base["cableColor" := JStr(pd.cableColor)] else base)
  }

  /**
   * Entries that survive export and import unchanged: integers that fit a
   * C++ `int`, a port type of 0 or 1, and no colour on an input entry,
   * whose colour is not exported.
   */
  predicate ExportableEntry(k: Key, pd: MidiPortDescriptor) {
    && InInt32(k.0) && InInt32(k.1) && InInt32(pd.portId) && InInt32(pd.midiCcValue)
    && (pd.portType == 0 || pd.portType == 1)
    && (pd.portType == 1 ==> pd.cableColor == "")
  }

  predicate ExportableTable(m: PortMap) {
    forall k :: k in m ==> ExportableEntry(k, m[k])
  }

  /** Every entry the import builds fits the C++ `int` fields and has a port type of 0 or 1. */
  lemma DecodedEntryFits(eventJ: Json)
    requires WellTypedRecord(eventJ) && DecodeRecord(eventJ).Some?
    ensures var kv := DecodeRecord(eventJ).value;
      InInt32(kv.0.0) && InInt32(kv.0.1) && InInt32(kv.1.portId) && InInt32(kv.1.midiCcValue)
  {
  }

  /** One record round-trips: importing what export writes gives the entry back. */
  lemma DecodeEncode(k: Key, pd: MidiPortDescriptor)
    requires ExportableEntry(k, pd)
    ensures WellTypedRecord(EncodeRecord(k, pd))
    ensures DecodeRecord(EncodeRecord(k, pd)) == Some((k, pd))
  {
    var j := EncodeRecord(k, pd);
    assert Get(j, "type") == Some(JStr("cable"));
    assert Get(j, "comment") == Some(JStr(pd.comment));
    if pd.portType == 0 {
      assert Get(j, "cableColor") == Some(JStr(pd.cableColor));
      assert StringValue(GetIn(Get(j, "target"), "portType")) == "output";
    } else {
      assert Get(j, "cableColor") == None;
      assert StringValue(GetIn(Get(j, "target"), "portType")) == "input";
    }
    assert Admitted(j);
  }

  /** The records of the given keys, in that order. */
  function EncodeAll(ks: seq<Key>, m: PortMap): (rs: seq<Json>)
    requires forall i :: 0 <= i < |ks| ==> ks[i] in m
    ensures |rs| == |ks|
  {
    seq(|ks|, i requires 0 <= i < |ks| && ks[i] in m => EncodeRecord(ks[i], m[ks[i]]))
  }

  /** The entries of the given keys, each as its record decodes. */
  function Entries(ks: seq<Key>, m: PortMap): (ds: seq<Option<(Key, MidiPortDescriptor)>>)
    requires forall i :: 0 <= i < |ks| ==> ks[i] in m
    ensures |ds| == |ks|
  {
    seq(|ks|, i requires 0 <= i < |ks| && ks[i] in m => Some((ks[i], m[ks[i]])))
  }

  lemma {:induction false} BuildEntries(ks: seq<Key>, m: PortMap)
    requires forall i :: 0 <= i < |ks| ==> ks[i] in m
    ensures Build(Entries(ks, m)) == map k | k in ks :: m[k]
    decreases |ks|
  {
    if ks != [] {
      var n := |ks| - 1;
      var init := ks[..n];
      BuildEntries(init, m);
      assert Entries(ks, m)[..n] == Entries(init, m);
      assert ks == init + [ks[n]];
    }
  }

  /**
   * Importing the records of any keys of a table gives back the table
   * restricted to those keys, whatever their order.
   */
  lemma ImportEncodeAll(ks: seq<Key>, m: PortMap)
    requires forall i :: 0 <= i < |ks| ==> ks[i] in m
    requires ExportableTable(m)
    ensures WellTypedRecords(EncodeAll(ks, m))
    ensures Import(EncodeAll(ks, m)) == map k | k in ks :: m[k]
  {
    var rs := EncodeAll(ks, m);
    forall i | 0 <= i < |rs| ensures WellTypedRecord(rs[i]) && DecodeRecord(rs[i]) == Some((ks[i], m[ks[i]])) {
      DecodeEncode(ks[i], m[ks[i]]);
    }
    assert DecodeAll(rs) == Entries(ks, m);
    BuildEntries(ks, m);
  }

  // ---- The order of export ----

  /** The order of `std::tuple<int, int>`: by channel, then by controller. */
  predicate KeyLess(a: Key, b: Key) {
    a.0 < b.0 || (a.0 == b.0 && a.1 < b.1)
  }

  predicate IsMinKey(k: Key, ks: set<Key>) {
    k in ks && forall k' :: k' in ks ==> k == k' || KeyLess(k, k')
  }

  predicate StrictlySorted(ks: seq<Key>) {
    forall i, j :: 0 <= i < j < |ks| ==> KeyLess(ks[i], ks[j])
  }

  lemma {:induction false} MinKeyExists(ks: set<Key>)
    requires ks != {}
    ensures exists k :: IsMinKey(k, ks)
    decreases |ks|
  {
    var x :| x in ks;
    if ks == {x} {
      assert IsMinKey(x, ks);
    } else {
      MinKeyExists(ks - {x});
      var m :| IsMinKey(m, ks - {x});
      if KeyLess(x, m) {
        forall k' | k' in ks ensures x == k' || KeyLess(x, k') {
          if k' != x {
            assert m == k' || KeyLess(m, k');
          }
        }
        assert IsMinKey(x, ks);
      } else {
        assert KeyLess(m, x);
        assert IsMinKey(m, ks);
      }
    }
  }

  /** The keys of a table in the order a `std::map` iterates them. */
  ghost function SortedKeys(ks: set<Key>): (r: seq<Key>)
    ensures StrictlySorted(r)
    ensures forall k :: k in r <==> k in ks
    decreases |ks|
  {
    if ks == {} then []
    else
      MinKeyExists(ks);
      var k :| IsMinKey(k, ks);
      [k] + SortedKeys(ks - {k})
  }

  /** Two strictly sorted sequences of the same keys are equal. */
  lemma {:induction false} SortedUnique(a: seq<Key>, b: seq<Key>)
    requires StrictlySorted(a) && StrictlySorted(b)
    requires forall k :: k in a <==> k in b
    ensures a == b
    decreases |a|
  {
    assert a != [] ==> a[0] in b;
    assert b != [] ==> b[0] in a;
    if a != [] && b != [] {
      assert b[0] in a;
      assert a[0] in b;
      assert a[0] == b[0] by {
        var i :| 0 <= i < |a| && a[i] == b[0];
        var j :| 0 <= j < |b| && b[j] == a[0];
        assert i == 0 || KeyLess(a[0], b[0]);
        assert j == 0 || KeyLess(b[0], a[0]);
      }
      forall k ensures k in a[1..] <==> k in b[1..] {
        if k in a[1..] {
          var i :| 1 <= i < |a| && a[i] == k;
          assert KeyLess(a[0], k);
          assert k in a;
          var j :| 0 <= j < |b| && b[j] == k;
          assert j != 0;
          assert b[1..][j - 1] == k;
        }
        if k in b[1..] {
          var j :| 1 <= j < |b| && b[j] == k;
          assert KeyLess(b[0], k);
          assert k in b;
          var i :| 0 <= i < |a| && a[i] == k;
          assert i != 0;
          assert a[1..][i - 1] == k;
        }
      }
      SortedUnique(a[1..], b[1..]);
    }
  }

  /** `toJson`: the "events" array, one record per entry in key order. */
  ghost function TableToJson(m: PortMap): Json {
    var ks := SortedKeys(m.Keys);
    JArr(EncodeAll(ks, m))
  }

  /** Appending the least remaining key keeps the written keys sorted and below every key still to come. */
  lemma SortedStep(done: seq<Key>, remaining: set<Key>, k: Key)
    requires StrictlySorted(done)
    requires forall i, k' :: 0 <= i < |done| && k' in remaining ==> KeyLess(done[i], k')
    requires IsMinKey(k, remaining)
    ensures StrictlySorted(done + [k])
    ensures forall i, k' :: 0 <= i < |done| + 1 && k' in remaining - {k} ==> KeyLess((done + [k])[i], k')
  {
  }

  /** The loop of `toJson`: repeatedly take the least key not yet written and append its record. */
  method EncodeTable(m: PortMap) returns (eventsJ: Json)
    ensures eventsJ == TableToJson(m)
  {
    var remaining := m.Keys;
    var out: seq<Json> := [];
    ghost var done: seq<Key> := [];
    while remaining != {}
      invariant remaining <= m.Keys
      invariant forall k :: k in done <==> k in m && k !in remaining
      invariant StrictlySorted(done)
      invariant forall i, k :: 0 <= i < |done| && k in remaining ==> KeyLess(done[i], k)
      invariant |out| == |done|
      invariant forall i :: 0 <= i < |done| ==> done[i] in m && out[i] == EncodeRecord(done[i], m[done[i]])
      decreases |remaining|
    {
      MinKeyExists(remaining);
      var k :| IsMinKey(k, remaining);
      SortedStep(done, remaining, k);
      out := out + [EncodeRecord(k, m[k])];
      done := done + [k];
      remaining := remaining - {k};
    }
    SortedUnique(done, SortedKeys(m.Keys));
    assert out == EncodeAll(done, m);
    eventsJ := JArr(out);
  }

  /**
   * Round trip of the table: importing what export writes gives back the
   * same table, for every table whose input entries carry no colour.
   */
  lemma TableRoundTrip(m: PortMap)
    requires ExportableTable(m)
    ensures WellTypedRecords(Items(Some(TableToJson(m))))
    ensures Import(Items(Some(TableToJson(m)))) == m
  {
    var ks := SortedKeys(m.Keys);
    ImportEncodeAll(ks, m);
    assert (map k | k in ks :: m[k]) == m;
  }
}
