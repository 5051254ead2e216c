/**
 * The plugin-wide singleton registry (src/plugin.cpp:26-44): a map from a
 * name to the one module widget that holds it.  Widgets are compared by
 * identity, as the source compares widget addresses.
 */
module Plugin {

  /** `registerSingleton` on a map: the first claimant of a name keeps it. */
  function Register<W(==)>(m: map<string, W>, name: string, w: W): (r: (bool, map<string, W>))
    ensures r.0 <==> name !in m
    ensures r.0 ==> r.1 == m[name := w]
    ensures !r.0 ==> r.1 == m
    ensures name in r.1
    ensures forall n :: n != name ==> (n in r.1 <==> n in m) && (n in m ==> r.1[n] == m[n])
  {
    if name !in m then (true, m[name := w]) else (false, m)
  }

  /** `unregisterSingleton` on a map: only the widget holding the name can release it. */
  function Unregister<W(==)>(m: map<string, W>, name: string, w: W): (r: (bool, map<string, W>))
    ensures r.0 <==> name in m && m[name] == w
    ensures r.0 ==> r.1 == m - {name}
    ensures !r.0 ==> r.1 == m
    ensures forall n :: n != name ==> (n in r.1 <==> n in m) && (n in m ==> r.1[n] == m[n])
  {
    if name in m && m[name] == w then (true, m - {name}) else (false, m)
  }

  /** Registering a free name and then unregistering it with the same widget restores the map. */
  lemma RegisterThenUnregister<W>(m: map<string, W>, name: string, w: W)
    requires name !in m
    ensures Unregister(Register(m, name, w).1, name, w) == (true, m)
  {
    assert m[name := w] - {name} == m;
  }

  /** A second widget cannot take or release a name the first one holds. */
  lemma OwnerIsExclusive<W>(m: map<string, W>, name: string, owner: W, other: W)
    requires name !in m && owner != other
    ensures var m1 := Register(m, name, owner).1;
      && Register(m1, name, other) == (false, m1)
      && Unregister(m1, name, other) == (false, m1)
      && m1[name] == owner
  {
  }

  /** The registry; `singletons` is the global map of the source. */
  class Singletons<W(==)> {
    var singletons: map<string, W>

    constructor ()
      ensures singletons == map[]
    {
      singletons := map[];
    }

    method RegisterSingleton(name: string, w: W) returns (ok: bool)
      modifies this
      ensures (ok, singletons) == Register(old(singletons), name, w)
    {
      if name !in singletons {
        singletons := singletons[name := w];
        return true;
      }
      return false;
    }

    method UnregisterSingleton(name: string, w: W) returns (ok: bool)
      modifies this
      ensures (ok, singletons) == Unregister(old(singletons), name, w)
    {
      if name in singletons && singletons[name] == w {
        singletons := singletons - {name};
        return true;
      }
      return false;
    }
  }
}
