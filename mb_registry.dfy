/**
 * The module browser's persistent registries (src/mb/Mb.cpp:10-182): the
 * favourite and hidden model sets and the per-model usage statistics, their
 * lenient JSON import and export, and the rule that names an exported
 * settings file.
 */
module MbRegistry {
  import opened Wrappers
  import opened Json
  import opened FixedWidth

  /** A plugin model as the browser sees it: plugin slug, plugin name, brand, model name, model slug, tag ids. */
  datatype Model = Model(pluginSlug: string, pluginName: string, brand: string, name: string, slug: string, tags: seq<int>)

  /**
   * `ModelUsage`: a use count and the time of last use.  The default
   * timestamp, minus the "infinity" of a 64-bit integer type, is 0.
   */
  datatype Usage = Usage(usedCount: int, usedTimestamp: int)

  const NewUsage: Usage := Usage(0, 0)

  /** The installed models as `plugin::getModel` finds them: by plugin slug and model slug. */
  type Catalog = map<(string, string), Model>

  /** The catalogue finds `m` under its own slugs. */
  predicate Resolves(c: Catalog, m: Model) {
    (m.pluginSlug, m.slug) in c && c[(m.pluginSlug, m.slug)] == m
  }

  // ---- Records ----

  function SlugRecord(m: Model): Json {
    JObj(map["plugin" := JStr(m.pluginSlug), "model" := JStr(m.slug)])
  }

  function UsageRecord(m: Model, u: Usage): Json {
    JObj(map["plugin" := JStr(m.pluginSlug), "model" := JStr(m.slug),
             "usedCount" := JInt(u.usedCount), "usedTimestamp" := JInt(u.usedTimestamp)])
  }

  function SlugRecords(ms: seq<Model>): (rs: seq<Json>)
    ensures |rs| == |ms|
  {
    seq(|ms|, i requires 0 <= i < |ms| => SlugRecord(ms[i]))
  }

  function UsageRecords(ms: seq<Model>, usage: map<Model, Usage>): (rs: seq<Json>)
    requires forall i :: 0 <= i < |ms| ==> ms[i] in usage
    ensures |rs| == |ms|
  {
    seq(|ms|, i requires 0 <= i < |ms| && ms[i] in usage => UsageRecord(ms[i], usage[ms[i]]))
  }

  /** `ms` lists each element of `s` exactly once, in some order (the order of `std::set<Model*>` is by address). */
  ghost predicate Lists(ms: seq<Model>, s: set<Model>) {
    && (forall m :: m in ms <==> m in s)
    && (forall i, j :: 0 <= i < j < |ms| ==> ms[i] != ms[j])
  }

  // ---- Import ----

  /** What the import needs: where both slugs are present, both are strings. */
  predicate SlugTyped(r: Json) {
    Get(r, "plugin").Some? && Get(r, "model").Some? ==> IsString(Get(r, "plugin")) && IsString(Get(r, "model"))
  }

  predicate SlugsTyped(rs: seq<Json>) {
    forall i :: 0 <= i < |rs| ==> SlugTyped(rs[i])
  }

  /** The model a record names, or nothing when a slug is missing or the catalogue does not know it. */
  function Resolve(c: Catalog, r: Json): (m: Option<Model>)
    requires SlugTyped(r)
    ensures m.Some? ==> Get(r, "plugin").Some? && Get(r, "model").Some?
  {
    var pluginJ := Get(r, "plugin");
    var modelJ := Get(r, "model");
    if pluginJ.None? || modelJ.None? then None
    else
      var key := (StringValue(pluginJ), StringValue(modelJ));
      if key in c then Some(c[key]) else None
  }

  lemma ResolveSlugRecord(c: Catalog, m: Model)
    requires Resolves(c, m)
    ensures SlugTyped(SlugRecord(m)) && Resolve(c, SlugRecord(m)) == Some(m)
  {
  }

  lemma ResolveUsageRecord(c: Catalog, m: Model, u: Usage)
    requires Resolves(c, m) && InInt32(u.usedCount)
    ensures SlugTyped(UsageRecord(m, u)) && Resolve(c, UsageRecord(m, u)) == Some(m)
    ensures UsageOf(UsageRecord(m, u)) == u
  {
  }

  /** The set a favourites or hidden loop builds: every record that resolves. */
  function ImportSet(c: Catalog, rs: seq<Json>): (s: set<Model>)
    requires SlugsTyped(rs)
    ensures forall m :: m in s <==> exists i :: 0 <= i < |rs| && Resolve(c, rs[i]) == Some(m)
    decreases |rs|
  {
    if rs == [] then {}
    else
      var n := |rs| - 1;
      var init := ImportSet(c, rs[..n]);
      assert forall i :: 0 <= i < n ==> rs[..n][i] == rs[i];
      match Resolve(c, rs[n])
      case None => init
      case Some(m) => init + {m}
  }

  /** The usage a record carries: the count narrowed to a C++ `int`, a missing member reading 0. */
  function UsageOf(r: Json): (u: Usage)
    ensures InInt32(u.usedCount)
  {
    Usage(Int32(IntValue(Get(r, "usedCount"))), IntValue(Get(r, "usedTimestamp")))
  }

  /** The usage map the import loop builds: a later record for the same model replaces an earlier one. */
  function ImportUsage(c: Catalog, rs: seq<Json>): (u: map<Model, Usage>)
    requires SlugsTyped(rs)
    decreases |rs|
  {
    if rs == [] then map[]
    else
      var n := |rs| - 1;
      var init := ImportUsage(c, rs[..n]);
      match Resolve(c, rs[n])
      case None => init
      case Some(m) => init[m := UsageOf(rs[n])]
  }

  /** The last resolving record for a model decides its usage; models no record names get none. */
  lemma {:induction false} ImportUsageLastWins(c: Catalog, rs: seq<Json>, m: Model)
    requires SlugsTyped(rs)
    ensures m in ImportUsage(c, rs) <==> exists i :: 0 <= i < |rs| && Resolve(c, rs[i]) == Some(m)
    ensures forall i ::
      (0 <= i < |rs| && Resolve(c, rs[i]) == Some(m) && (forall j :: i < j < |rs| ==> Resolve(c, rs[j]) != Some(m))) ==>
      (m in ImportUsage(c, rs) && ImportUsage(c, rs)[m] == UsageOf(rs[i]))
    decreases |rs|
  {
    if rs != [] {
      var n := |rs| - 1;
      assert forall i :: 0 <= i < n ==> rs[..n][i] == rs[i];
      ImportUsageLastWins(c, rs[..n], m);
    }
  }

  /** The three registries. */
  datatype BrowserData = BrowserData(favorites: set<Model>, hidden: set<Model>, usage: map<Model, Usage>)

  /** What the import needs of each of the three arrays that is present. */
  predicate WellTypedImport(rootJ: Json) {
    && SlugsTyped(Items(Get(rootJ, "favorites")))
    && SlugsTyped(Items(Get(rootJ, "hidden")))
    && SlugsTyped(Items(Get(rootJ, "usage")))
  }

  /**
   * `moduleBrowserFromJson`: each registry whose key is present is emptied
   * and refilled from its records; one whose key is absent is kept.
   */
  function ImportJson(c: Catalog, d: BrowserData, rootJ: Json): (r: BrowserData)
    requires WellTypedImport(rootJ)
    ensures Get(rootJ, "favorites").None? ==> r.favorites == d.favorites
    ensures Get(rootJ, "hidden").None? ==> r.hidden == d.hidden
    ensures Get(rootJ, "usage").None? ==> r.usage == d.usage
  {
    BrowserData(
      if Get(rootJ, "favorites").Some? then ImportSet(c, Items(Get(rootJ, "favorites"))) else d.favorites,
      if Get(rootJ, "hidden").Some? then ImportSet(c, Items(Get(rootJ, "hidden"))) else d.hidden,
      if Get(rootJ, "usage").Some? then ImportUsage(c, Items(Get(rootJ, "usage"))) else d.usage)
  }

  // ---- Export ----

  /**
   * `moduleBrowserToJson` for given listings of the registries: "favorites"
   * and "hidden" always, "usage" only when asked for.
   */
  function ExportJson(favs: seq<Model>, hid: seq<Model>, used: seq<Model>, usage: map<Model, Usage>, includeUsage: bool): (j: Json)
    requires forall i :: 0 <= i < |used| ==> used[i] in usage
    ensures Get(j, "usage").Some? <==> includeUsage
    ensures Get(j, "favorites") == Some(JArr(SlugRecords(favs)))
  {
    var base := map["favorites" := JArr(SlugRecords(favs)), "hidden" := JArr(SlugRecords(hid))];
    JObj(if includeUsage then base["usage" := JArr(UsageRecords(used, usage))] else base)
  }

  lemma {:induction false} ImportSlugRecords(c: Catalog, ms: seq<Model>)
    requires forall i :: 0 <= i < |ms| ==> Resolves(c, ms[i])
    ensures SlugsTyped(SlugRecords(ms))
    ensures ImportSet(c, SlugRecords(ms)) == set m | m in ms
  {
    var rs := SlugRecords(ms);
    forall i | 0 <= i < |rs| ensures SlugTyped(rs[i]) && Resolve(c, rs[i]) == Some(ms[i]) {
      ResolveSlugRecord(c, ms[i]);
    }
  }

  lemma {:induction false} ImportUsageRecords(c: Catalog, ms: seq<Model>, usage: map<Model, Usage>)
    requires forall i :: 0 <= i < |ms| ==> ms[i] in usage && Resolves(c, ms[i]) && InInt32(usage[ms[i]].usedCount)
    ensures SlugsTyped(UsageRecords(ms, usage))
    ensures ImportUsage(c, UsageRecords(ms, usage)) == map m | m in ms :: usage[m]
    decreases |ms|
  {
    var rs := UsageRecords(ms, usage);
    forall i | 0 <= i < |rs| ensures SlugTyped(rs[i]) && Resolve(c, rs[i]) == Some(ms[i]) && UsageOf(rs[i]) == usage[ms[i]] {
      ResolveUsageRecord(c, ms[i], usage[ms[i]]);
    }
    if ms != [] {
      var n := |ms| - 1;
      ImportUsageRecords(c, ms[..n], usage);
      assert rs[..n] == UsageRecords(ms[..n], usage);
      assert ms == ms[..n] + [ms[n]];
    }
  }

  /** Importing the slug records of a listing of `s` gives back `s`. */
  lemma SetRoundTrip(c: Catalog, ms: seq<Model>, s: set<Model>)
    requires forall m :: m in ms <==> m in s
    requires forall m :: m in s ==> Resolves(c, m)
    ensures SlugsTyped(SlugRecords(ms))
    ensures ImportSet(c, SlugRecords(ms)) == s
  {
    ImportSlugRecords(c, ms);
  }

  /** Importing the usage records of a listing of the usage map's keys gives back the map. */
  lemma UsageRoundTrip(c: Catalog, ms: seq<Model>, usage: map<Model, Usage>)
    requires forall m :: m in ms <==> m in usage
    requires forall m :: m in usage ==> Resolves(c, m) && InInt32(usage[m].usedCount)
    ensures SlugsTyped(UsageRecords(ms, usage))
    ensures ImportUsage(c, UsageRecords(ms, usage)) == usage
  {
    ImportUsageRecords(c, ms, usage);
    var back := map m | m in ms :: usage[m];
    assert back.Keys == usage.Keys;
    assert back == usage;
  }

  /**
   * Round trip: importing a full export restores the favourites, the hidden
   * set and the usage statistics, whatever the registries held before,
   * when every model resolves and every count fits a C++ `int`.
   */
  lemma ExportImportRoundTrip(c: Catalog, d: BrowserData, before: BrowserData, favs: seq<Model>, hid: seq<Model>, used: seq<Model>)
    requires Lists(favs, d.favorites) && Lists(hid, d.hidden) && Lists(used, d.usage.Keys)
    requires forall m :: m in d.favorites || m in d.hidden || m in d.usage ==> Resolves(c, m)
    requires forall m :: m in d.usage ==> InInt32(d.usage[m].usedCount)
    ensures WellTypedImport(ExportJson(favs, hid, used, d.usage, true))
    ensures ImportJson(c, before, ExportJson(favs, hid, used, d.usage, true)) == d
  {
    var j := ExportJson(favs, hid, used, d.usage, true);
    SetRoundTrip(c, favs, d.favorites);
    SetRoundTrip(c, hid, d.hidden);
    UsageRoundTrip(c, used, d.usage);
    assert Items(Get(j, "favorites")) == SlugRecords(favs);
    assert Items(Get(j, "hidden")) == SlugRecords(hid);
    assert Items(Get(j, "usage")) == UsageRecords(used, d.usage);
  }

  // ---- Usage ----

  /**
   * `modelUsageTouch`: the model's entry, created with count 0 if absent,
   * counts one more use and records `now` (the wall clock, a parameter here).
   */
  function Touch(usage: map<Model, Usage>, m: Model, now: int): (r: map<Model, Usage>)
    ensures r.Keys == usage.Keys + {m}
    ensures r[m].usedCount == (if m in usage then usage[m].usedCount else 0) + 1
    ensures r[m].usedTimestamp == now
    ensures forall k :: k in usage && k != m ==> r[k] == usage[k]
  {
    var u := if m in usage then usage[m] else NewUsage;
    usage[m := Usage(u.usedCount + 1, now)]
  }

  /** Touching a model n times from nothing counts n uses. */
  lemma {:induction false} TouchCounts(usage: map<Model, Usage>, m: Model, times: seq<int>)
    requires m !in usage
    ensures var r := TouchAll(usage, m, times);
      (|times| == 0 ==> r == usage) && (|times| > 0 ==> m in r && r[m].usedCount == |times|)
    decreases |times|
  {
    if |times| > 1 {
      TouchCounts(usage, m, times[..|times| - 1]);
    }
  }

  function TouchAll(usage: map<Model, Usage>, m: Model, times: seq<int>): map<Model, Usage>
    decreases |times|
  {
    if times == [] then usage else Touch(TouchAll(usage, m, times[..|times| - 1]), m, times[|times| - 1])
  }

  // ---- The export path ----

  /** The position of the last `c` in `s`. */
  function LastIndexOf(s: string, c: char): (r: Option<nat>)
    ensures r.Some? ==> r.value < |s| && s[r.value] == c && forall j :: r.value < j < |s| ==> s[j] != c
    ensures r.None? ==> forall j :: 0 <= j < |s| ==> s[j] != c
    decreases |s|
  {
    if s == [] then None
    else if s[|s| - 1] == c then Some(|s| - 1)
    else LastIndexOf(s[..|s| - 1], c)
  }

  /** `string::filename`: the text after the last '/'. */
  function Filename(path: string): (r: string)
    ensures forall j :: 0 <= j < |r| ==> r[j] != '/'
    ensures |r| <= |path| && path[|path| - |r|..] == r
    ensures |r| == |path| || path[|path| - |r| - 1] == '/'
  {
    match LastIndexOf(path, '/')
    case None => path
    case Some(i) => path[i + 1..]
  }

  /** `string::filenameExtension`: the text after the last '.', empty when there is none. */
  function Extension(name: string): (r: string)
    ensures (forall j :: 0 <= j < |name| ==> name[j] != '.') ==> r == ""
    ensures forall j :: 0 <= j < |r| ==> r[j] != '.'
    ensures r != "" ==> |r| < |name| && name[|name| - |r|..] == r && name[|name| - |r| - 1] == '.'
    ensures r == "" ==> (forall j :: 0 <= j < |name| ==> name[j] != '.') || name[|name| - 1] == '.'
  {
    match LastIndexOf(name, '.')
    case None => ""
    case Some(i) => name[i + 1..]
  }

  /** The saved file's path: ".json" is appended only when the chosen file name has no extension. */
  function ExportPath(path: string): (r: string)
    ensures Extension(Filename(path)) != "" ==> r == path
    ensures Extension(Filename(path)) == "" ==> r == path + ".json"
  {
    if Extension(Filename(path)) == "" then path + ".json" else path
  }

  lemma {:induction false} LastIndexOfAppend(s: string, t: string, c: char)
    ensures LastIndexOf(s + t, c) ==
      match LastIndexOf(t, c)
      case Some(j) => Some(|s| + j)
      case None => LastIndexOf(s, c)
    decreases |t|
  {
    if t != [] {
      var n := |t| - 1;
      assert (s + t)[..|s + t| - 1] == s + t[..n];
      if t[n] != c {
        LastIndexOfAppend(s, t[..n], c);
      }
    } else {
      assert s + t == s;
    }
  }

  /** Appending ".json" to a path appends it to the file name. */
  lemma FilenameJsonSuffix(path: string)
    ensures Filename(path + ".json") == Filename(path) + ".json"
  {
    LastIndexOfAppend(path, ".json", '/');
    assert LastIndexOf(".json", '/') == None;
  }

  /** A name ending in ".json" has the extension "json". */
  lemma ExtensionJsonSuffix(name: string)
    ensures Extension(name + ".json") == "json"
  {
    LastIndexOfAppend(name, ".json", '.');
    var dot := LastIndexOf(".json", '.');
    assert ".json"[0] == '.';
    assert dot == Some(0);
    assert (name + ".json")[|name| + 1..] == "json";
  }

  /** The rule is idempotent: a path it produced is left alone. */
  lemma ExportPathIdempotent(path: string)
    ensures ExportPath(ExportPath(path)) == ExportPath(path)
    ensures Extension(Filename(ExportPath(path))) != ""
  {
    FilenameJsonSuffix(path);
    ExtensionJsonSuffix(Filename(path));
  }

  // ---- The registries as the program keeps them ----

  /** `favoriteModels`, `hiddenModels` and `modelUsage`. */
  class Registries {
    var favoriteModels: set<Model>
    var hiddenModels: set<Model>
    var modelUsage: map<Model, Usage>

    ghost function Data(): BrowserData
      reads this
    {
      BrowserData(favoriteModels, hiddenModels, modelUsage)
    }

    constructor ()
      ensures Data() == BrowserData({}, {}, map[])
    {
      favoriteModels := {};
      hiddenModels := {};
      modelUsage := map[];
    }

    /** `moduleBrowserToJson`: each registry listed in some order, usage only on request. */
    method ToJson(includeUsageData: bool) returns (rootJ: Json, ghost favs: seq<Model>, ghost hid: seq<Model>, ghost used: seq<Model>)
      ensures Lists(favs, favoriteModels) && Lists(hid, hiddenModels) && Lists(used, modelUsage.Keys)
      ensures rootJ == ExportJson(favs, hid, used, modelUsage, includeUsageData)
      ensures Get(rootJ, "usage").Some? <==> includeUsageData
      ensures forall m :: m in favoriteModels ==> SlugRecord(m) in Items(Get(rootJ, "favorites"))
      ensures forall m :: m in hiddenModels ==> SlugRecord(m) in Items(Get(rootJ, "hidden"))
    {
      var favoritesJ;
      favoritesJ, favs := ListSlugs(favoriteModels);
      var hiddenJ;
      hiddenJ, hid := ListSlugs(hiddenModels);
      var base := map["favorites" := JArr(favoritesJ), "hidden" := JArr(hiddenJ)];
      var usageJ;
      usageJ, used := ListUsage(modelUsage);
      if includeUsageData {
        rootJ := JObj(base["usage" := JArr(usageJ)]);
      } else {
        rootJ := JObj(base);
      }
    }

    /** `exportSettings` writes the export without usage. */
    method ExportSettings() returns (rootJ: Json)
      ensures Get(rootJ, "usage").None?
      ensures Get(rootJ, "favorites").Some? && Get(rootJ, "hidden").Some?
    {
      ghost var favs, hid, used;
      rootJ, favs, hid, used := ToJson(false);
    }

    /** `moduleBrowserFromJson`. */
    method FromJson(c: Catalog, rootJ: Json)
      requires WellTypedImport(rootJ)
      modifies this
      ensures Data() == ImportJson(c, old(Data()), rootJ)
    {
      var favoritesJ := Get(rootJ, "favorites");
      if favoritesJ.Some? {
        favoriteModels := CollectModels(c, Items(favoritesJ));
      }
      var hiddenJ := Get(rootJ, "hidden");
      if hiddenJ.Some? {
        hiddenModels := CollectModels(c, Items(hiddenJ));
      }
      var usageJ := Get(rootJ, "usage");
      if usageJ.Some? {
        modelUsage := CollectUsage(c, Items(usageJ));
      }
    }

    /** `modelUsageTouch`, with the clock reading passed in. */
    method UsageTouch(m: Model, now: int)
      modifies this
      ensures modelUsage == Touch(old(modelUsage), m, now)
      ensures favoriteModels == old(favoriteModels) && hiddenModels == old(hiddenModels)
    {
      var u := if m in modelUsage then modelUsage[m] else NewUsage;
      modelUsage := modelUsage[m := Usage(u.usedCount + 1, now)];
    }

    /** `modelUsageReset`. */
    method UsageReset()
      modifies this
      ensures modelUsage == map[]
      ensures favoriteModels == old(favoriteModels) && hiddenModels == old(hiddenModels)
    {
      modelUsage := map[];
    }
  }

  /** The favourites or hidden loop of the import: the set is rebuilt from the resolving records. */
  method CollectModels(c: Catalog, rs: seq<Json>) returns (s: set<Model>)
    requires SlugsTyped(rs)
    ensures s == ImportSet(c, rs)
  {
    s := {};
    var i := 0;
    while i < |rs|
      invariant 0 <= i <= |rs|
      invariant SlugsTyped(rs[..i])
      invariant s == ImportSet(c, rs[..i])
    {
      assert rs[..i + 1][..i] == rs[..i] && rs[..i + 1][i] == rs[i];
      var m := Resolve(c, rs[i]);
      if m.Some? {
        s := s + {m.value};
      }
      i := i + 1;
    }
    assert rs[..|rs|] == rs;
  }

  /** The usage loop of the import: the map is rebuilt, a later record for a model replacing an earlier one. */
  method CollectUsage(c: Catalog, rs: seq<Json>) returns (u: map<Model, Usage>)
    requires SlugsTyped(rs)
    ensures u == ImportUsage(c, rs)
  {
    u := map[];
    var i := 0;
    while i < |rs|
      invariant 0 <= i <= |rs|
      invariant SlugsTyped(rs[..i])
      invariant u == ImportUsage(c, rs[..i])
    {
      assert rs[..i + 1][..i] == rs[..i] && rs[..i + 1][i] == rs[i];
      var m := Resolve(c, rs[i]);
      if m.Some? {
        u := u[m.value := UsageOf(rs[i])];
      }
      i := i + 1;
    }
    assert rs[..|rs|] == rs;
  }

  /** The export loop over a model set: one slug record per model, in the order it visits them. */
  method ListSlugs(s: set<Model>) returns (rs: seq<Json>, ghost ms: seq<Model>)
    ensures Lists(ms, s) && rs == SlugRecords(ms)
    ensures |rs| == |s|
    ensures forall m :: m in s ==> SlugRecord(m) in rs
  {
    var rest := s;
    rs := [];
    ms := [];
    while rest != {}
      invariant rest <= s
      invariant forall m :: m in ms <==> m in s && m !in rest
      invariant forall i, j :: 0 <= i < j < |ms| ==> ms[i] != ms[j]
      invariant |ms| + |rest| == |s|
      invariant rs == SlugRecords(ms)
      decreases |rest|
    {
      var m :| m in rest;
      rs := rs + [SlugRecord(m)];
      ms := ms + [m];
      rest := rest - {m};
    }
    forall m | m in s
      ensures SlugRecord(m) in rs
    {
      var i :| 0 <= i < |ms| && ms[i] == m;
      assert rs[i] == SlugRecord(m);
    }
  }

  /** The export loop over the usage map. */
  method ListUsage(usage: map<Model, Usage>) returns (rs: seq<Json>, ghost ms: seq<Model>)
    ensures Lists(ms, usage.Keys) && rs == UsageRecords(ms, usage)
    ensures |rs| == |usage|
    ensures forall m :: m in usage ==> UsageRecord(m, usage[m]) in rs
  {
    var rest := usage.Keys;
    rs := [];
    ms := [];
    while rest != {}
      invariant rest <= usage.Keys
      invariant forall m :: m in ms <==> m in usage && m !in rest
      invariant forall i, j :: 0 <= i < j < |ms| ==> ms[i] != ms[j]
      invariant |ms| + |rest| == |usage.Keys|
      invariant rs == UsageRecords(ms, usage)
      decreases |rest|
    {
      var m :| m in rest;
      rs := rs + [UsageRecord(m, usage[m])];
      ms := ms + [m];
      rest := rest - {m};
    }
    forall m | m in usage
      ensures UsageRecord(m, usage[m]) in rs
    {
      var i :| 0 <= i < |ms| && ms[i] == m;
      assert rs[i] == UsageRecord(m, usage[m]);
    }
  }
}
