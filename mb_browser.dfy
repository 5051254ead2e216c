/**
 * The module browser's search, filters and list selection (src/Mb.cpp): the
 * v06 browser with its author and tag filters, favourites and selectable
 * result list, and the v1 browser's visibility test and brand and tag
 * filter toggles.
 */
module MbBrowser {
  import opened Wrappers
  import opened Json
  import opened MbRegistry

  // ---- Case-insensitive search ----

  /** `tolower` in the C locale: only 'A'..'Z' change. */
  function LowerChar(c: char): (r: char)
    ensures 'A' <= c <= 'Z' ==> r as int == c as int + 32
    ensures !('A' <= c <= 'Z') ==> r == c
  {
    if 'A' <= c <= 'Z' then (c as int + 32) as char else c
  }

  /** `string::lowercase`. */
  function Lower(s: string): (r: string)
    ensures |r| == |s| && forall i :: 0 <= i < |s| ==> r[i] == LowerChar(s[i])
  {
    seq(|s|, i requires 0 <= i < |s| => LowerChar(s[i]))
  }

  lemma LowerAppend(a: string, b: string)
    ensures Lower(a + b) == Lower(a) + Lower(b)
  {
  }

  lemma LowerIdempotent(s: string)
    ensures Lower(Lower(s)) == Lower(s)
  {
  }

  /** `t` occurs in `s` starting at index `i`. */
  predicate OccursAt(t: string, s: string, i: int) {
    0 <= i <= |s| - |t| && s[i..i + |t|] == t
  }

  /** `t` occurs in `s` as a contiguous piece: the reference definition of a substring search. */
  ghost predicate Occurs(t: string, s: string) {
    exists i :: OccursAt(t, s, i)
  }

  /** `std::string::find` from position `from`: the first occurrence at or after it. */
  function FindFrom(s: string, t: string, from: nat): (r: Option<nat>)
    ensures r.Some? ==> from <= r.value && OccursAt(t, s, r.value)
    ensures r.Some? ==> forall j :: from <= j < r.value ==> !OccursAt(t, s, j)
    ensures r.None? ==> forall j :: from <= j ==> !OccursAt(t, s, j)
    decreases |s| - from
  {
    if from + |t| > |s| then None
    else if s[from..from + |t|] == t then Some(from)
    else FindFrom(s, t, from + 1)
  }

  /** `v06::isMatch`: `search` occurs in `s`, ignoring the case of ASCII letters. */
  function IsMatch(s: string, search: string): (r: bool)
    ensures r <==> Occurs(Lower(search), Lower(s))
  {
    var found := FindFrom(Lower(s), Lower(search), 0);
    assert found.None? ==> !Occurs(Lower(search), Lower(s));
    found.Some?
  }

  /** Every string contains the empty search, and case never matters. */
  lemma IsMatchProperties(s: string, search: string)
    ensures IsMatch(s, "")
    ensures IsMatch(Lower(s), search) == IsMatch(s, search)
    ensures IsMatch(s, Lower(search)) == IsMatch(s, search)
  {
    assert OccursAt(Lower(""), Lower(s), 0);
    LowerIdempotent(s);
    LowerIdempotent(search);
  }

  /** A search found in a text is still found after text is added in front of it. */
  lemma PrefixMatch(a: string, b: string, search: string)
    requires IsMatch(b, search)
    ensures IsMatch(a + b, search)
  {
    var t := Lower(search);
    var i :| OccursAt(t, Lower(b), i);
    LowerAppend(a, b);
    assert Lower(a + b)[|a| + i..|a| + i + |t|] == Lower(b)[i..i + |t|];
    assert OccursAt(t, Lower(a + b), |a| + i);
  }

  /** A search found in a text is still found after text is added behind it. */
  lemma SuffixMatch(a: string, b: string, search: string)
    requires IsMatch(a, search)
    ensures IsMatch(a + b, search)
  {
    var t := Lower(search);
    var i :| OccursAt(t, Lower(a), i);
    LowerAppend(a, b);
    assert Lower(a + b)[i..i + |t|] == Lower(a)[i..i + |t|];
    assert OccursAt(t, Lower(a + b), i);
  }

  /** A search found in a piece of a text is found in the whole text. */
  lemma {:induction false} PieceMatch(a: string, b: string, c: string, search: string)
    requires IsMatch(b, search)
    ensures IsMatch(a + b + c, search)
  {
    PrefixMatch(a, b, search);
    SuffixMatch(a + b, c, search);
  }

  /** The tag table the search text draws on is indexable at every tag of `m`, with at least one alias per tag. */
  predicate AliasesCover(m: Model, tagAliases: seq<seq<string>>) {
    forall k :: 0 <= k < |m.tags| ==> 0 <= m.tags[k] < |tagAliases| && |tagAliases[m.tags[k]]| > 0
  }

  /** " " and each tag's first alias, tag after tag. */
  function TagText(tags: seq<int>, tagAliases: seq<seq<string>>): string
    requires forall k :: 0 <= k < |tags| ==> 0 <= tags[k] < |tagAliases| && |tagAliases[tags[k]]| > 0
    decreases |tags|
  {
    if tags == [] then ""
    else
      var n := |tags| - 1;
      TagText(tags[..n], tagAliases) + " " + tagAliases[tags[n]][0]
  }

  /** The text `isModelMatch` searches: plugin slug, brand, name, slug and first tag aliases, space-separated. */
  function SearchText(m: Model, tagAliases: seq<seq<string>>): (r: string)
    requires AliasesCover(m, tagAliases)
    ensures OccursAt(m.pluginSlug, r, 0)
    ensures OccursAt(m.brand, r, |m.pluginSlug| + 1)
    ensures OccursAt(m.name, r, |m.pluginSlug| + |m.brand| + 2)
    ensures OccursAt(m.slug, r, |m.pluginSlug| + |m.brand| + |m.name| + 3)
  {
    m.pluginSlug + " " + m.brand + " " + m.name + " " + m.slug + TagText(m.tags, tagAliases)
  }

  lemma LowerOccursAt(t: string, s: string, i: int)
    requires OccursAt(t, s, i)
    ensures OccursAt(Lower(t), Lower(s), i)
  {
    assert Lower(s)[i..i + |t|] == Lower(t);
  }

  /** Searching for a model's plugin slug, brand, name or slug, in any case, finds the model. */
  lemma ModelMatchesItsOwnFields(m: Model, tagAliases: seq<seq<string>>, search: string)
    requires AliasesCover(m, tagAliases)
    requires Lower(search) in {Lower(m.pluginSlug), Lower(m.brand), Lower(m.name), Lower(m.slug)}
    ensures IsModelMatch(m, tagAliases, search)
  {
    var r := SearchText(m, tagAliases);
    LowerOccursAt(m.pluginSlug, r, 0);
    LowerOccursAt(m.brand, r, |m.pluginSlug| + 1);
    LowerOccursAt(m.name, r, |m.pluginSlug| + |m.brand| + 2);
    LowerOccursAt(m.slug, r, |m.pluginSlug| + |m.brand| + |m.name| + 3);
  }

  /** `v06::isModelMatch`. */
  function IsModelMatch(m: Model, tagAliases: seq<seq<string>>, search: string): (r: bool)
    requires AliasesCover(m, tagAliases)
    ensures search == "" ==> r
    ensures r <==> Occurs(Lower(search), Lower(SearchText(m, tagAliases)))
  {
    if search == "" then
      IsMatchProperties(SearchText(m, tagAliases), search);
      true
    else IsMatch(SearchText(m, tagAliases), search)
  }

  /** A search that matches the model's name or its brand matches the model. */
  lemma ModelMatchByNameOrBrand(m: Model, tagAliases: seq<seq<string>>, search: string)
    requires AliasesCover(m, tagAliases)
    requires IsMatch(m.name, search) || IsMatch(m.brand, search)
    ensures IsModelMatch(m, tagAliases, search)
  {
    var upToBrand := m.pluginSlug + " " + m.brand;
    if IsMatch(m.brand, search) {
      PrefixMatch(m.pluginSlug + " ", m.brand, search);
      SuffixMatch(upToBrand, " ", search);
    }
    var upToName := upToBrand + " " + m.name;
    if IsMatch(upToBrand + " ", search) {
      SuffixMatch(upToBrand + " ", m.name, search);
    } else {
      PrefixMatch(upToBrand + " ", m.name, search);
    }
    SuffixMatch(upToName, " ", search);
    SuffixMatch(upToName + " ", m.slug, search);
    SuffixMatch(upToName + " " + m.slug, TagText(m.tags, tagAliases), search);
  }

  // ---- Filters ----

  /** `std::find` over a tag list: the index of the first `x`, or the length when there is none. */
  function FindTag(tags: seq<int>, x: int): (r: nat)
    ensures r <= |tags|
    ensures r < |tags| ==> tags[r] == x
    ensures forall k :: 0 <= k < r ==> tags[k] != x
    decreases |tags|
  {
    if tags == [] then 0
    else if tags[0] == x then 0
    else 1 + FindTag(tags[1..], x)
  }

  /** `ModuleBrowser::isModelFiltered`: the author filter is off or equals the brand, and the tag filter is off or among the tags. */
  function IsModelFiltered(m: Model, authorFilter: string, tagFilter: int): (r: bool)
    ensures r <==> (authorFilter == "" || m.brand == authorFilter) && (tagFilter == -1 || tagFilter in m.tags)
  {
    if authorFilter != "" && m.brand != authorFilter then false
    else if tagFilter != -1 && FindTag(m.tags, tagFilter) == |m.tags| then false
    else true
  }

  /**
   * `v1::isModelVisible`.  `score` is what the fuzzy scorer gives the model
   * for a non-empty search; it is not consulted when the search is empty.
   */
  function IsModelVisible(m: Model, search: string, score: real, brand: string, tagId: int): (r: bool)
    ensures r <==> (search == "" || score > 0.0) && (brand == "" || m.brand == brand) && (tagId < 0 || tagId in m.tags)
  {
    if search != "" && score <= 0.0 then false
    else if brand != "" && m.brand != brand then false
    else if tagId >= 0 && FindTag(m.tags, tagId) == |m.tags| then false
    else true
  }

  /** With every filter off, the two browsers agree: everything is shown. */
  lemma FiltersOffShowEverything(m: Model, score: real)
    ensures IsModelFiltered(m, "", -1) && IsModelVisible(m, "", score, "", -1)
  {
  }

  /** `v1::get_default`. */
  function GetDefault<K, V>(m: map<K, V>, key: K, def: V): (r: V)
    ensures key in m ==> r == m[key]
    ensures key !in m ==> r == def
  {
    if key in m then m[key] else def
  }

  /** The v1 brand and tag items: choosing the active value switches the filter off, choosing another switches to it. */
  function ChooseFilter<T(==)>(current: T, chosen: T, off: T): (r: T)
    ensures current == chosen ==> r == off
    ensures current != chosen ==> r == chosen
  {
    if current == chosen then off else chosen
  }

  /** Choosing the same item twice, starting with the filter off, leaves it off again. */
  lemma ChooseTwiceRestores<T>(chosen: T, off: T)
    requires chosen != off
    ensures ChooseFilter(ChooseFilter(off, chosen, off), chosen, off) == off
  {
  }

  /** The v1 browser's filter fields. */
  class ModuleBrowser {
    var brand: string
    var tagId: int

    constructor ()
      ensures brand == "" && tagId == -1
    {
      brand := "";
      tagId := -1;
    }

    /** `BrandItem::onAction`. */
    method BrandAction(text: string)
      modifies this
      ensures brand == ChooseFilter(old(brand), text, "") && tagId == old(tagId)
    {
      if brand == text {
        brand := "";
      } else {
        brand := text;
      }
    }

    /** `TagItem::onAction`. */
    method TagAction(chosen: int)
      modifies this
      ensures tagId == ChooseFilter(old(tagId), chosen, -1) && brand == old(brand)
    {
      if tagId == chosen {
        tagId := -1;
      } else {
        tagId := chosen;
      }
    }
  }

  // ---- The v06 browser's global state ----

  /** `sFavoriteModels`, `sAuthorFilter`, `sTagFilter` and the search field's text. */
  class Browser06 {
    var favoriteModels: set<Model>
    var authorFilter: string
    var tagFilter: int
    var search: string

    constructor ()
      ensures favoriteModels == {} && authorFilter == "" && tagFilter == -1 && search == ""
    {
      favoriteModels := {};
      authorFilter := "";
      tagFilter := -1;
      search := "";
    }

    /** `AuthorItem::onAction`: sets the author filter and clears the search. */
    method AuthorAction(author: string)
      modifies this
      ensures authorFilter == author && search == ""
      ensures tagFilter == old(tagFilter) && favoriteModels == old(favoriteModels)
    {
      authorFilter := author;
      search := "";
    }

    /** `TagItem::onAction`: sets the tag filter and clears the search. */
    method TagAction(tag: int)
      modifies this
      ensures tagFilter == tag && search == ""
      ensures authorFilter == old(authorFilter) && favoriteModels == old(favoriteModels)
    {
      tagFilter := tag;
      search := "";
    }

    /** `ClearFilterItem::onAction`: both filters off; the search text stays. */
    method ClearFilterAction()
      modifies this
      ensures authorFilter == "" && tagFilter == -1
      ensures search == old(search) && favoriteModels == old(favoriteModels)
    {
      authorFilter := "";
      tagFilter := -1;
    }

    /** `FavoriteRadioButton::onAction`: a button without a model does nothing; a value above 0 adds, any other removes. */
    method FavoriteAction(model: Option<Model>, value: real)
      modifies this
      ensures model.None? ==> favoriteModels == old(favoriteModels)
      ensures model.Some? && value > 0.0 ==> favoriteModels == old(favoriteModels) + {model.value}
      ensures model.Some? && value <= 0.0 ==> favoriteModels == old(favoriteModels) - {model.value}
      ensures authorFilter == old(authorFilter) && tagFilter == old(tagFilter) && search == old(search)
    {
      if model.None? {
        return;
      }
      if value > 0.0 {
        favoriteModels := favoriteModels + {model.value};
      } else if model.value in favoriteModels {
        favoriteModels := favoriteModels - {model.value};
      }
    }

    /** `appModuleBrowserToJson`: the favourites, one slug record each. */
    method ToJson() returns (rootJ: Json, ghost favs: seq<Model>)
      ensures Lists(favs, favoriteModels)
      ensures rootJ == JObj(map["favorites" := JArr(SlugRecords(favs))])
      ensures |Items(Get(rootJ, "favorites"))| == |favoriteModels|
      ensures forall m :: m in favoriteModels ==> SlugRecord(m) in Items(Get(rootJ, "favorites"))
    {
      var favoritesJ;
      favoritesJ, favs := ListSlugs(favoriteModels);
      rootJ := JObj(map["favorites" := JArr(favoritesJ)]);
    }

    /** `appModuleBrowserFromJson`: resolvable favourites are added; the set is not emptied first. */
    method FromJson(c: Catalog, rootJ: Json)
      requires SlugsTyped(Items(Get(rootJ, "favorites")))
      modifies this
      ensures favoriteModels == old(favoriteModels) + ImportSet(c, Items(Get(rootJ, "favorites")))
      ensures authorFilter == old(authorFilter) && tagFilter == old(tagFilter) && search == old(search)
    {
      var favoritesJ := Get(rootJ, "favorites");
      if favoritesJ.Some? {
        var found := CollectModels(c, Items(favoritesJ));
        favoriteModels := favoriteModels + found;
      }
    }
  }

  /** Saving the favourites and loading them back adds exactly the saved set, when every favourite resolves. */
  lemma FavoritesRoundTrip(c: Catalog, favorites: set<Model>, favs: seq<Model>, before: set<Model>)
    requires Lists(favs, favorites)
    requires forall m :: m in favorites ==> Resolves(c, m)
    ensures var rootJ := JObj(map["favorites" := JArr(SlugRecords(favs))]);
      SlugsTyped(Items(Get(rootJ, "favorites"))) && before + ImportSet(c, Items(Get(rootJ, "favorites"))) == before + favorites
  {
    ImportSlugRecords(c, favs);
    assert (set m | m in favs) == favorites;
  }

  // ---- The result list ----

  /** A child of the result list: a widget identity, whether it is a list item (not a separator), and its highlight. */
  datatype Child = Child(id: int, isItem: bool, selected: bool)

  /** The list items among the children, in order. */
  function ListItems(cs: seq<Child>): (r: seq<Child>)
    ensures |r| <= |cs|
    ensures forall k :: 0 <= k < |r| ==> r[k] in cs && r[k].isItem
    decreases |cs|
  {
    if cs == [] then []
    else
      var n := |cs| - 1;
      ListItems(cs[..n]) + (if cs[n].isItem then [cs[n]] else [])
  }

  /** The index among the list items of the first item child whose identity is `w`. */
  function ItemIndexOf(cs: seq<Child>, w: int): (r: Option<nat>)
    ensures r.Some? ==> r.value < |ListItems(cs)| && ListItems(cs)[r.value].id == w
    ensures r.Some? ==> forall k :: 0 <= k < r.value ==> ListItems(cs)[k].id != w
    ensures r.None? ==> forall k :: 0 <= k < |ListItems(cs)| ==> ListItems(cs)[k].id != w
    decreases |cs|
  {
    if cs == [] then None
    else
      var n := |cs| - 1;
      match ItemIndexOf(cs[..n], w)
      case Some(i) => Some(i)
      case None => if cs[n].isItem && cs[n].id == w then Some(|ListItems(cs[..n])|) else None
  }

  /** Rack's `clamp(x, a, b)`: `max(min(x, b), a)`, so `a` when the range is empty. */
  function Clamp(x: int, a: int, b: int): (r: int)
    ensures a <= b ==> a <= r <= b
    ensures a <= x <= b ==> r == x
    ensures b < a ==> r == a
  {
    var m := if x < b then x else b;
    if m < a then a else m
  }

  /** Each list item's highlight says whether its index among the items is `sel`; separators are untouched. */
  function MarkSelection(cs: seq<Child>, sel: int): (r: seq<Child>)
    ensures |r| == |cs|
    ensures forall k :: 0 <= k < |cs| ==> r[k].id == cs[k].id && r[k].isItem == cs[k].isItem
    ensures forall k :: 0 <= k < |cs| && !cs[k].isItem ==> r[k] == cs[k]
    decreases |cs|
  {
    if cs == [] then []
    else
      var n := |cs| - 1;
      MarkSelection(cs[..n], sel) + [if cs[n].isItem then cs[n].(selected := |ListItems(cs[..n])| == sel) else cs[n]]
  }

  /** After marking, exactly the item at index `sel` is highlighted, and the items are otherwise the same. */
  lemma {:induction false} MarkSelectionItems(cs: seq<Child>, sel: int)
    ensures |ListItems(MarkSelection(cs, sel))| == |ListItems(cs)|
    ensures forall k :: 0 <= k < |ListItems(cs)| ==>
      ListItems(MarkSelection(cs, sel))[k] == ListItems(cs)[k].(selected := k == sel)
    decreases |cs|
  {
    if cs != [] {
      var n := |cs| - 1;
      MarkSelectionItems(cs[..n], sel);
      var marked := MarkSelection(cs, sel);
      assert marked[..n] == MarkSelection(cs[..n], sel);
      assert ListItems(marked) == ListItems(marked[..n]) + (if marked[n].isItem then [marked[n]] else []);
    }
  }

  /** `BrowserList`: its children and the index of the selected item among the list items. */
  class BrowserList {
    var children: seq<Child>
    var selected: int

    constructor (cs: seq<Child>)
      ensures children == cs && selected == 0
    {
      children := cs;
      selected := 0;
    }

    /** `countItems`. */
    method CountItems() returns (n: int)
      ensures n == |ListItems(children)|
    {
      n := 0;
      var k := 0;
      while k < |children|
        invariant 0 <= k <= |children|
        invariant n == |ListItems(children[..k])|
      {
        assert children[..k + 1][..k] == children[..k];
        if children[k].isItem {
          n := n + 1;
        }
        k := k + 1;
      }
      assert children[..|children|] == children;
    }

    /** `incrementSelection`: the selection moves by `delta` and is clamped to the items. */
    method IncrementSelection(delta: int)
      modifies this
      ensures selected == Clamp(old(selected) + delta, 0, |ListItems(children)| - 1)
      ensures |ListItems(children)| > 0 ==> 0 <= selected < |ListItems(children)|
      ensures |ListItems(children)| == 0 ==> selected == 0
      ensures children == old(children)
    {
      selected := selected + delta;
      var n := CountItems();
      selected := Clamp(selected, 0, n - 1);
    }

    /** `step`: the selection is clamped and exactly the selected item is highlighted. */
    method Step()
      modifies this
      ensures selected == Clamp(old(selected), 0, |ListItems(old(children))| - 1)
      ensures children == MarkSelection(old(children), selected)
    {
      IncrementSelection(0);
      children := MarkItems(children, selected);
    }

    /** `selectItem`: when `w` is a list item, the selection becomes its index among the items; otherwise nothing changes. */
    method SelectItem(w: int)
      modifies this
      ensures selected == match ItemIndexOf(children, w) case Some(i) => i case None => old(selected)
      ensures children == old(children)
    {
      var i := 0;
      var k := 0;
      while k < |children|
        invariant 0 <= k <= |children|
        invariant ItemIndexOf(children[..k], w).None?
        invariant i == |ListItems(children[..k])|
        invariant selected == old(selected)
      {
        assert children[..k + 1][..k] == children[..k];
        if children[k].isItem {
          if children[k].id == w {
            selected := i;
            assert ItemIndexOf(children[..k + 1], w) == Some(i);
            ItemIndexOfPrefix(children, k + 1, w);
            return;
          }
          i := i + 1;
        }
        k := k + 1;
      }
      assert children[..|children|] == children;
    }

    /** `getSelectedItem`: the list item at index `selected`, or nothing. */
    method GetSelectedItem() returns (r: Option<Child>)
      ensures 0 <= selected < |ListItems(children)| ==> r == Some(ListItems(children)[selected])
      ensures !(0 <= selected < |ListItems(children)|) ==> r.None?
    {
      r := ItemAt(children, selected);
    }
  }

  /** The marking loop of `step`: each list item is highlighted iff its index among the items is `sel`. */
  method MarkItems(cs: seq<Child>, sel: int) returns (r: seq<Child>)
    ensures r == MarkSelection(cs, sel)
  {
    r := cs;
    var i := 0;
    var k := 0;
    while k < |cs|
      invariant |r| == |cs| && 0 <= k <= |cs|
      invariant r[..k] == MarkSelection(cs[..k], sel)
      invariant r[k..] == cs[k..]
      invariant i == |ListItems(cs[..k])|
    {
      assert cs[..k + 1][..k] == cs[..k];
      assert r[k] == cs[k];
      if r[k].isItem {
        r := r[k := r[k].(selected := i == sel)];
        i := i + 1;
      }
      assert r[..k + 1] == r[..k] + [r[k]];
      k := k + 1;
    }
    assert cs[..|cs|] == cs && r[..|cs|] == r;
  }

  /** The search loop of `getSelectedItem`: the list item at index `sel` among the items, or nothing. */
  method ItemAt(cs: seq<Child>, sel: int) returns (r: Option<Child>)
    ensures 0 <= sel < |ListItems(cs)| ==> r == Some(ListItems(cs)[sel])
    ensures !(0 <= sel < |ListItems(cs)|) ==> r.None?
  {
    var i := 0;
    var k := 0;
    while k < |cs|
      invariant 0 <= k <= |cs|
      invariant i == |ListItems(cs[..k])|
      invariant i <= sel || sel < 0
      invariant ListItems(cs[..k]) <= ListItems(cs)
    {
      assert cs[..k + 1][..k] == cs[..k];
      ListItemsPrefix(cs, k + 1);
      if cs[k].isItem {
        if i == sel {
          assert ListItems(cs[..k + 1])[i] == cs[k];
          return Some(cs[k]);
        }
        i := i + 1;
      }
      k := k + 1;
    }
    assert cs[..|cs|] == cs;
    return None;
  }

  /** The items of a prefix of the children are a prefix of the items. */
  lemma {:induction false} ListItemsPrefix(cs: seq<Child>, k: nat)
    requires k <= |cs|
    ensures ListItems(cs[..k]) <= ListItems(cs)
    decreases |cs| - k
  {
    if k < |cs| {
      ListItemsPrefix(cs, k + 1);
      assert cs[..k + 1][..k] == cs[..k];
    } else {
      assert cs[..k] == cs;
    }
  }

  /** The list items are exactly the children that are items. */
  lemma {:induction false} ListItemsMembers(cs: seq<Child>)
    ensures forall c :: c in ListItems(cs) <==> c in cs && c.isItem
    decreases |cs|
  {
    if cs != [] {
      var n := |cs| - 1;
      ListItemsMembers(cs[..n]);
      assert cs == cs[..n] + [cs[n]];
    }
  }

  /**
   * Order: an item child at position `j` sits among the items right after
   * the items that precede it.
   */
  lemma {:induction false} ListItemsAt(cs: seq<Child>, j: nat)
    requires j < |cs| && cs[j].isItem
    ensures |ListItems(cs[..j])| < |ListItems(cs)|
    ensures ListItems(cs)[|ListItems(cs[..j])|] == cs[j]
  {
    ListItemsPrefix(cs, j + 1);
    assert cs[..j + 1][..j] == cs[..j];
    assert ListItems(cs[..j + 1]) == ListItems(cs[..j]) + [cs[j]];
  }

  /** A first match found in a prefix is the first match in the whole list. */
  lemma {:induction false} ItemIndexOfPrefix(cs: seq<Child>, k: nat, w: int)
    requires k <= |cs| && ItemIndexOf(cs[..k], w).Some?
    ensures ItemIndexOf(cs, w) == ItemIndexOf(cs[..k], w)
    decreases |cs| - k
  {
    if k < |cs| {
      assert cs[..k + 1][..k] == cs[..k];
      ItemIndexOfPrefix(cs, k + 1, w);
    } else {
      assert cs[..k] == cs;
    }
  }

  /** Selecting a list item and then asking for the selection gives back an item with that identity. */
  lemma SelectThenGet(cs: seq<Child>, w: int, i: nat)
    requires ItemIndexOf(cs, w) == Some(i)
    ensures 0 <= i < |ListItems(cs)| && ListItems(cs)[i].id == w && ListItems(cs)[i].isItem
  {
  }
}
