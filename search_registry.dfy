/**
 * The in-app search index: static items built once from the feature table, status-bar
 * icon items added at query time, lower-case substring filtering and a stable
 * "title starts with the query first" ordering.
 */
module Search {
  import opened Wrappers
  import Text
  import StatusBarIcons

  /** One search hit as shown in the results list. */
  datatype SearchableItem = SearchableItem(
    title: string,
    description: string,
    category: string,
    icon: Option<string>,
    featureKey: string,
    parentFeature: Option<string>,
    targetSettingHighlightKey: Option<string>,
    keywords: seq<string>)

  /** A searchable sub-setting of a feature; `category` is optional. */
  datatype SearchSetting = SearchSetting(
    title: string,
    description: string,
    targetSettingHighlightKey: string,
    keywords: seq<string>,
    category: Option<string>)

  /** The part of a feature that the index reads, with its texts already resolved. */
  datatype Feature = Feature(
    id: string,
    title: string,
    iconRes: string,
    category: string,
    description: string,
    searchableSettings: seq<SearchSetting>)

  const ICONS_CATEGORY := "Statusbar icons"
  const FEATURE_KEYWORDS: seq<string> := ["feature", "settings"]
  const ICON_KEYWORDS: seq<string> := ["hide", "show", "visibility"]

  // ---------------------------------------------------------------------------
  // Stable ordering by a boolean key, descending (true first)
  // ---------------------------------------------------------------------------

  /** The elements of `s` whose key is `b`, in their order in `s`. */
  function Having<T(!new)>(s: seq<T>, key: T -> bool, b: bool): (r: seq<T>)
    ensures |r| <= |s|
    ensures forall k :: 0 <= k < |r| ==> key(r[k]) == b
    ensures forall x :: x in r <==> x in s && key(x) == b
  {
    if s == [] then []
    else Having(s[..|s| - 1], key, b) + (if key(s[|s| - 1]) == b then [s[|s| - 1]] else [])
  }

  /** Splitting by a boolean key loses no element and invents none. */
  lemma {:induction false} HavingPartitions<T(!new)>(s: seq<T>, key: T -> bool)
    ensures multiset(Having(s, key, true)) + multiset(Having(s, key, false)) == multiset(s)
  {
    if s != [] {
      var p, x := s[..|s| - 1], s[|s| - 1];
      HavingPartitions(p, key);
      assert s == p + [x];
    }
  }

  /**
   * One step of a stable insertion: `x` goes after every element whose key is at least
   * its own (true counts as greater than false).
   */
  function InsertDescending<T(!new)>(sorted: seq<T>, x: T, key: T -> bool): seq<T>
  {
    if sorted == [] || key(sorted[|sorted| - 1]) || !key(x) then sorted + [x]
    else InsertDescending(sorted[..|sorted| - 1], x, key) + [sorted[|sorted| - 1]]
  }

  /** `sortedByDescending(key)` on a boolean key: a stable sort, true keys first. */
  function SortedByDescending<T(!new)>(s: seq<T>, key: T -> bool): seq<T>
  {
    if s == [] then []
    else InsertDescending(SortedByDescending(s[..|s| - 1], key), s[|s| - 1], key)
  }

  /** Inserting a true-keyed element into "trues then falses" puts it after the trues. */
  lemma {:induction false} InsertAfterTrues<T(!new)>(trues: seq<T>, falses: seq<T>, x: T, key: T -> bool)
    requires forall k :: 0 <= k < |trues| ==> key(trues[k])
    requires forall k :: 0 <= k < |falses| ==> !key(falses[k])
    requires key(x)
    ensures InsertDescending(trues + falses, x, key) == trues + [x] + falses
  {
    if falses == [] {
      assert trues + falses == trues;
    } else {
      var f := falses[..|falses| - 1];
      var last := falses[|falses| - 1];
      assert trues + falses == (trues + f) + [last];
      assert (trues + falses)[..|trues + falses| - 1] == trues + f;
      InsertAfterTrues(trues, f, x, key);
      assert trues + [x] + falses == (trues + [x] + f) + [last];
    }
  }

  /**
   * The stable sort is the partition: the true-keyed elements in their original order,
   * then the false-keyed ones in theirs.
   */
  lemma {:induction false} SortedIsPartition<T(!new)>(s: seq<T>, key: T -> bool)
    ensures SortedByDescending(s, key) == Having(s, key, true) + Having(s, key, false)
  {
    if s != [] {
      var p, x := s[..|s| - 1], s[|s| - 1];
      SortedIsPartition(p, key);
      var t, f := Having(p, key, true), Having(p, key, false);
      assert SortedByDescending(s, key) == InsertDescending(t + f, x, key);
      if key(x) {
        InsertAfterTrues(t, f, x, key);
        assert Having(s, key, true) == t + [x];
        assert Having(s, key, false) == f;
      } else {
        assert Having(s, key, true) == t;
        assert Having(s, key, false) == f + [x];
      }
    }
  }

  /** In "trues then falses" a true-keyed element has only true-keyed elements before it. */
  lemma TruesFirst<T>(trues: seq<T>, falses: seq<T>, key: T -> bool)
    requires forall k :: 0 <= k < |trues| ==> key(trues[k])
    requires forall k :: 0 <= k < |falses| ==> !key(falses[k])
    ensures forall i, j :: 0 <= i < j < |trues + falses| && key((trues + falses)[j]) ==> key((trues + falses)[i])
  {
    var r := trues + falses;
    forall i, j | 0 <= i < j < |r| && key(r[j])
      ensures key(r[i])
    {
      if j < |trues| {
        assert r[i] == trues[i];
      }
    }
  }

  // ---------------------------------------------------------------------------
  // The static index
  // ---------------------------------------------------------------------------

  /** The item indexing a feature itself. */
  function FeatureItem(f: Feature): SearchableItem {
    SearchableItem(f.title, f.description, f.category, Some(f.iconRes), f.id, None, None, FEATURE_KEYWORDS)
  }

  /** The item indexing one sub-setting of `f`; icon and key come from the feature. */
  function SettingItem(f: Feature, s: SearchSetting): SearchableItem {
    SearchableItem(s.title, s.description, s.category.GetOr(f.category), Some(f.iconRes), f.id,
      Some(f.title), Some(s.targetSettingHighlightKey), s.keywords)
  }

  /** The items of the sub-settings in `settings`, in declaration order. */
  function SettingItems(f: Feature, settings: seq<SearchSetting>): (items: seq<SearchableItem>)
    ensures |items| == |settings|
    ensures forall j :: 0 <= j < |settings| ==> items[j] == SettingItem(f, settings[j])
  {
    if settings == [] then []
    else SettingItems(f, settings[..|settings| - 1]) + [SettingItem(f, settings[|settings| - 1])]
  }

  /** What one feature contributes: its own item, then one per sub-setting. */
  function FeatureEntries(f: Feature): seq<SearchableItem> {
    [FeatureItem(f)] + SettingItems(f, f.searchableSettings)
  }

  /** The static index over `features`, in declaration order. */
  function StaticIndex(features: seq<Feature>): seq<SearchableItem> {
    if features == [] then []
    else StaticIndex(features[..|features| - 1]) + FeatureEntries(features[|features| - 1])
  }

  /** Where the entries of `features[i]` start in the static index. */
  function EntryOffset(features: seq<Feature>, i: nat): nat
    requires i <= |features|
  {
    |StaticIndex(features[..i])|
  }

  /**
   * Layout of the static index: the entries of the `i`-th feature start at its offset
   * and the index is built of whole feature entries, in order.
   */
  lemma {:induction false} StaticIndexLayout(features: seq<Feature>, i: nat)
    requires i < |features|
    ensures EntryOffset(features, i) + 1 + |features[i].searchableSettings| <= |StaticIndex(features)|
    ensures StaticIndex(features)[EntryOffset(features, i) .. EntryOffset(features, i) + 1 + |features[i].searchableSettings|]
      == FeatureEntries(features[i])
  {
    var n := |features| - 1;
    var p := features[..n];
    assert StaticIndex(features) == StaticIndex(p) + FeatureEntries(features[n]);
    if i == n {
      assert features[..i] == p;
    } else {
      StaticIndexLayout(p, i);
      assert p[..i] == features[..i];
      assert p[i] == features[i];
    }
  }

  /**
   * Every feature's own item carries the keywords ["feature", "settings"]; every
   * sub-setting item takes its category from the setting when it has one and from the
   * feature otherwise, and its icon, key and parent from the feature.
   */
  lemma IndexedItemFields(features: seq<Feature>, i: nat, j: nat)
    requires i < |features| && j < |features[i].searchableSettings|
    ensures EntryOffset(features, i) + 1 + j < |StaticIndex(features)|
    ensures var f, o := features[i], EntryOffset(features, i);
      var item := StaticIndex(features)[o];
      item.title == f.title && item.keywords == ["feature", "settings"] && item.featureKey == f.id
    ensures var f, s, o := features[i], features[i].searchableSettings[j], EntryOffset(features, i);
      var item := StaticIndex(features)[o + 1 + j];
      item.title == s.title && item.keywords == s.keywords
      && (s.category.Some? ==> item.category == s.category.value)
      && (s.category.None? ==> item.category == f.category)
      && item.icon == Some(f.iconRes) && item.featureKey == f.id && item.parentFeature == Some(f.title)
  {
    StaticIndexLayout(features, i);
    var o, n := EntryOffset(features, i), |features[i].searchableSettings|;
    var index, entries := StaticIndex(features), FeatureEntries(features[i]);
    assert index[o..o + 1 + n] == entries;
    assert index[o] == index[o..o + 1 + n][0];
    assert index[o + 1 + j] == index[o..o + 1 + n][1 + j];
    assert entries[1 + j] == SettingItem(features[i], features[i].searchableSettings[j]);
  }

  // ---------------------------------------------------------------------------
  // Icon items and the query
  // ---------------------------------------------------------------------------

  /** The item for one status-bar icon, given its resolved title and description. */
  function IconItem(icon: StatusBarIcons.StatusBarIcon, title: string, description: string): SearchableItem {
    SearchableItem(title, description, ICONS_CATEGORY, icon.iconRes, ICONS_CATEGORY, Some(ICONS_CATEGORY),
      Some(title), icon.blacklistNames + ICON_KEYWORDS)
  }

  /**
   * The items for `icons`, in order. `titleOf` resolves an icon's display name and
   * `describe` formats the "toggle visibility" description around a title.
   */
  function IconItems(icons: seq<StatusBarIcons.StatusBarIcon>, titleOf: StatusBarIcons.StatusBarIcon -> string,
                     describe: string -> string): (items: seq<SearchableItem>)
    ensures |items| == |icons|
    ensures forall k :: 0 <= k < |icons| ==>
      items[k].title == titleOf(icons[k]) && items[k].category == "Statusbar icons"
      && items[k].keywords == icons[k].blacklistNames + ["hide", "show", "visibility"]
  {
    if icons == [] then []
    else
      var icon := icons[|icons| - 1];
      IconItems(icons[..|icons| - 1], titleOf, describe) + [IconItem(icon, titleOf(icon), describe(titleOf(icon)))]
  }

  /** The normalised query: trimmed, then lower-cased. */
  function Query(query: string): string {
    Text.Lowercase(Text.Trim(query))
  }

  /** `item` matches `q` in its lower-cased title, description, category or a keyword. */
  predicate Matches(item: SearchableItem, q: string) {
    Text.Contains(Text.Lowercase(item.title), q)
    || Text.Contains(Text.Lowercase(item.description), q)
    || Text.Contains(Text.Lowercase(item.category), q)
    || exists k :: 0 <= k < |item.keywords| && Text.Contains(Text.Lowercase(item.keywords[k]), q)
  }

  function MatchKey(q: string): SearchableItem -> bool {
    item => Matches(item, q)
  }

  /** The ordering key: the lower-cased title starts with `q`. */
  predicate TitleStarts(item: SearchableItem, q: string) {
    Text.StartsWith(Text.Lowercase(item.title), q)
  }

  function TitleKey(q: string): SearchableItem -> bool {
    item => TitleStarts(item, q)
  }

  /** The result of searching `items` for `query`: filter, then the stable sort. */
  function SearchResults(items: seq<SearchableItem>, query: string): seq<SearchableItem> {
    var q := Query(query);
    if q == [] then []
    else SortedByDescending(Having(items, MatchKey(q), true), TitleKey(q))
  }

  /**
   * What a search promises: nothing for a blank query; otherwise exactly the matching
   * items, each as often as it occurs in `items`, title-prefix hits first, and within
   * each group the order of `items`.
   */
  lemma SearchResultsSpec(items: seq<SearchableItem>, query: string)
    ensures Query(query) == [] ==> SearchResults(items, query) == []
    ensures var q, r := Query(query), SearchResults(items, query);
      q != [] ==>
        (forall item :: item in r <==> item in items && Matches(item, q))
        && multiset(r) == multiset(Having(items, MatchKey(q), true))
        && (forall i, j :: 0 <= i < j < |r| && TitleStarts(r[j], q) ==> TitleStarts(r[i], q))
        && r == Having(Having(items, MatchKey(q), true), TitleKey(q), true)
              + Having(Having(items, MatchKey(q), true), TitleKey(q), false)
  {
    var q := Query(query);
    if q != [] {
      var m := Having(items, MatchKey(q), true);
      SortedIsPartition(m, TitleKey(q));
      HavingPartitions(m, TitleKey(q));
      var t, f := Having(m, TitleKey(q), true), Having(m, TitleKey(q), false);
      var r := SearchResults(items, query);
      assert r == t + f;
      TruesFirst(t, f, TitleKey(q));
      forall i, j | 0 <= i < j < |r| && TitleStarts(r[j], q)
        ensures TitleStarts(r[i], q)
      {
        assert TitleKey(q)(r[j]);
      }
    }
  }

  /**
   * A query made only of whitespace, Unicode spaces such as the no-break space and the
   * ideographic space included, is blank and finds nothing.
   */
  lemma BlankQueryFindsNothing(items: seq<SearchableItem>, query: string)
    requires forall k :: 0 <= k < |query| ==> Text.IsWhitespace(query[k])
    ensures Query(query) == [] && SearchResults(items, query) == []
  {
  }

  /** The no-break space, the ideographic space and a tab make a blank query. */
  lemma UnicodeSpacesAreBlank(items: seq<SearchableItem>)
    ensures SearchResults(items, "\U{00A0}\U{3000}\t") == []
  {
    BlankQueryFindsNothing(items, "\U{00A0}\U{3000}\t");
  }

  /**
   * Searching for (part of) one of an icon's blacklist tokens finds that icon's item,
   * whatever the static items are.
   */
  lemma TokenFindsIcon(fixed: seq<SearchableItem>, icons: seq<StatusBarIcons.StatusBarIcon>,
                       titleOf: StatusBarIcons.StatusBarIcon -> string, describe: string -> string,
                       query: string, i: nat, t: nat)
    requires i < |icons| && t < |icons[i].blacklistNames|
    requires Query(query) != [] && Text.Contains(Text.Lowercase(icons[i].blacklistNames[t]), Query(query))
    ensures IconItems(icons, titleOf, describe)[i] in SearchResults(fixed + IconItems(icons, titleOf, describe), query)
  {
    var items := fixed + IconItems(icons, titleOf, describe);
    var item := IconItems(icons, titleOf, describe)[i];
    assert item.keywords[t] == icons[i].blacklistNames[t];
    assert Matches(item, Query(query));
    assert item == items[|fixed| + i];
    SearchResultsSpec(items, query);
  }

  // ---------------------------------------------------------------------------
  // The registry object
  // ---------------------------------------------------------------------------

  class SearchRegistry {
    var staticItems: seq<SearchableItem>

    /** Indexes every feature, then each of its sub-settings, in declaration order. */
    constructor (features: seq<Feature>)
      ensures staticItems == StaticIndex(features)
    {
      staticItems := [];
      new;
      for i := 0 to |features|
        invariant staticItems == StaticIndex(features[..i])
      {
        var feature := features[i];
        AddStaticItem(FeatureItem(feature));
        for j := 0 to |feature.searchableSettings|
          invariant staticItems == StaticIndex(features[..i]) + [FeatureItem(feature)]
                                   + SettingItems(feature, feature.searchableSettings[..j])
        {
          AddStaticItem(SettingItem(feature, feature.searchableSettings[j]));
          assert feature.searchableSettings[..j + 1][..j] == feature.searchableSettings[..j];
        }
        assert feature.searchableSettings[..|feature.searchableSettings|] == feature.searchableSettings;
        assert features[..i + 1][..i] == features[..i];
      }
      assert features[..|features|] == features;
    }

    method AddStaticItem(item: SearchableItem)
      modifies this`staticItems
      ensures staticItems == old(staticItems) + [item]
    {
      staticItems := staticItems + [item];
    }

    /**
     * Searches a copy of the static items extended with one item per status-bar icon;
     * the static items themselves are left as they are.
     */
    method Search(query: string, titleOf: StatusBarIcons.StatusBarIcon -> string, describe: string -> string)
      returns (results: seq<SearchableItem>)
      ensures results == SearchResults(staticItems + IconItems(StatusBarIcons.ALL_ICONS, titleOf, describe), query)
    {
      var q := Text.Lowercase(Text.Trim(query));
      if q == [] {
        return [];
      }
      var allItems := AddIconItems(staticItems, StatusBarIcons.ALL_ICONS, titleOf, describe);
      results := SortedByDescending(Having(allItems, MatchKey(q), true), TitleKey(q));
    }
  }

  /** The `forEach` over the icon catalog that appends one item per icon. */
  method AddIconItems(items: seq<SearchableItem>, icons: seq<StatusBarIcons.StatusBarIcon>,
                      titleOf: StatusBarIcons.StatusBarIcon -> string, describe: string -> string)
    returns (allItems: seq<SearchableItem>)
    ensures allItems == items + IconItems(icons, titleOf, describe)
  {
    allItems := items;
    for i := 0 to |icons|
      invariant allItems == items + IconItems(icons[..i], titleOf, describe)
    {
      var title := titleOf(icons[i]);
      allItems := allItems + [IconItem(icons[i], title, describe(title))];
      assert icons[..i + 1][..i] == icons[..i];
    }
    assert icons[..|icons|] == icons;
  }
}
