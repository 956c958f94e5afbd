/** How the application turns the registry into the sidebar's tree
    (buildSidebarItems in pkg/tui/app.go): the scenarios are grouped by
    category, one category item per group holding the group's scenarios in
    registration order; the preferred categories come first in a fixed
    order, the others after them in Go's map order, which the model leaves
    open. */
module AppTree {
  import opened Common
  import opened Registry
  import opened Sidebar

  /** What the application reads from a scenario beyond the registry entry:
      its description and its hints. */
  datatype Detail = Detail(description: string, hints: seq<string>)

  /** The order in which categories lead the sidebar. */
  const PreferredOrder: seq<string> :=
    ["Networking", "Lifecycle", "Scheduling", "Security", "Storage", "Ops", "Resources", "Kernel"]

  /** The category a scenario is filed under; an empty one is filed as
      "Uncategorized". */
  function CategoryOf(e: Entry): (c: string)
    ensures c != ""
    ensures e.category != "" ==> c == e.category
  {
    if e.category == "" then "Uncategorized" else e.category
  }

  /** The scenarios of `s` filed under `cat`, in their order in `s`. */
  function InCategory(s: seq<Entry>, cat: string): (r: seq<Entry>)
    ensures |r| <= |s|
    ensures forall e :: e in r <==> e in s && CategoryOf(e) == cat
    ensures (forall e <- s :: CategoryOf(e) != cat) ==> r == []
  {
    if |s| == 0 then []
    else
      var init := s[..|s| - 1];
      assert s == init + [s[|s| - 1]];
      InCategory(init, cat) + (if CategoryOf(s[|s| - 1]) == cat then [s[|s| - 1]] else [])
  }

  /** Each category of `s` mapped to its scenarios in order: appending a
      scenario appends it to its category's group, creating the group if
      needed. */
  function Group(s: seq<Entry>): map<string, seq<Entry>>
  {
    if |s| == 0 then map[]
    else
      var g := Group(s[..|s| - 1]);
      var c := CategoryOf(s[|s| - 1]);
      g[c := (if c in g then g[c] else []) + [s[|s| - 1]]]
  }

  /** A category has a group exactly when some scenario is filed under it,
      and the group holds that category's scenarios in order. */
  lemma {:induction false} GroupMeaning(s: seq<Entry>, c: string)
    ensures c in Group(s) <==> exists e :: e in s && CategoryOf(e) == c
    ensures c in Group(s) ==> Group(s)[c] == InCategory(s, c)
  {
    if |s| > 0 {
      var init, last := s[..|s| - 1], s[|s| - 1];
      assert s == init + [last];
      GroupMeaning(init, c);
      if CategoryOf(last) != c && c !in Group(init) {
        forall e | e in s
          ensures CategoryOf(e) != c
        {
          if e != last {
            assert e in init;
          }
        }
      }
    }
  }

  /** A Go map lookup of a boolean: a missing ID reads as not completed. */
  predicate IsDone(completed: map<string, bool>, id: string)
  {
    id in completed && completed[id]
  }

  /** The sidebar line of one scenario filed under `cat`. */
  function ChildItem(e: Entry, cat: string, completed: map<string, bool>, details: string -> Detail): SidebarItem
  {
    SidebarItem(e.id, e.name, details(e.id).description, false, cat, IsDone(completed, e.id), [])
  }

  /** The category item for `cat`, holding one line per scenario of `s`. */
  function CategoryItem(cat: string, s: seq<Entry>, completed: map<string, bool>, details: string -> Detail): SidebarItem
  {
    SidebarItem(cat, cat, "", true, "", false,
      seq(|s|, i requires 0 <= i < |s| => ChildItem(s[i], cat, completed, details)))
  }

  /** Builds a category item, appending its children one by one. */
  method CategoryItemOf(cat: string, s: seq<Entry>, completed: map<string, bool>, details: string -> Detail)
    returns (it: SidebarItem)
    ensures it == CategoryItem(cat, s, completed, details)
    ensures it.isCategory && it.id == cat && |it.children| == |s|
  {
    var children: seq<SidebarItem> := [];
    for j := 0 to |s|
      invariant |children| == j
      invariant forall k :: 0 <= k < j ==> children[k] == ChildItem(s[k], cat, completed, details)
    {
      children := children + [ChildItem(s[j], cat, completed, details)];
    }
    it := SidebarItem(cat, cat, "", true, "", false, children);
  }

  /** The position of the first `x` in `xs`, or |xs| when there is none. */
  function IndexOf(xs: seq<string>, x: string): (r: nat)
    ensures r <= |xs|
    ensures r < |xs| ==> xs[r] == x
    ensures forall k :: 0 <= k < r ==> xs[k] != x
  {
    if |xs| == 0 then 0
    else if xs[0] == x then 0
    else 1 + IndexOf(xs[1..], x)
  }

  /** Where a category ranks: its place in the preferred order, or after all
      of them. */
  function Rank(c: string): nat
  {
    IndexOf(PreferredOrder, c)
  }

  /** Each preferred category ranks at its own place. */
  lemma RankOfPreferred(j: int)
    requires 0 <= j < |PreferredOrder|
    ensures Rank(PreferredOrder[j]) == j
  {
    var r := Rank(PreferredOrder[j]);
    assert forall a, b :: 0 <= a < b < |PreferredOrder| ==> PreferredOrder[a] != PreferredOrder[b];
    assert PreferredOrder[r] == PreferredOrder[j];
  }

  /** Every item is the category item of a group of `g`. */
  predicate ItemsFrom(items: seq<SidebarItem>, g: map<string, seq<Entry>>, completed: map<string, bool>,
                      details: string -> Detail)
  {
    forall k :: 0 <= k < |items| ==>
      items[k].id in g && items[k] == CategoryItem(items[k].id, g[items[k].id], completed, details)
  }

  predicate DistinctIds(items: seq<SidebarItem>)
  {
    forall a, b :: 0 <= a < b < |items| ==> items[a].id != items[b].id
  }

  predicate RankSorted(items: seq<SidebarItem>)
  {
    forall a, b :: 0 <= a < b < |items| ==> Rank(items[a].id) <= Rank(items[b].id)
  }

  /** While the tree is being built: the groups still to emit are those of
      `g` with no item yet, unchanged. */
  predicate Pending(catMap: map<string, seq<Entry>>, items: seq<SidebarItem>, g: map<string, seq<Entry>>)
  {
    (forall c :: c in catMap ==> c in g && catMap[c] == g[c]) &&
    (forall c :: c in g ==> (c in catMap <==> forall k :: 0 <= k < |items| ==> items[k].id != c))
  }

  /** A category ranked at `j` or later that is not the `j`th preferred one
      ranks later than `j`. */
  lemma RankPast(c: string, j: int)
    requires 0 <= j < |PreferredOrder| && Rank(c) >= j && c != PreferredOrder[j]
    ensures Rank(c) >= j + 1
  {
  }

  /** The tree the dashboard shows for the scenarios `list`: one category
      item per category, built from that category's scenarios; every
      category present; no category twice; and the items sorted by rank,
      so the preferred categories lead in their fixed order. */
  predicate SidebarTree(items: seq<SidebarItem>, list: seq<Entry>, completed: map<string, bool>, details: string -> Detail)
  {
    ItemsFrom(items, Group(list), completed, details) &&
    (forall c :: c in Group(list) ==> exists k :: 0 <= k < |items| && items[k].id == c) &&
    DistinctIds(items) && RankSorted(items)
  }

  /** Appending an item that ranks no lower than every item keeps the
      items sorted. */
  lemma AppendSorted(items: seq<SidebarItem>, item: SidebarItem)
    requires RankSorted(items)
    requires forall k :: 0 <= k < |items| ==> Rank(items[k].id) <= Rank(item.id)
    ensures RankSorted(items + [item])
  {
    var items' := items + [item];
    forall a, b | 0 <= a < b < |items'|
      ensures Rank(items'[a].id) <= Rank(items'[b].id)
    {
      if b < |items| {
        assert items'[a] == items[a] && items'[b] == items[b];
      } else {
        assert items'[a] == items[a];
      }
    }
  }

  /** Emitting a pending group keeps the bookkeeping true. */
  lemma EmitOne(items: seq<SidebarItem>, catMap: map<string, seq<Entry>>, g: map<string, seq<Entry>>,
                cat: string, item: SidebarItem, completed: map<string, bool>, details: string -> Detail)
    requires ItemsFrom(items, g, completed, details) && DistinctIds(items) && Pending(catMap, items, g)
    requires cat in catMap && item == CategoryItem(cat, catMap[cat], completed, details)
    ensures ItemsFrom(items + [item], g, completed, details) && DistinctIds(items + [item])
    ensures Pending(catMap - {cat}, items + [item], g)
  {
    var items' := items + [item];
    assert items'[|items|] == item;
    forall c | c in g
      ensures c in catMap - {cat} <==> forall k :: 0 <= k < |items'| ==> items'[k].id != c
    {
      if c != cat && c !in catMap {
        var k :| 0 <= k < |items| && items[k].id == c;
        assert items'[k].id == c;
      }
    }
  }

  /** Groups the scenarios by category, in registration order. */
  method GroupByCategory(list: seq<Entry>) returns (catMap: map<string, seq<Entry>>)
    ensures catMap == Group(list)
  {
    catMap := map[];
    var i := 0;
    while i < |list|
      invariant 0 <= i <= |list|
      invariant catMap == Group(list[..i])
    {
      assert list[..i + 1][..i] == list[..i];
      var cat := list[i].category;
      if cat == "" {
        cat := "Uncategorized";
      }
      var group := if cat in catMap then catMap[cat] else [];
      catMap := catMap[cat := group + [list[i]]];
      i := i + 1;
    }
    assert list[..i] == list;
  }

  /** Emits, in the preferred order, the preferred categories that have a
      group, removing them from the map. */
  method EmitPreferred(catMap0: map<string, seq<Entry>>, ghost g: map<string, seq<Entry>>,
                       completed: map<string, bool>, details: string -> Detail)
    returns (items: seq<SidebarItem>, catMap: map<string, seq<Entry>>)
    requires Pending(catMap0, [], g)
    ensures ItemsFrom(items, g, completed, details) && DistinctIds(items) && RankSorted(items)
    ensures Pending(catMap, items, g)
    ensures forall c :: c in catMap ==> Rank(c) == |PreferredOrder|
  {
    items, catMap := [], catMap0;
    var j := 0;
    while j < |PreferredOrder|
      invariant 0 <= j <= |PreferredOrder|
      invariant ItemsFrom(items, g, completed, details) && DistinctIds(items) && RankSorted(items)
      invariant Pending(catMap, items, g)
      invariant forall c :: c in catMap ==> Rank(c) >= j
      invariant forall k :: 0 <= k < |items| ==> Rank(items[k].id) < j
    {
      var cat := PreferredOrder[j];
      RankOfPreferred(j);
      if cat in catMap {
        var item := CategoryItemOf(cat, catMap[cat], completed, details);
        EmitOne(items, catMap, g, cat, item, completed, details);
        AppendSorted(items, item);
        items := items + [item];
        catMap := catMap - {cat};
      }
      forall c | c in catMap
        ensures Rank(c) >= j + 1
      {
        RankPast(c, j);
      }
      j := j + 1;
    }
  }

  /** Emits the remaining categories, in whatever order the map yields
      them. */
  method EmitRest(items0: seq<SidebarItem>, catMap0: map<string, seq<Entry>>, ghost g: map<string, seq<Entry>>,
                  completed: map<string, bool>, details: string -> Detail)
    returns (items: seq<SidebarItem>)
    requires ItemsFrom(items0, g, completed, details) && DistinctIds(items0) && RankSorted(items0)
    requires Pending(catMap0, items0, g)
    requires forall c :: c in catMap0 ==> Rank(c) == |PreferredOrder|
    ensures ItemsFrom(items, g, completed, details) && DistinctIds(items) && RankSorted(items)
    ensures forall c :: c in g ==> exists k :: 0 <= k < |items| && items[k].id == c
  {
    items := items0;
    var catMap := catMap0;
    while catMap != map[]
      invariant ItemsFrom(items, g, completed, details) && DistinctIds(items) && RankSorted(items)
      invariant Pending(catMap, items, g)
      invariant forall c :: c in catMap ==> Rank(c) == |PreferredOrder|
      decreases catMap.Keys
    {
      var cat :| cat in catMap;
      var item := CategoryItemOf(cat, catMap[cat], completed, details);
      EmitOne(items, catMap, g, cat, item, completed, details);
      AppendSorted(items, item);
      items := items + [item];
      catMap := catMap - {cat};
    }
    forall c | c in g
      ensures exists k :: 0 <= k < |items| && items[k].id == c
    {
      assert c !in catMap;
    }
  }

  /** The whole construction: group, then the preferred categories, then
      the rest. */
  method BuildSidebarItems(list: seq<Entry>, completed: map<string, bool>, details: string -> Detail)
    returns (items: seq<SidebarItem>)
    ensures SidebarTree(items, list, completed, details)
  {
    var catMap := GroupByCategory(list);
    var preferred, rest := EmitPreferred(catMap, Group(list), completed, details);
    items := EmitRest(preferred, rest, Group(list), completed, details);
  }

  /** The tree satisfies the sidebar's own shape requirement: children are
      never categories and category IDs are distinct. */
  lemma TreeIsWellFormed(items: seq<SidebarItem>, list: seq<Entry>, completed: map<string, bool>, details: string -> Detail)
    requires SidebarTree(items, list, completed, details)
    ensures WellFormed(items)
  {
    forall it <- items, ch <- it.children
      ensures !ch.isCategory
    {
      var k :| 0 <= k < |items| && items[k] == it;
      var i :| 0 <= i < |it.children| && it.children[i] == ch;
    }
  }

  /** With distinct IDs, an entry of the list is the only one with its ID. */
  lemma SameIdSameEntry(list: seq<Entry>, x: Entry, e: Entry)
    requires IdsDistinct(list) && x in list && e in list && x.id == e.id
    ensures x == e
  {
    var p :| 0 <= p < |list| && list[p] == x;
    var q :| 0 <= q < |list| && list[q] == e;
    assert !(p < q) && !(q < p);
  }

  /** Every scenario of the list appears under its own category. */
  lemma ScenarioListed(items: seq<SidebarItem>, list: seq<Entry>, completed: map<string, bool>,
                       details: string -> Detail, e: Entry)
    requires SidebarTree(items, list, completed, details) && e in list
    ensures exists k :: (0 <= k < |items| && items[k].id == CategoryOf(e) &&
      ChildItem(e, CategoryOf(e), completed, details) in items[k].children)
  {
    var c := CategoryOf(e);
    GroupMeaning(list, c);
    var k :| 0 <= k < |items| && items[k].id == c;
    var s := Group(list)[c];
    assert e in s;
    var i :| 0 <= i < |s| && s[i] == e;
    assert items[k].children[i] == ChildItem(e, c, completed, details);
  }

  /** With distinct scenario IDs, a line carrying a scenario's ID sits under
      that scenario's category and is that scenario's line. */
  lemma ScenarioListedOnce(items: seq<SidebarItem>, list: seq<Entry>, completed: map<string, bool>,
                           details: string -> Detail, e: Entry, k: int, ch: SidebarItem)
    requires SidebarTree(items, list, completed, details)
    requires IdsDistinct(list) && e in list
    requires 0 <= k < |items| && ch in items[k].children && ch.id == e.id
    ensures items[k].id == CategoryOf(e) && ch == ChildItem(e, CategoryOf(e), completed, details)
  {
    var c := items[k].id;
    GroupMeaning(list, c);
    var s := Group(list)[c];
    var i :| 0 <= i < |s| && items[k].children[i] == ch;
    var x := s[i];
    assert x in s;
    SameIdSameEntry(list, x, e);
  }

  /** The number of scenarios the categories `items` hold in `s`. */
  function SizesOf(items: seq<SidebarItem>, s: seq<Entry>): nat
  {
    if |items| == 0 then 0
    else SizesOf(items[..|items| - 1], s) + |InCategory(s, items[|items| - 1].id)|
  }

  /** How many of `items` have the ID `c`. */
  function Hits(items: seq<SidebarItem>, c: string): nat
  {
    if |items| == 0 then 0
    else Hits(items[..|items| - 1], c) + (if items[|items| - 1].id == c then 1 else 0)
  }

  /** Base case of SizesCountAll: with no entries every category is empty. */
  lemma {:induction false} SizesOfEmpty(items: seq<SidebarItem>)
    ensures SizesOf(items, []) == 0
  {
    if |items| > 0 {
      SizesOfEmpty(items[..|items| - 1]);
    }
  }

  lemma {:induction false} SizesOfSnoc(items: seq<SidebarItem>, s: seq<Entry>, e: Entry)
    ensures SizesOf(items, s + [e]) == SizesOf(items, s) + Hits(items, CategoryOf(e))
  {
    var t := s + [e];
    assert t[..|t| - 1] == s;
    if |items| > 0 {
      SizesOfSnoc(items[..|items| - 1], s, e);
    }
  }

  /** Among items with distinct IDs, an ID occurs once if it occurs at
      all. */
  lemma {:induction false} HitsOfDistinct(items: seq<SidebarItem>, c: string)
    requires DistinctIds(items)
    ensures Hits(items, c) == (if exists k :: 0 <= k < |items| && items[k].id == c then 1 else 0)
  {
    if |items| > 0 {
      var init := items[..|items| - 1];
      HitsOfDistinct(init, c);
      if exists k :: 0 <= k < |init| && init[k].id == c {
        var k :| 0 <= k < |init| && init[k].id == c;
        assert items[k].id == c;
      }
      if exists k :: 0 <= k < |items| && items[k].id == c {
        var k :| 0 <= k < |items| && items[k].id == c;
        if k < |init| {
          assert init[k].id == c;
        }
      }
    }
  }

  /** Categories with distinct IDs that cover every category of `s` hold
      all of `s` between them. */
  lemma {:induction false} SizesCountAll(items: seq<SidebarItem>, s: seq<Entry>)
    requires DistinctIds(items)
    requires forall e <- s :: exists k :: 0 <= k < |items| && items[k].id == CategoryOf(e)
    ensures SizesOf(items, s) == |s|
  {
    if |s| == 0 {
      SizesOfEmpty(items);
    } else {
      var init, e := s[..|s| - 1], s[|s| - 1];
      assert s == init + [e];
      assert forall x <- init :: x in s;
      SizesCountAll(items, init);
      SizesOfSnoc(items, init, e);
      HitsOfDistinct(items, CategoryOf(e));
    }
  }

  lemma {:induction false} TotalChildrenIsSizes(items: seq<SidebarItem>, list: seq<Entry>,
                                                completed: map<string, bool>, details: string -> Detail)
    requires ItemsFrom(items, Group(list), completed, details)
    ensures TotalChildren(items) == SizesOf(items, list)
  {
    if |items| > 0 {
      var init, last := items[..|items| - 1], items[|items| - 1];
      assert ItemsFrom(init, Group(list), completed, details) by {
        forall k | 0 <= k < |init| ensures init[k] == items[k] { }
      }
      TotalChildrenIsSizes(init, list, completed, details);
      GroupMeaning(list, last.id);
    }
  }

  /** The tree holds exactly as many scenario lines as there are scenarios,
      so the sidebar's summary counts every registered scenario. */
  lemma TreeCountsEveryScenario(items: seq<SidebarItem>, list: seq<Entry>, completed: map<string, bool>,
                                details: string -> Detail)
    requires SidebarTree(items, list, completed, details)
    ensures TotalChildren(items) == |list|
  {
    TotalChildrenIsSizes(items, list, completed, details);
    forall e <- list
      ensures exists k :: 0 <= k < |items| && items[k].id == CategoryOf(e)
    {
      GroupMeaning(list, CategoryOf(e));
    }
    SizesCountAll(items, list);
  }

  /** No scenario of the catalogue is filed under "Ops". */
  lemma CatalogueHasNoOps()
    ensures forall e <- Catalogue() :: CategoryOf(e) != "Ops"
  {
    CatalogueTabulated();
  }

  /** The catalogue files its operations scenario under "Operations",
      while the preferred order names "Ops": so in a tree of scenarios none
      of which is filed under "Ops", as CatalogueHasNoOps shows of the
      catalogue, no "Ops" category appears, and "Operations" comes after
      every preferred category. */
  lemma OperationsAfterPreferred(items: seq<SidebarItem>, list: seq<Entry>, completed: map<string, bool>,
                                 details: string -> Detail, a: int, b: int)
    requires SidebarTree(items, list, completed, details)
    requires forall e <- list :: CategoryOf(e) != "Ops"
    requires 0 <= a < |items| && 0 <= b < |items|
    requires items[a].id in PreferredOrder && items[b].id == "Operations"
    ensures a < b
    ensures forall k :: 0 <= k < |items| ==> items[k].id != "Ops"
  {
    OperationsRanksLast();
    PreferredRanksEarly(items[a].id);
    assert a != b && Rank(items[a].id) < Rank(items[b].id);
    NoOpsItem(items, list, completed, details);
  }

  /** "Operations" is not among the preferred categories, so it ranks after
      all of them. */
  lemma OperationsRanksLast()
    ensures "Operations" !in PreferredOrder && Rank("Operations") == |PreferredOrder|
  {
  }

  /** A preferred category ranks before the categories that are not. */
  lemma PreferredRanksEarly(c: string)
    requires c in PreferredOrder
    ensures Rank(c) < |PreferredOrder|
  {
  }

  /** With no scenario filed under "Ops", the tree has no "Ops" item. */
  lemma NoOpsItem(items: seq<SidebarItem>, list: seq<Entry>, completed: map<string, bool>,
                  details: string -> Detail)
    requires SidebarTree(items, list, completed, details)
    requires forall e <- list :: CategoryOf(e) != "Ops"
    ensures forall k :: 0 <= k < |items| ==> items[k].id != "Ops"
  {
    GroupMeaning(list, "Ops");
  }
}
