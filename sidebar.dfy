/** The sidebar of the dashboard (pkg/tui/components/sidebar.go): a tree of
    categories holding scenarios, shown as a flat list in which a category's
    children appear only while it is expanded, with a cursor, an
    expand/collapse map and a completion summary. Keys arrive by their
    Bubbletea names ("up", "k", "G", ...). */
module Sidebar {
  import opened Common

  datatype SidebarItem = SidebarItem(
    id: string,
    title: string,
    description: string,
    isCategory: bool,
    category: string,
    completed: bool,
    children: seq<SidebarItem>)

  /** A Go map lookup of a boolean: a missing key reads as false. */
  predicate IsExpanded(e: map<string, bool>, id: string)
  {
    id in e && e[id]
  }

  /** The lines an item contributes to the flat list: itself, then its
      children when it is an expanded category. */
  function Visible(it: SidebarItem, e: map<string, bool>): (r: seq<SidebarItem>)
    ensures |r| >= 1 && r[0] == it
    ensures r[1..] == (if it.isCategory && IsExpanded(e, it.id) then it.children else [])
  {
    [it] + (if it.isCategory && IsExpanded(e, it.id) then it.children else [])
  }

  /** The visible items in display order: each top-level item followed by
      the children of the expanded categories. */
  function Flatten(items: seq<SidebarItem>, e: map<string, bool>): (r: seq<SidebarItem>)
    ensures |r| >= |items|
    ensures forall it <- items :: it in r
    ensures forall x <- r :: x in items || exists it <- items :: it.isCategory && IsExpanded(e, it.id) && x in it.children
  {
    if |items| == 0 then [] else Flatten(items[..|items| - 1], e) + Visible(items[|items| - 1], e)
  }

  /** The flat list of a concatenation is the concatenation of flat lists. */
  lemma {:induction false} FlattenAppend(a: seq<SidebarItem>, b: seq<SidebarItem>, e: map<string, bool>)
    ensures Flatten(a + b, e) == Flatten(a, e) + Flatten(b, e)
    decreases |b|
  {
    if |b| == 0 {
      assert a + b == a;
    } else {
      var b' := b[..|b| - 1];
      assert (a + b)[..|a + b| - 1] == a + b';
      assert (a + b)[|a + b| - 1] == b[|b| - 1];
      FlattenAppend(a, b', e);
    }
  }

  /** With every category collapsed, the flat list is the top-level list. */
  lemma {:induction false} CollapsedFlattenIsItems(items: seq<SidebarItem>, e: map<string, bool>)
    requires forall it <- items :: !(it.isCategory && IsExpanded(e, it.id))
    ensures Flatten(items, e) == items
  {
    if |items| > 0 {
      var init := items[..|items| - 1];
      CollapsedFlattenIsItems(init, e);
      assert items == init + [items[|items| - 1]];
    }
  }

  /** The tree the dashboard builds: categories at the top, no category
      among the children, and no two categories sharing an ID. */
  predicate WellFormed(items: seq<SidebarItem>)
  {
    (forall it <- items, c <- it.children :: !c.isCategory) &&
    (forall i, j :: 0 <= i < j < |items| && items[i].isCategory && items[j].isCategory ==>
       items[i].id != items[j].id)
  }

  /** In a well-formed tree, a category line of the flat list is a top-level
      item, and it sits right after the lines of the items before it. */
  lemma {:induction false} CategoryLineIsTopLevel(items: seq<SidebarItem>, e: map<string, bool>, c: int)
    requires forall it <- items, ch <- it.children :: !ch.isCategory
    requires 0 <= c < |Flatten(items, e)| && Flatten(items, e)[c].isCategory
    ensures exists k :: 0 <= k < |items| && c == |Flatten(items[..k], e)| && items[k] == Flatten(items, e)[c]
  {
    var n := |items|;
    var init := items[..n - 1];
    assert Flatten(items, e) == Flatten(init, e) + Visible(items[n - 1], e);
    if c < |Flatten(init, e)| {
      assert forall it <- init :: it in items;
      CategoryLineIsTopLevel(init, e, c);
      var k :| 0 <= k < |init| && c == |Flatten(init[..k], e)| && init[k] == Flatten(init, e)[c];
      assert init[..k] == items[..k];
      assert Flatten(items, e)[c] == Flatten(init, e)[c];
      assert items[k] == init[k];
    } else {
      CategoryLineOfLastItem(items, e, c);
      assert items[..n - 1] == init;
    }
  }

  /** A category line among the last item's lines is that item itself;
      the step of CategoryLineIsTopLevel past the lines of the other items. */
  lemma CategoryLineOfLastItem(items: seq<SidebarItem>, e: map<string, bool>, c: int)
    requires |items| > 0 && forall ch <- items[|items| - 1].children :: !ch.isCategory
    requires |Flatten(items[..|items| - 1], e)| <= c < |Flatten(items, e)| && Flatten(items, e)[c].isCategory
    ensures c == |Flatten(items[..|items| - 1], e)| && Flatten(items, e)[c] == items[|items| - 1]
  {
    var v := Visible(items[|items| - 1], e);
    var j := c - |Flatten(items[..|items| - 1], e)|;
    assert Flatten(items, e)[c] == v[j];
    forall i | 1 <= i < |v|
      ensures !v[i].isCategory
    {
      assert v[i] == v[1..][i - 1];
    }
  }

  /** Changing the expansion of `id` leaves alone the flat list of items
      among which no category has that ID. */
  lemma {:induction false} FlattenIgnoresOtherIds(items: seq<SidebarItem>, e: map<string, bool>, id: string, b: bool)
    requires forall it <- items :: it.isCategory ==> it.id != id
    ensures Flatten(items, e[id := b]) == Flatten(items, e)
  {
    if |items| > 0 {
      var init := items[..|items| - 1];
      assert forall it <- init :: it in items;
      FlattenIgnoresOtherIds(init, e, id, b);
      assert Visible(items[|items| - 1], e[id := b]) == Visible(items[|items| - 1], e);
    }
  }

  /** The flat list around the `k`-th top-level item. */
  lemma FlattenSplitAt(items: seq<SidebarItem>, e: map<string, bool>, k: int)
    requires 0 <= k < |items|
    ensures Flatten(items, e) == Flatten(items[..k], e) + Visible(items[k], e) + Flatten(items[k + 1..], e)
  {
    var x, pre, post := items[k], items[..k], items[k + 1..];
    assert items == (pre + [x]) + post;
    assert (pre + [x])[..k] == pre;
    assert Flatten(pre + [x], e) == Flatten(pre, e) + Visible(x, e);
    FlattenAppend(pre + [x], post, e);
  }

  /** In a well-formed tree, collapsing or expanding the category under the
      cursor keeps the cursor on that category: only lines after it appear
      or disappear, so the cursor never falls past the list. */
  lemma CollapseKeepsSelection(items: seq<SidebarItem>, e: map<string, bool>, c: int, b: bool)
    requires WellFormed(items)
    requires 0 <= c < |Flatten(items, e)| && Flatten(items, e)[c].isCategory
    ensures c < |Flatten(items, e[Flatten(items, e)[c].id := b])|
    ensures Flatten(items, e[Flatten(items, e)[c].id := b])[c] == Flatten(items, e)[c]
  {
    var x := Flatten(items, e)[c];
    var e' := e[x.id := b];
    CategoryLineIsTopLevel(items, e, c);
    var k :| 0 <= k < |items| && c == |Flatten(items[..k], e)| && items[k] == x;
    var before := items[..k];
    CategoriesBeforeDiffer(items, k);
    FlattenIgnoresOtherIds(before, e, x.id, b);
    FlattenSplitAt(items, e', k);
    IndexAfterPrefix(Flatten(before, e), Visible(items[k], e'), Flatten(items[k + 1..], e'));
  }

  /** In a well-formed tree no category before a category item shares its
      ID. */
  lemma CategoriesBeforeDiffer(items: seq<SidebarItem>, k: int)
    requires WellFormed(items) && 0 <= k < |items| && items[k].isCategory
    ensures forall it <- items[..k] :: it.isCategory ==> it.id != items[k].id
  {
    forall it <- items[..k] | it.isCategory
      ensures it.id != items[k].id
    {
      var i :| 0 <= i < k && items[..k][i] == it;
      assert items[i] == it;
    }
  }

  /** The first element after a prefix sits at the prefix's length; the
      indexing step of CollapseKeepsSelection. */
  lemma IndexAfterPrefix<T>(pre: seq<T>, v: seq<T>, post: seq<T>)
    requires |v| > 0
    ensures |pre| < |pre + v + post| && (pre + v + post)[|pre|] == v[0]
  {
  }

  /** Go's `m[id] = true` for every category of `s`, in order. */
  function ExpandCategories(m: map<string, bool>, s: seq<SidebarItem>): map<string, bool>
  {
    if |s| == 0 then m
    else
      var m' := ExpandCategories(m, s[..|s| - 1]);
      if s[|s| - 1].isCategory then m'[s[|s| - 1].id := true] else m'
  }

  /** Some category of `s` has this ID. */
  predicate IsCategoryOf(s: seq<SidebarItem>, id: string)
  {
    exists it <- s :: it.isCategory && it.id == id
  }

  /** After expanding, exactly the categories of `s` are added or set to
      true; every other entry keeps its key and value. */
  lemma {:induction false} ExpandCategoriesMeaning(m: map<string, bool>, s: seq<SidebarItem>, id: string)
    ensures id in ExpandCategories(m, s) <==> id in m || IsCategoryOf(s, id)
    ensures IsCategoryOf(s, id) ==> ExpandCategories(m, s)[id]
    ensures !IsCategoryOf(s, id) && id in m ==> ExpandCategories(m, s)[id] == m[id]
  {
    if |s| > 0 {
      var init := s[..|s| - 1];
      var last := s[|s| - 1];
      ExpandCategoriesMeaning(m, init, id);
      assert forall it <- init :: it in s;
      assert IsCategoryOf(s, id) <==> IsCategoryOf(init, id) || (last.isCategory && last.id == id) by {
        if IsCategoryOf(s, id) {
          var it :| it in s && it.isCategory && it.id == id;
          var i :| 0 <= i < |s| && s[i] == it;
          if i < |s| - 1 {
            assert init[i] == it;
          }
        }
      }
    }
  }

  /** The number of completed items in a list. */
  function CountCompleted(cs: seq<SidebarItem>): (r: nat)
    ensures r <= |cs|
  {
    if |cs| == 0 then 0
    else CountCompleted(cs[..|cs| - 1]) + (if cs[|cs| - 1].completed then 1 else 0)
  }

  /** The number of children over all items. */
  function TotalChildren(items: seq<SidebarItem>): nat
  {
    if |items| == 0 then 0
    else TotalChildren(items[..|items| - 1]) + |items[|items| - 1].children|
  }

  /** The number of completed children over all items; never more than the
      number of children. */
  function CompletedChildren(items: seq<SidebarItem>): (r: nat)
    ensures r <= TotalChildren(items)
  {
    if |items| == 0 then 0
    else CompletedChildren(items[..|items| - 1]) + CountCompleted(items[|items| - 1].children)
  }

  /** The completion percentage of the summary, truncated. */
  function Percentage(completed: int, total: int): (p: int)
    ensures total <= 0 ==> p == 0
    ensures total > 0 && completed >= 0 ==> p * total <= completed * 100 < (p + 1) * total
  {
    if total > 0 then
      var q := GoDiv(completed * 100, total);
      assert completed >= 0 ==> q * total <= completed * 100 < (q + 1) * total by {
        if completed >= 0 {
          GoDivNonNegative(completed * 100, total);
          var rem := completed * 100 % total;
          assert completed * 100 == q * total + rem && 0 <= rem < total;
          assert (q + 1) * total == q * total + total;
        }
      }
      q
    else 0
  }

  /** With no more completed than total, the percentage lies in [0, 100]
      and reaches 100 exactly when everything is completed. */
  lemma PercentageBounds(completed: int, total: int)
    requires 0 <= completed <= total
    ensures 0 <= Percentage(completed, total) <= 100
    ensures total > 0 ==> (Percentage(completed, total) == 100 <==> completed == total)
  {
    if total > 0 {
      GoDivNonNegative(completed * 100, total);
      var p := completed * 100 / total;
      var r := completed * 100 % total;
      assert completed * 100 == p * total + r && 0 <= r < total;
      ProductSign(p, total);
      ProductSign(p - 100, total);
      assert (p - 100) * total == p * total - 100 * total;
      if completed == total {
        assert (p - 100) * total == -r;
      } else {
        assert (p - 100) * total < 0;
      }
    }
  }

  /** The width of the summary bar: 6 columns less than the sidebar, capped
      at 20. */
  function BarWidth(width: int): (r: int)
    ensures r <= 20 && r <= width - 6
    ensures r == 20 || r == width - 6
  {
    if width - 6 > 20 then 20 else width - 6
  }

  /** The summary bar: `filled` full cells followed by `empty` light ones. */
  datatype Bar = Bar(filled: int, empty: int)

  /** The summary bar for a sidebar `width` columns wide, or None where Go's
      strings.Repeat would be given a negative count and panic. */
  function SummaryBar(width: int, completed: int, total: int): (b: Option<Bar>)
    ensures b.Some? ==> 0 <= b.value.filled && 0 <= b.value.empty && b.value.filled + b.value.empty == BarWidth(width)
    ensures b.Some? ==> b.value.filled == GoDiv(BarWidth(width) * Percentage(completed, total), 100)
    ensures b.None? <==>
      (GoDiv(BarWidth(width) * Percentage(completed, total), 100) < 0 ||
       BarWidth(width) < GoDiv(BarWidth(width) * Percentage(completed, total), 100))
  {
    var bw := BarWidth(width);
    var filled := GoDiv(bw * Percentage(completed, total), 100);
    if filled < 0 || bw - filled < 0 then None else Some(Bar(filled, bw - filled))
  }

  /** The product of `bw` cells and `p` percent lies between none and
      `bw * 100`, and below 100 percent it falls short of `bw * 100` by at
      least `bw`. */
  lemma ScaledCells(bw: int, p: int)
    requires 0 <= bw && 0 <= p <= 100
    ensures 0 <= bw * p <= bw * 100
    ensures p < 100 ==> bw * p <= bw * 100 - bw
    ensures p == 100 ==> bw * p == bw * 100
    ensures bw == 0 ==> bw * p == 0
  {
    assert bw * p >= 0;
    assert bw * (100 - p) >= 0;
    if p < 100 {
      assert bw * (99 - p) >= 0;
    }
  }

  /** `p` percent of `bw` cells, truncated: between none and all of them,
      and all of them only at 100 percent (or when there are none). */
  lemma FilledCells(bw: int, p: int)
    requires 0 <= bw && 0 <= p <= 100
    ensures 0 <= bw * p / 100 <= bw
    ensures bw * p / 100 == bw <==> p == 100 || bw == 0
  {
    ScaledCells(bw, p);
    var a := bw * p;
    var q, r := a / 100, a % 100;
    assert a == q * 100 + r && 0 <= r < 100;
  }

  /** From 6 columns on, the bar fits its width exactly, and it is full
      exactly when everything is completed. */
  lemma SummaryBarWide(width: int, completed: int, total: int)
    requires 0 <= completed <= total && width >= 6
    ensures SummaryBar(width, completed, total).Some?
    ensures SummaryBar(width, completed, total).value.filled +
      SummaryBar(width, completed, total).value.empty == BarWidth(width)
    ensures 0 < total && BarWidth(width) > 0 ==>
      (SummaryBar(width, completed, total).value.empty == 0 <==> completed == total)
  {
    PercentageBounds(completed, total);
    var bw := BarWidth(width);
    var p := Percentage(completed, total);
    GoDivNonNegative(bw * p, 100);
    FilledCells(bw, p);
  }

  /** Below 6 columns the bar's width is negative and drawing it panics. */
  lemma SummaryBarNarrow(width: int, completed: int, total: int)
    requires 0 <= completed <= total && width < 6
    ensures SummaryBar(width, completed, total).None?
  {
    PercentageBounds(completed, total);
    var bw := BarWidth(width);
    var p := Percentage(completed, total);
    var a := bw * p;
    assert a <= 0 by {
      assert (-bw) * p >= 0;
    }
    var filled := GoDiv(a, 100);
    assert a - filled * 100 > -100;
    ProductSign(filled, 100);
  }

  /** The title of a scenario line for a sidebar `width` columns wide: cut
      to `width - 10` characters, the last two being "..", when it is longer
      than that and the room exceeds 3. */
  function TruncateTitle(title: string, width: int): (r: string)
    ensures var tw := width - 10;
      if |title| > tw && tw > 3
      then |r| == tw && r == title[..tw - 2] + ".."
      else r == title
    ensures width - 10 > 3 ==> |r| <= width - 10
  {
    var tw := width - 10;
    if |title| > tw && tw > 3 then title[..tw - 2] + ".." else title
  }

  /** Every field of the sidebar, as one value. */
  datatype SidebarState = SidebarState(
    items: seq<SidebarItem>,
    cursor: int,
    expanded: map<string, bool>,
    width: int,
    height: int,
    focused: bool,
    completedCount: int,
    totalCount: int)

  /** The cursor is on one of the visible lines of `items`, or no line is
      visible. */
  predicate OnLine(items: seq<SidebarItem>, e: map<string, bool>, cursor: int)
  {
    var n := |Flatten(items, e)|;
    n == 0 || 0 <= cursor < n
  }

  /** The sidebar after one key press, as a value: an unfocused sidebar
      ignores the key; up and down move by one line without leaving the
      visible list, g and G jump to its ends, left and right collapse or
      expand the category under the cursor. Only the cursor and the
      expansion map ever change. */
  function AfterKey(s: SidebarState, key: string): (r: SidebarState)
    ensures r == s.(cursor := r.cursor, expanded := r.expanded)
    ensures !s.focused ==> r == s
    ensures r.expanded != s.expanded ==>
      key in {"left", "h", "right", "l"} && 0 <= s.cursor < |Flatten(s.items, s.expanded)| &&
      Flatten(s.items, s.expanded)[s.cursor].isCategory &&
      r.expanded == s.expanded[Flatten(s.items, s.expanded)[s.cursor].id := key in {"right", "l"}]
    ensures s.focused && key in {"up", "k", "down", "j"} ==> -1 <= r.cursor - s.cursor <= 1
  {
    if !s.focused then s
    else
      var flat := Flatten(s.items, s.expanded);
      if key in {"up", "k"} then s.(cursor := if s.cursor > 0 then s.cursor - 1 else s.cursor)
      else if key in {"down", "j"} then s.(cursor := if s.cursor < |flat| - 1 then s.cursor + 1 else s.cursor)
      else if key in {"left", "h", "right", "l"} then
        if 0 <= s.cursor < |flat| && flat[s.cursor].isCategory
        then s.(expanded := s.expanded[flat[s.cursor].id := key in {"right", "l"}])
        else s
      else if key == "g" then s.(cursor := 0)
      else if key == "G" then s.(cursor := |flat| - 1)
      else s
  }

  /** A well-formed tree with the cursor on a line. */
  predicate Ready(items: seq<SidebarItem>, e: map<string, bool>, cursor: int)
  {
    WellFormed(items) && OnLine(items, e, cursor)
  }

  class SidebarModel {
    var items: seq<SidebarItem>
    var cursor: int
    var expanded: map<string, bool>
    var width: int
    var height: int
    var focused: bool
    var completedCount: int
    var totalCount: int

    ghost function Snapshot(): SidebarState
      reads this
    {
      SidebarState(items, cursor, expanded, width, height, focused, completedCount, totalCount)
    }

    /** The visible lines. */
    function Flat(): seq<SidebarItem>
      reads this
    {
      Flatten(items, expanded)
    }

    /** The cursor is on a line, or the list is empty. */
    ghost predicate CursorOnLine()
      reads this
    {
      OnLine(items, expanded, cursor)
    }

    constructor ()
      ensures Snapshot() == SidebarState([], 0, map[], 0, 0, false, 0, 0)
    {
      items, cursor, expanded := [], 0, map[];
      width, height, focused, completedCount, totalCount := 0, 0, false, 0, 0;
    }

    /** Installs a new tree: the cursor goes to the top, every category is
        expanded, and the summary counts the children and the completed
        ones. */
    method SetItems(newItems: seq<SidebarItem>)
      modifies this
      ensures Snapshot() == old(Snapshot()).(items := newItems, cursor := 0,
        expanded := ExpandCategories(old(expanded), newItems),
        totalCount := TotalChildren(newItems), completedCount := CompletedChildren(newItems))
      ensures CursorOnLine()
    {
      var e := expanded;
      var i := 0;
      while i < |newItems|
        invariant 0 <= i <= |newItems|
        invariant e == ExpandCategories(old(expanded), newItems[..i])
      {
        assert newItems[..i + 1][..i] == newItems[..i];
        if newItems[i].isCategory {
          e := e[newItems[i].id := true];
        }
        i := i + 1;
      }
      assert newItems[..i] == newItems;
      var total, done := 0, 0;
      i := 0;
      while i < |newItems|
        invariant 0 <= i <= |newItems|
        invariant total == TotalChildren(newItems[..i])
        invariant done == CompletedChildren(newItems[..i])
      {
        assert newItems[..i + 1][..i] == newItems[..i];
        var cs := newItems[i].children;
        var j := 0;
        while j < |cs|
          invariant 0 <= j <= |cs|
          invariant total == TotalChildren(newItems[..i]) + j
          invariant done == CompletedChildren(newItems[..i]) + CountCompleted(cs[..j])
        {
          assert cs[..j + 1][..j] == cs[..j];
          total := total + 1;
          if cs[j].completed {
            done := done + 1;
          }
          j := j + 1;
        }
        assert cs[..j] == cs;
        i := i + 1;
      }
      assert newItems[..i] == newItems;
      items, cursor, expanded := newItems, 0, e;
      totalCount, completedCount := total, done;
    }

    method SetSize(w: int, h: int)
      modifies this
      ensures Snapshot() == old(Snapshot()).(width := w, height := h)
    {
      width, height := w, h;
    }

    method SetFocus(f: bool)
      modifies this
      ensures Snapshot() == old(Snapshot()).(focused := f)
    {
      focused := f;
    }

    /** The item under the cursor, absent exactly when the cursor is off the
        visible list. */
    function SelectedItem(): (r: Option<SidebarItem>)
      reads this
      ensures r.None? <==> !(0 <= cursor < |Flat()|)
      ensures r.Some? ==> r.value == Flat()[cursor]
    {
      var flat := Flatten(items, expanded);
      if 0 <= cursor < |flat| then Some(flat[cursor]) else None
    }

    /** One key press. An unfocused sidebar ignores it. Up and down move by
        one line without leaving the list, g and G jump to its ends (G to -1
        on an empty list), left and right collapse or expand the category
        under the cursor. */
    method Update(key: string)
      modifies this
      ensures !old(focused) ==> Snapshot() == old(Snapshot())
      ensures old(focused) && key in {"up", "k"} ==>
        Snapshot() == old(Snapshot()).(cursor := if old(cursor) > 0 then old(cursor) - 1 else old(cursor))
      ensures old(focused) && key in {"down", "j"} ==>
        Snapshot() == old(Snapshot()).(cursor :=
          if old(cursor) < |old(Flat())| - 1 then old(cursor) + 1 else old(cursor))
      ensures old(focused) && key in {"left", "h", "right", "l"} ==>
        var sel := old(SelectedItem());
        Snapshot() == (if sel.Some? && sel.value.isCategory
          then old(Snapshot()).(expanded := old(expanded)[sel.value.id := key in {"right", "l"}])
          else old(Snapshot()))
      ensures old(focused) && key == "g" ==> Snapshot() == old(Snapshot()).(cursor := 0)
      ensures old(focused) && key == "G" ==> Snapshot() == old(Snapshot()).(cursor := |old(Flat())| - 1)
      ensures old(focused) && key !in {"up", "k", "down", "j", "left", "h", "right", "l", "g", "G"} ==>
        Snapshot() == old(Snapshot())
      ensures Snapshot() == AfterKey(old(Snapshot()), key)
    {
      if !focused {
        return;
      }
      var flat := Flatten(items, expanded);
      if key in {"up", "k"} {
        if cursor > 0 {
          cursor := cursor - 1;
        }
      } else if key in {"down", "j"} {
        if cursor < |flat| - 1 {
          cursor := cursor + 1;
        }
      } else if key in {"left", "h"} {
        var sel := SelectedItem();
        if sel.Some? && sel.value.isCategory {
          expanded := expanded[sel.value.id := false];
        }
      } else if key in {"right", "l"} {
        var sel := SelectedItem();
        if sel.Some? && sel.value.isCategory {
          expanded := expanded[sel.value.id := true];
        }
      } else if key == "g" {
        cursor := 0;
      } else if key == "G" {
        cursor := |flat| - 1;
      }
    }
  }

  /** On a well-formed tree, every key keeps the cursor on a line of the
      visible list, and collapsing or expanding keeps it on the same
      category. */
  method UpdateKeepsCursorOnLine(s: SidebarModel, key: string)
    requires WellFormed(s.items) && s.CursorOnLine()
    modifies s
    ensures WellFormed(s.items) && s.CursorOnLine()
    ensures key in {"left", "h", "right", "l"} ==> s.SelectedItem() == old(s.SelectedItem())
    ensures s.Snapshot() == old(s.Snapshot()).(cursor := s.cursor, expanded := s.expanded)
    ensures s.Snapshot() == AfterKey(old(s.Snapshot()), key)
  {
    var sel := s.SelectedItem();
    if sel.Some? && sel.value.isCategory && s.focused && key in {"left", "h", "right", "l"} {
      CollapseKeepsSelection(s.items, s.expanded, s.cursor, key in {"right", "l"});
    }
    s.Update(key);
  }
}
