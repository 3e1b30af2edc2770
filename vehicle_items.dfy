/** The standard and optional items of the detail page
    (frontend/src/pages/VehicleDetail/_impl/VehicleItems/main.tsx): items
    grouped by category in the order the categories first appear, each group
    showing its first ten items until it is expanded. */
module VehicleItems {
  import opened Wrappers
  import opened Text

  datatype Item = Item(nome: string, categoria: string)

  /** Groups of items by category, in the order the categories were first
      met, as `Object.entries` lists the record `groupByCategory` builds. */
  type Groups = seq<(string, seq<Item>)>

  const ItemsLimit := 10

  // ------------------------------------------------------------ grouping

  /** The position of category `c` among the groups, or -1. */
  function IndexOfCategory(g: Groups, c: string): (r: int)
    ensures -1 <= r < |g|
    ensures r >= 0 ==> g[r].0 == c && forall k :: 0 <= k < r ==> g[k].0 != c
    ensures r == -1 <==> forall k :: 0 <= k < |g| ==> g[k].0 != c
    decreases |g|
  {
    if g == [] then -1
    else if g[|g| - 1].0 == c && IndexOfCategory(g[..|g| - 1], c) == -1 then |g| - 1
    else IndexOfCategory(g[..|g| - 1], c)
  }

  /** One step of the `forEach`: the item joins the group of its category,
      which is opened at the end when there is none yet. */
  function AddItem(g: Groups, x: Item): Groups {
    var j := IndexOfCategory(g, x.categoria);
    if j < 0 then g + [(x.categoria, [x])] else g[j := (g[j].0, g[j].1 + [x])]
  }

  /** The record `groupByCategory(items)` returns. */
  function Grouped(items: seq<Item>): Groups {
    if items == [] then [] else AddItem(Grouped(items[..|items| - 1]), items[|items| - 1])
  }

  /** `groupByCategory` */
  method GroupByCategory(items: seq<Item>) returns (grouped: Groups)
    ensures grouped == Grouped(items)
  {
    grouped := [];
    var i := 0;
    while i < |items|
      invariant 0 <= i <= |items|
      invariant grouped == Grouped(items[..i])
    {
      var item := items[i];
      ghost var before := grouped;
      var j := IndexOfCategory(grouped, item.categoria);
      if j < 0 {
        grouped := grouped + [(item.categoria, [])];
        j := |grouped| - 1;
      }
      grouped := grouped[j := (grouped[j].0, grouped[j].1 + [item])];
      assert grouped == AddItem(before, item) by {
        if IndexOfCategory(before, item.categoria) < 0 {
          assert [] + [item] == [item];
        }
      }
      assert items[..i + 1][..i] == items[..i];
      i := i + 1;
    }
    assert items[..i] == items;
  }

  // ------------------------------------------------------------ what grouping means

  /** The categories of the items, each once, in the order of their first
      item. */
  function Categories(items: seq<Item>): seq<string> {
    if items == [] then []
    else
      var cs := Categories(items[..|items| - 1]);
      var c := items[|items| - 1].categoria;
      if c in cs then cs else cs + [c]
  }

  /** The items of category `c`, in their order. */
  function ItemsOf(items: seq<Item>, c: string): seq<Item> {
    if items == [] then []
    else
      var x := items[|items| - 1];
      ItemsOf(items[..|items| - 1], c) + (if x.categoria == c then [x] else [])
  }

  /** There is one group per category, in the order the categories first
      appear, and the group of a category holds exactly the items of that
      category, in their order. */
  lemma {:induction false} GroupedSpec(items: seq<Item>)
    ensures |Grouped(items)| == |Categories(items)|
    ensures forall j :: 0 <= j < |Grouped(items)| ==>
      Grouped(items)[j] == (Categories(items)[j], ItemsOf(items, Categories(items)[j]))
  {
    if items != [] {
      var init := items[..|items| - 1];
      var x := items[|items| - 1];
      var c := x.categoria;
      GroupedSpec(init);
      var g, cs := Grouped(init), Categories(init);
      var j := IndexOfCategory(g, c);
      if j < 0 {
        assert c !in cs by {
          forall k | 0 <= k < |cs| ensures cs[k] != c {
            assert g[k].0 == cs[k];
          }
        }
        ItemsOfAbsent(init, c);
        AddNewGroup(items, g, cs);
      } else {
        assert cs[j] == c;
        CategoriesMembers(init);
        AddToGroup(items, g, cs, j);
      }
    }
  }

  /** The step of `GroupedSpec` for an item of a new category. */
  lemma AddNewGroup(items: seq<Item>, g: Groups, cs: seq<string>)
    requires items != []
    requires g == Grouped(items[..|items| - 1]) && cs == Categories(items[..|items| - 1])
    requires |g| == |cs| && forall k :: 0 <= k < |g| ==> g[k] == (cs[k], ItemsOf(items[..|items| - 1], cs[k]))
    requires IndexOfCategory(g, items[|items| - 1].categoria) < 0
    requires items[|items| - 1].categoria !in cs
    requires ItemsOf(items[..|items| - 1], items[|items| - 1].categoria) == []
    ensures |Grouped(items)| == |Categories(items)|
    ensures forall k :: 0 <= k < |Grouped(items)| ==>
      Grouped(items)[k] == (Categories(items)[k], ItemsOf(items, Categories(items)[k]))
  {
    var x := items[|items| - 1];
    var init := items[..|items| - 1];
    var G, C := Grouped(items), Categories(items);
    assert G == g + [(x.categoria, [x])];
    assert C == cs + [x.categoria];
    forall k | 0 <= k < |G| ensures G[k] == (C[k], ItemsOf(items, C[k])) {
      if k < |g| {
        assert G[k] == g[k] && C[k] == cs[k];
        ItemsOfOther(items, cs[k]);
      } else {
        assert k == |g| && G[k] == (x.categoria, [x]) && C[k] == x.categoria;
        ItemsOfSame(items);
        assert [] + [x] == [x];
      }
    }
  }

  lemma ItemsOfOther(items: seq<Item>, c: string)
    requires items != [] && items[|items| - 1].categoria != c
    ensures ItemsOf(items, c) == ItemsOf(items[..|items| - 1], c)
  {
    assert ItemsOf(items, c) == ItemsOf(items[..|items| - 1], c) + [];
  }

  lemma ItemsOfSame(items: seq<Item>)
    requires items != []
    ensures var x := items[|items| - 1];
      ItemsOf(items, x.categoria) == ItemsOf(items[..|items| - 1], x.categoria) + [x]
  {
  }

  /** The step of `GroupedSpec` for an item of a category met before. */
  lemma AddToGroup(items: seq<Item>, g: Groups, cs: seq<string>, j: int)
    requires items != []
    requires g == Grouped(items[..|items| - 1]) && cs == Categories(items[..|items| - 1])
    requires |g| == |cs| && forall k :: 0 <= k < |g| ==> g[k] == (cs[k], ItemsOf(items[..|items| - 1], cs[k]))
    requires j == IndexOfCategory(g, items[|items| - 1].categoria) && 0 <= j
    requires forall a, b :: 0 <= a < b < |cs| ==> cs[a] != cs[b]
    ensures |Grouped(items)| == |Categories(items)|
    ensures forall k :: 0 <= k < |Grouped(items)| ==>
      Grouped(items)[k] == (Categories(items)[k], ItemsOf(items, Categories(items)[k]))
  {
    var x := items[|items| - 1];
    var init := items[..|items| - 1];
    var G, C := Grouped(items), Categories(items);
    assert cs[j] == x.categoria;
    assert C == cs;
    assert G == g[j := (g[j].0, g[j].1 + [x])];
    forall k | 0 <= k < |G| ensures G[k] == (C[k], ItemsOf(items, C[k])) {
      if k != j {
        assert G[k] == g[k] && cs[k] != x.categoria;
        ItemsOfOther(items, cs[k]);
      } else {
        ItemsOfSame(items);
      }
    }
  }

  /** A category with no item has no items. */
  lemma {:induction false} ItemsOfAbsent(items: seq<Item>, c: string)
    requires c !in Categories(items)
    ensures ItemsOf(items, c) == []
  {
    if items != [] {
      var init := items[..|items| - 1];
      assert c !in Categories(init);
      ItemsOfAbsent(init, c);
    }
  }

  /** The categories are those of the items, each once. */
  lemma {:induction false} CategoriesMembers(items: seq<Item>)
    ensures forall c :: c in Categories(items) <==> exists i :: 0 <= i < |items| && items[i].categoria == c
    ensures forall a, b :: 0 <= a < b < |Categories(items)| ==> Categories(items)[a] != Categories(items)[b]
  {
    if items != [] {
      var init := items[..|items| - 1];
      CategoriesMembers(init);
      assert forall i :: 0 <= i < |init| ==> init[i] == items[i];
    }
  }

  /** The number of items over all groups. */
  function TotalSize(g: Groups): nat {
    if g == [] then 0 else TotalSize(g[..|g| - 1]) + |g[|g| - 1].1|
  }

  lemma {:induction false} TotalSizeUpdate(g: Groups, j: int, x: Item)
    requires 0 <= j < |g|
    ensures TotalSize(g[j := (g[j].0, g[j].1 + [x])]) == TotalSize(g) + 1
    decreases |g|
  {
    var h := g[j := (g[j].0, g[j].1 + [x])];
    if j < |g| - 1 {
      assert h[..|h| - 1] == g[..|g| - 1][j := (g[j].0, g[j].1 + [x])];
      TotalSizeUpdate(g[..|g| - 1], j, x);
    } else {
      assert h[..|h| - 1] == g[..|g| - 1];
    }
  }

  /** Every item lands in exactly one group: the sizes add up to the count. */
  lemma {:induction false} GroupSizesSum(items: seq<Item>)
    ensures TotalSize(Grouped(items)) == |items|
  {
    if items != [] {
      var init := items[..|items| - 1];
      var x := items[|items| - 1];
      GroupSizesSum(init);
      var g := Grouped(init);
      var j := IndexOfCategory(g, x.categoria);
      if j < 0 {
        assert (g + [(x.categoria, [x])])[..|g|] == g;
      } else {
        TotalSizeUpdate(g, j, x);
      }
    }
  }

  // ------------------------------------------------------------ expanding

  /** `expandedCategories[category]`: an unknown category is collapsed. */
  function IsExpanded(expanded: map<string, bool>, category: string): bool {
    category in expanded && expanded[category]
  }

  class ItemsView {
    /** `expandedCategories` */
    var expandedCategories: map<string, bool>

    constructor ()
      ensures expandedCategories == map[]
    {
      expandedCategories := map[];
    }

    /** `toggleCategory` */
    method ToggleCategory(category: string)
      modifies this
      ensures expandedCategories ==
        old(expandedCategories)[category := !IsExpanded(old(expandedCategories), category)]
    {
      expandedCategories := expandedCategories[category := !IsExpanded(expandedCategories, category)];
    }
  }

  /** The map after a toggle. */
  function Toggled(expanded: map<string, bool>, category: string): map<string, bool> {
    expanded[category := !IsExpanded(expanded, category)]
  }

  /** A toggle flips the named category and no other. */
  lemma ToggleFlipsOne(expanded: map<string, bool>, category: string, other: string)
    ensures IsExpanded(Toggled(expanded, category), category) == !IsExpanded(expanded, category)
    ensures other != category ==> IsExpanded(Toggled(expanded, category), other) == IsExpanded(expanded, other)
  {
  }

  /** Two toggles leave every category as it was. */
  lemma ToggleTwice(expanded: map<string, bool>, category: string, c: string)
    ensures IsExpanded(Toggled(Toggled(expanded, category), category), c) == IsExpanded(expanded, c)
  {
    ToggleFlipsOne(expanded, category, c);
    ToggleFlipsOne(Toggled(expanded, category), category, c);
  }

  // ------------------------------------------------------------ rendering

  /** `visibleItems` */
  function VisibleItems(items: seq<Item>, isExpanded: bool): seq<Item> {
    if isExpanded || |items| <= ItemsLimit then items else items[..ItemsLimit]
  }

  /** `hasMore` */
  predicate HasMore(items: seq<Item>) {
    |items| > ItemsLimit
  }

  /** The text of the button of a group, shown only when it has more. */
  function ButtonLabel(items: seq<Item>, isExpanded: bool): Option<string> {
    if !HasMore(items) then None
    else if isExpanded then Some("Ver menos")
    else Some("Ver mais (" + IntegerString(|items| - ItemsLimit) + " itens)")
  }

  /** A collapsed group shows its first items, up to ten, and hides some
      exactly when it has more than ten; an expanded one shows all. */
  lemma VisibleItemsSpec(items: seq<Item>, isExpanded: bool)
    ensures var v := VisibleItems(items, isExpanded);
      && (isExpanded ==> v == items)
      && (!isExpanded ==> |v| == (if |items| < ItemsLimit then |items| else ItemsLimit) && v == items[..|v|])
      && (!isExpanded ==> (HasMore(items) <==> |v| < |items|))
  {
    if !isExpanded && |items| <= ItemsLimit {
      assert items[..|items|] == items;
    }
  }

  /** The button is there exactly when the group has more than ten items;
      collapsed, it counts the items hidden. */
  lemma ButtonLabelSpec(items: seq<Item>, isExpanded: bool)
    ensures ButtonLabel(items, isExpanded).Some? <==> HasMore(items)
    ensures !isExpanded && HasMore(items) ==>
      var v := VisibleItems(items, isExpanded);
      ButtonLabel(items, isExpanded) == Some("Ver mais (" + IntegerString(|items| - |v|) + " itens)")
  {
    if !isExpanded && HasMore(items) {
      assert |VisibleItems(items, isExpanded)| == ItemsLimit;
    }
  }

  datatype GroupView = GroupView(category: string, visible: seq<Item>, button: Option<string>)

  function ViewGroup(category: string, items: seq<Item>, expanded: map<string, bool>): GroupView {
    var e := IsExpanded(expanded, category);
    GroupView(category, VisibleItems(items, e), ButtonLabel(items, e))
  }

  /** `renderItemGroup`: nothing for no items, else one view per group. */
  function RenderItemGroup(items: seq<Item>, expanded: map<string, bool>): Option<seq<GroupView>> {
    if |items| == 0 then None
    else
      var g := Grouped(items);
      Some(seq(|g|, j requires 0 <= j < |g| => ViewGroup(g[j].0, g[j].1, expanded)))
  }

  /** The two sections: standard items, then the optional ones, the second
      only when there are optional items. */
  function Sections(itensSerie: seq<Item>, opcionais: seq<Item>, expanded: map<string, bool>)
    : (Option<seq<GroupView>>, Option<seq<GroupView>>)
  {
    (RenderItemGroup(itensSerie, expanded),
     if |opcionais| > 0 then RenderItemGroup(opcionais, expanded) else None)
  }

  /** A section is shown exactly when it has items, with one view per
      category, each listing the first items of its own category. */
  lemma SectionsSpec(itensSerie: seq<Item>, opcionais: seq<Item>, expanded: map<string, bool>)
    ensures var (s, o) := Sections(itensSerie, opcionais, expanded);
      && (s.Some? <==> itensSerie != []) && (o.Some? <==> opcionais != [])
      && (s.Some? ==>
            && |s.value| == |Categories(itensSerie)|
            && forall j :: 0 <= j < |s.value| ==>
                 && s.value[j].category == Categories(itensSerie)[j]
                 && s.value[j].visible == VisibleItems(ItemsOf(itensSerie, s.value[j].category),
                                                       IsExpanded(expanded, s.value[j].category)))
  {
    GroupedSpec(itensSerie);
  }
}
