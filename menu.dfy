/** The menu page (`MenuSection` and `MenuCategory`): menu items are grouped
    under their categories by matching `item.category` against `category.id`,
    and each category renders its items in order. */
module Menu {
  import opened Sequences

  /** A menu category as the page reads it (`id`, `name`, `emoji`, `timeRange`). */
  datatype Category = Category(id: string, name: string, emoji: string, timeRange: string)

  /** A menu item; `category` refers to a category `id`. */
  datatype Item = Item(
    id: string, category: string, name: string, emoji: string,
    description: string, price: string, image: string)

  /** `{ ...category, items }`: a category's fields together with its items. */
  datatype Group = Group(category: Category, items: seq<Item>)

  // ---------------------------------------------------------------------------
  // Grouping
  // ---------------------------------------------------------------------------

  /** `items.filter((item) => item.category === id)`. */
  function ItemsOf(items: seq<Item>, id: string): (r: seq<Item>)
    ensures |r| <= |items|
    ensures forall x :: x in r <==> x in items && x.category == id
  {
    if items == [] then []
    else if items[0].category == id then [items[0]] + ItemsOf(items[1..], id)
    else ItemsOf(items[1..], id)
  }

  /** `categories.map((category) => ({ ...category, items: ItemsOf(items, category.id) }))`. */
  function GroupByCategory(categories: seq<Category>, items: seq<Item>): (groups: seq<Group>)
    ensures |groups| == |categories|
    ensures forall k :: 0 <= k < |groups| ==> groups[k].category == categories[k]
    ensures forall k, x :: 0 <= k < |groups| && x in groups[k].items ==>
      x in items && x.category == categories[k].id
  {
    if categories == [] then []
    else
      [Group(categories[0], ItemsOf(items, categories[0].id))]
        + GroupByCategory(categories[1..], items)
  }

  /** The items of group `k` are the items selected by its category's id. */
  lemma {:induction false} GroupItems(categories: seq<Category>, items: seq<Item>, k: nat)
    requires k < |categories|
    ensures GroupByCategory(categories, items)[k].items == ItemsOf(items, categories[k].id)
  {
    if k > 0 {
      GroupItems(categories[1..], items, k - 1);
    }
  }

  /** A group holds exactly the items whose category is the group's id. */
  lemma GroupMembership(categories: seq<Category>, items: seq<Item>, k: nat, x: Item)
    requires k < |categories|
    ensures x in GroupByCategory(categories, items)[k].items <==>
      x in items && x.category == categories[k].id
  {
    GroupItems(categories, items, k);
  }

  /** Filtering keeps the items in their original relative order. */
  lemma {:induction false} ItemsOfIsSubsequence(items: seq<Item>, id: string)
    ensures IsSubsequence(ItemsOf(items, id), items)
  {
    if items != [] {
      ItemsOfIsSubsequence(items[1..], id);
      var rest := ItemsOf(items[1..], id);
      if items[0].category != id && rest != [] {
        SubsequenceOfTail(rest, items);
      }
    }
  }

  /** Each group's items are a subsequence of the menu's items: same relative order. */
  lemma GroupKeepsOrder(categories: seq<Category>, items: seq<Item>, k: nat)
    requires k < |categories|
    ensures IsSubsequence(GroupByCategory(categories, items)[k].items, items)
  {
    GroupItems(categories, items, k);
    ItemsOfIsSubsequence(items, categories[k].id);
  }

  /** Filtering keeps every matching item as many times as it occurs, and no other. */
  lemma {:induction false} ItemsOfCounts(items: seq<Item>, id: string, x: Item)
    ensures multiset(ItemsOf(items, id))[x] == if x.category == id then multiset(items)[x] else 0
  {
    if items != [] {
      ItemsOfCounts(items[1..], id, x);
      assert items == [items[0]] + items[1..];
    }
  }

  /** An item whose category matches no category id is shown in no group. */
  lemma OrphanItemHidden(categories: seq<Category>, items: seq<Item>, x: Item)
    requires forall k :: 0 <= k < |categories| ==> categories[k].id != x.category
    ensures forall g :: g in GroupByCategory(categories, items) ==> x !in g.items
  {
  }

  /** Two categories with the same id receive identical item lists. */
  lemma SameIdSameItems(categories: seq<Category>, items: seq<Item>, i: nat, j: nat)
    requires i < |categories| && j < |categories|
    requires categories[i].id == categories[j].id
    ensures GroupByCategory(categories, items)[i].items == GroupByCategory(categories, items)[j].items
  {
    GroupItems(categories, items, i);
    GroupItems(categories, items, j);
  }

  predicate DistinctIds(categories: seq<Category>)
  {
    forall i, j :: 0 <= i < j < |categories| ==> categories[i].id != categories[j].id
  }

  /** With distinct category ids, an item whose category is the id of category
      `k` is shown in group `k` and in no other group. */
  lemma ExactlyOneGroup(categories: seq<Category>, items: seq<Item>, x: Item, k: nat)
    requires DistinctIds(categories)
    requires x in items
    requires k < |categories| && categories[k].id == x.category
    ensures forall j :: 0 <= j < |categories| ==>
      (x in GroupByCategory(categories, items)[j].items <==> j == k)
  {
    forall j | 0 <= j < |categories|
      ensures x in GroupByCategory(categories, items)[j].items <==> j == k
    {
      GroupMembership(categories, items, j, x);
    }
  }

  // ---------------------------------------------------------------------------
  // Rendering
  // ---------------------------------------------------------------------------

  /** One rendered `MenuItem`: the emoji is passed in but not displayed. */
  datatype ItemView = ItemView(key: string, name: string, description: string, price: string, image: string)

  /** One rendered `MenuCategory`: the emoji is commented out of the header. */
  datatype CategoryView = CategoryView(key: string, name: string, timeRange: string, entries: seq<ItemView>)

  /** `<MenuItem key={item.id} ... />`: every field but the category and the
      emoji is shown. */
  function ItemEntry(item: Item): (v: ItemView)
    ensures v.key == item.id && v.name == item.name && v.description == item.description
    ensures v.price == item.price && v.image == item.image
  {
    ItemView(item.id, item.name, item.description, item.price, item.image)
  }

  /** `items.map((item) => <MenuItem key={item.id} ... />)`. */
  function ItemEntries(items: seq<Item>): (entries: seq<ItemView>)
    ensures |entries| == |items|
    ensures forall i :: 0 <= i < |entries| ==> entries[i] == ItemEntry(items[i])
  {
    if items == [] then [] else [ItemEntry(items[0])] + ItemEntries(items[1..])
  }

  /** `itemsByCategory.map((category) => <MenuCategory ... />)`. */
  function CategoryViews(groups: seq<Group>): (views: seq<CategoryView>)
    ensures |views| == |groups|
    ensures forall k :: 0 <= k < |views| ==>
      views[k] == CategoryView(groups[k].category.id, groups[k].category.name,
                               groups[k].category.timeRange, ItemEntries(groups[k].items))
  {
    if groups == [] then []
    else
      var g := groups[0];
      [CategoryView(g.category.id, g.category.name, g.category.timeRange, ItemEntries(g.items))]
        + CategoryViews(groups[1..])
  }

  /** The menu page's content column: one block per category, in declaration
      order, keyed by the category id and headed by its name and time range. */
  function RenderMenu(categories: seq<Category>, items: seq<Item>): (views: seq<CategoryView>)
    ensures |views| == |categories|
    ensures forall k :: 0 <= k < |views| ==>
      && views[k].key == categories[k].id
      && views[k].name == categories[k].name
      && views[k].timeRange == categories[k].timeRange
  {
    CategoryViews(GroupByCategory(categories, items))
  }

  /** The page shows one block per category in declaration order, headed by the
      category's name and time range, with one entry per matching item in menu order. */
  lemma RenderMenuShape(categories: seq<Category>, items: seq<Item>, k: nat)
    requires k < |categories|
    ensures |RenderMenu(categories, items)| == |categories|
    ensures var v := RenderMenu(categories, items)[k];
      var selected := ItemsOf(items, categories[k].id);
      && v.key == categories[k].id
      && v.name == categories[k].name
      && v.timeRange == categories[k].timeRange
      && |v.entries| == |selected|
      && forall i :: 0 <= i < |selected| ==> v.entries[i] == ItemEntry(selected[i])
  {
    GroupItems(categories, items, k);
  }

  /** Categories [A, B] and items [b, a1, a2]: the A block lists a1 then a2,
      the B block lists b. */
  lemma GroupingExample(a: Category, b: Category, ib: Item, ia1: Item, ia2: Item)
    requires a.id != b.id
    requires ib.category == b.id && ia1.category == a.id && ia2.category == a.id
    ensures GroupByCategory([a, b], [ib, ia1, ia2]) == [Group(a, [ia1, ia2]), Group(b, [ib])]
  {
    var items := [ib, ia1, ia2];
    assert items[1..] == [ia1, ia2] && items[1..][1..] == [ia2];
    assert ItemsOf(items, a.id) == [ia1, ia2];
    assert ItemsOf([ia2], b.id) == [];
    assert ItemsOf([ia1, ia2], b.id) == [];
    assert ItemsOf(items, b.id) == [ib];
  }
}
