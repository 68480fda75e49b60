/**
 * The inventory page: its three-stage filter, the stock badge and the four
 * statistics computed over the filtered list.
 */
module InventoryPage {
  import opened Wrappers
  import opened Types
  import Seqs
  import Text
  import opened AppStore

  /** The category select: `'ALL'` or one of the five categories. */
  datatype CategoryFilter = AllCategories | OnlyCategory(category: InventoryCategory)

  /**
   * The search stage. An item without a description fails that half of the
   * test, as `item.description?.toLowerCase().includes(...)` is `undefined`.
   */
  predicate MatchesSearch(item: InventoryItem, term: string)
  {
    term == ""
    || Text.ContainsIgnoreCase(item.name, term)
    || (item.description.Some? && Text.ContainsIgnoreCase(item.description.value, term))
  }

  predicate MatchesCategory(item: InventoryItem, filter: CategoryFilter)
  {
    filter.AllCategories? || item.category == filter.category
  }

  predicate Admits(item: InventoryItem, filter: CategoryFilter, term: string)
  {
    MatchesCategory(item, filter) && MatchesSearch(item, term)
  }

  function FilteredItems(items: seq<InventoryItem>, selected: Option<Club>, filter: CategoryFilter, term: string): seq<InventoryItem>
  {
    Seqs.Filter(Scoped(items, ItemClub, selected), (i: InventoryItem) => Admits(i, filter, term))
  }

  /** The filtered list holds exactly the items passing all three stages, in store order. */
  lemma FilteredItemsExact(items: seq<InventoryItem>, selected: Option<Club>, filter: CategoryFilter, term: string)
    ensures forall i :: i in FilteredItems(items, selected, filter, term) <==>
      i in items && InSelectedClub(selected, i.clubId) && MatchesCategory(i, filter) && MatchesSearch(i, term)
    ensures Seqs.Subseq(FilteredItems(items, selected, filter, term), items)
  {
    var scoped := Scoped(items, ItemClub, selected);
    ScopedIsClubQuery(items, ItemClub, selected);
    Seqs.FilterMembership(scoped, (i: InventoryItem) => Admits(i, filter, term));
    Seqs.FilterIsSubseq(scoped, (i: InventoryItem) => Admits(i, filter, term));
    Seqs.SubseqTrans(FilteredItems(items, selected, filter, term), scoped, items);
  }

  /** With no club, every category and an empty search, the page lists the whole inventory. */
  lemma UnfilteredShowsAll(items: seq<InventoryItem>)
    ensures FilteredItems(items, None, AllCategories, "") == items
  {
    ScopedIsClubQuery(items, ItemClub, None);
    Seqs.FilterKeepsAll(items, (i: InventoryItem) => Admits(i, AllCategories, ""));
  }

  /** The three stock levels the badge distinguishes. */
  datatype StockLevel = OutOfStock | LowStock | InStock

  /** The level of an item, characterised independently of the badge's branch order. */
  function LevelOf(item: InventoryItem): (r: StockLevel)
    ensures r == OutOfStock <==> item.quantity == 0
    ensures r == LowStock <==> item.quantity != 0 && item.quantity <= item.minThreshold
    ensures r == InStock <==> item.quantity != 0 && item.quantity > item.minThreshold
  {
    if item.quantity == 0 then OutOfStock
    else if item.quantity <= item.minThreshold then LowStock
    else InStock
  }

  function StockStatusText(item: InventoryItem): string
  {
    if item.quantity == 0 then "Out of Stock"
    else if item.quantity <= item.minThreshold then "Low Stock"
    else "In Stock"
  }

  function StockStatusColor(item: InventoryItem): string
  {
    if item.quantity == 0 then "text-red-600 bg-red-50 dark:bg-red-900/20"
    else if item.quantity <= item.minThreshold then "text-yellow-600 bg-yellow-50 dark:bg-yellow-900/20"
    else "text-green-600 bg-green-50 dark:bg-green-900/20"
  }

  /**
   * The badge's text and colour always describe the same level: red "Out of
   * Stock" for an empty item even when its threshold is negative, yellow
   * "Low Stock" at or below the threshold, green "In Stock" above it.
   */
  lemma BadgeAgrees(item: InventoryItem)
    ensures LevelOf(item) == OutOfStock ==>
      StockStatusText(item) == "Out of Stock" && StockStatusColor(item) == "text-red-600 bg-red-50 dark:bg-red-900/20"
    ensures LevelOf(item) == LowStock ==>
      StockStatusText(item) == "Low Stock" && StockStatusColor(item) == "text-yellow-600 bg-yellow-50 dark:bg-yellow-900/20"
    ensures LevelOf(item) == InStock ==>
      StockStatusText(item) == "In Stock" && StockStatusColor(item) == "text-green-600 bg-green-50 dark:bg-green-900/20"
  {
  }

  function TotalItems(shown: seq<InventoryItem>): nat { |shown| }

  function LowStockItems(shown: seq<InventoryItem>): nat
  {
    |Seqs.Filter(shown, (i: InventoryItem) => i.quantity <= i.minThreshold)|
  }

  function OutOfStockItems(shown: seq<InventoryItem>): nat
  {
    |Seqs.Filter(shown, (i: InventoryItem) => i.quantity == 0)|
  }

  function ItemValue(i: InventoryItem): int { i.quantity * i.unitPrice }

  function TotalValue(shown: seq<InventoryItem>): int
  {
    Seqs.Sum(shown, ItemValue)
  }

  /**
   * The statistics are bounded by the list they summarise, and the low-stock
   * count includes the out-of-stock items whenever no threshold is negative.
   */
  lemma StatisticsBounds(shown: seq<InventoryItem>)
    ensures OutOfStockItems(shown) <= TotalItems(shown)
    ensures LowStockItems(shown) <= TotalItems(shown)
    ensures (forall k :: 0 <= k < |shown| ==> shown[k].minThreshold >= 0) ==>
      OutOfStockItems(shown) <= LowStockItems(shown)
  {
    if forall k :: 0 <= k < |shown| ==> shown[k].minThreshold >= 0 {
      Seqs.FilterMonotone(shown, (i: InventoryItem) => i.quantity == 0, (i: InventoryItem) => i.quantity <= i.minThreshold);
    }
  }

  /** A negative threshold lets an out-of-stock item escape the low-stock count. */
  lemma NegativeThresholdUndercounts(item: InventoryItem)
    requires item.quantity == 0 && item.minThreshold < 0
    ensures OutOfStockItems([item]) == 1 && LowStockItems([item]) == 0
  {
    assert [item][1..] == [];
  }

  /** The stock value is non-negative when quantities and prices are. */
  lemma TotalValueNonNegative(shown: seq<InventoryItem>)
    requires forall k :: 0 <= k < |shown| ==> shown[k].quantity >= 0 && shown[k].unitPrice >= 0
    ensures TotalValue(shown) >= 0
  {
    forall k | 0 <= k < |shown|
      ensures ItemValue(shown[k]) >= 0
    {
      assert shown[k].quantity >= 0 && shown[k].unitPrice >= 0;
    }
    Seqs.SumNonNegative(shown, ItemValue);
  }

  /** The value of a list is the value of its low-stock part plus the rest. */
  lemma TotalValueSplits(shown: seq<InventoryItem>)
    ensures TotalValue(shown) ==
      Seqs.Sum(Seqs.Filter(shown, (i: InventoryItem) => i.quantity <= i.minThreshold), ItemValue) +
      Seqs.Sum(Seqs.Filter(shown, (i: InventoryItem) => !(i.quantity <= i.minThreshold)), ItemValue)
  {
    Seqs.SumSplit(shown, ItemValue, (i: InventoryItem) => i.quantity <= i.minThreshold, (i: InventoryItem) => !(i.quantity <= i.minThreshold));
  }
}
