/**
 * The warehouse staff's inventory page: the search filter over the
 * page's stock list and the status chip.
 */
module InventoryPage {
  import opened Common
  import opened Lists
  import opened Text

  datatype StockItem = StockItem(
    id: int, sku: string, name: string, zone: string,
    quantity: int, minStock: int, maxStock: int, status: string)

  /** The stock list the page shows. */
  const InventoryItems := [
    StockItem(1, "ELEC-001", "Samsung Galaxy S24", "A-12", 45, 20, 100, "good"),
    StockItem(2, "ELEC-002", "iPhone 15 Pro", "A-13", 8, 15, 80, "low"),
    StockItem(3, "CLOTH-001", "T-Shirt Pack", "B-05", 320, 50, 500, "good"),
    StockItem(4, "FOOD-001", "Instant Noodles Box", "C-08", 12, 30, 200, "critical"),
    StockItem(5, "FURN-001", "Office Chair", "D-03", 28, 10, 50, "good")
  ]

  /** A rendered chip: its caption and colour. */
  datatype Chip = Chip(caption: string, color: string)

  /** `getStatusChip`; `null` for an unknown status. */
  function StatusChip(status: string): Option<Chip>
  {
    match status
    case "critical" => Some(Chip("Critical", "error"))
    case "low" => Some(Chip("Low Stock", "warning"))
    case "good" => Some(Chip("Good", "success"))
    case _ => None
  }

  /** The `inventoryItems.filter` callback. */
  function Matches(keyword: string): StockItem -> bool
  {
    (item: StockItem) => ContainsIgnoreCase(item.name, keyword) || ContainsIgnoreCase(item.sku, keyword)
  }

  /** `filteredItems`. */
  function FilteredItems(items: seq<StockItem>, keyword: string): seq<StockItem>
  {
    Filter(items, Matches(keyword))
  }

  /**
   * An item is listed exactly when its name or SKU contains the keyword
   * ignoring case, in the list's order; an empty keyword lists everything.
   */
  lemma FilteredItemsExactly(items: seq<StockItem>, keyword: string)
    ensures forall x :: x in FilteredItems(items, keyword) <==>
      x in items && (ContainsIgnoreCase(x.name, keyword) || ContainsIgnoreCase(x.sku, keyword))
    ensures IsSubsequence(FilteredItems(items, keyword), items)
    ensures FilteredItems(items, "") == items
  {
    FilterExactly(items, Matches(keyword));
    forall i | 0 <= i < |items|
      ensures Matches("")(items[i])
    {
      EmptyKeywordMatches(items[i].name);
    }
    FilterAll(items, Matches(""));
  }

  /** The three known statuses get distinct chips, any other status renders no chip, and every listed item has a chip. */
  lemma StatusChipRules(status: string, other: string)
    ensures StatusChip(status).Some? <==> status in {"critical", "low", "good"}
    ensures forall i :: 0 <= i < |InventoryItems| ==> StatusChip(InventoryItems[i].status).Some?
    ensures StatusChip(status).Some? && StatusChip(status) == StatusChip(other) ==> status == other
    ensures StatusChip("low") == Some(Chip("Low Stock", "warning"))
  {
  }
}
