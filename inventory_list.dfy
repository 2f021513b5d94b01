/** The inventory screen: the three-way stock classification shown as a
    badge next to every item, and the free-text search over the item list. */
module InventoryList {
  import opened Common
  import opened Text

  /** An inventory item as the list view and the inventory routes see it. */
  datatype InventoryItem = InventoryItem(
    itemCode: string,
    name: string,
    category: string,
    description: string,
    currentStock: int,
    minStockLevel: int,
    unitPrice: real)

  datatype StockStatus = Critical | Low | Good

  /** Position on the scale critical < low < good. */
  function StatusRank(s: StockStatus): nat
  {
    match s
    case Critical => 0
    case Low => 1
    case Good => 2
  }

  /** `getStockStatus(current, min)`: the multiplication form of the classifier. */
  function GetStockStatus(current: int, min: int): (s: StockStatus)
    ensures s == Critical <==> current as real <= min as real * 0.5
    ensures s == Low <==> min as real * 0.5 < current as real && current <= min
    ensures s == Good <==> min as real * 0.5 < current as real && min < current
    ensures min >= 0 ==> (s == Good <==> current > min)
  {
    if current as real <= min as real * 0.5 then Critical
    else if current <= min then Low
    else Good
  }

  /** Raising the current stock with the minimum fixed never moves the status
      towards critical. */
  lemma StockStatusMonotone(c1: int, c2: int, min: int)
    requires c1 <= c2
    ensures StatusRank(GetStockStatus(c1, min)) <= StatusRank(GetStockStatus(c2, min))
  {
  }

  /** The status string the classifier hands to the badge. */
  function StatusName(s: StockStatus): string
  {
    match s
    case Critical => "critical"
    case Low => "low"
    case Good => "good"
  }

  /** `getStockBadge(status)`: the badge text for a status string; anything
      that is neither "critical" nor "low" reads "Good". */
  function StockBadge(status: string): (badge: string)
    ensures badge == "Critical" <==> status == "critical"
    ensures badge == "Low Stock" <==> status == "low"
    ensures badge == "Good" <==> status != "critical" && status != "low"
  {
    if status == "critical" then "Critical"
    else if status == "low" then "Low Stock"
    else "Good"
  }

  /** The badge shown for an item: its three statuses get three distinct labels. */
  lemma BadgeOfStatus(s: StockStatus)
    ensures StockBadge(StatusName(s)) == match s
      case Critical => "Critical"
      case Low => "Low Stock"
      case Good => "Good"
  {
  }

  /** The search predicate of `filteredItems`. */
  predicate ItemMatches(item: InventoryItem, term: string)
  {
    MatchesTerm(item.name, term) || MatchesTerm(item.itemCode, term) || MatchesTerm(item.category, term)
  }

  /** `filteredItems`: the items whose name, item code or category contains the
      search term, ignoring case, in their original order. */
  function SearchItems(items: seq<InventoryItem>, term: string): (r: seq<InventoryItem>)
    ensures IsSubsequence(r, items)
    ensures forall i :: 0 <= i < |r| ==> r[i] in items && ItemMatches(r[i], term)
    ensures forall i :: 0 <= i < |items| && ItemMatches(items[i], term) ==> items[i] in r
    ensures term == "" ==> r == items
  {
    var p := (item: InventoryItem) => ItemMatches(item, term);
    FilterIsSubsequence(p, items);
    if term == "" then
      assert forall i :: 0 <= i < |items| ==> p(items[i]) by {
        forall i | 0 <= i < |items| { EmptyTermMatches(items[i].name); }
      }
      FilterKeepsAll(p, items);
      Filter(p, items)
    else
      Filter(p, items)
  }
}
