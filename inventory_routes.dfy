/** The in-memory logic of the inventory REST routes: the `stockStatus` list
    filter, the `/inventory/stats` computation and the clean-up of an update
    payload before it is written. */
module InventoryRoutes {
  import opened Common
  import opened InventoryList

  // ---------------------------------------------------------------------------
  // The stockStatus filter

  /** The outcome of a JavaScript number division `current / min`. */
  datatype Ratio = Finite(value: real) | PosInfinity | NegInfinity | NotANumber

  /** `item.currentStock / item.minStockLevel`, with the IEEE outcomes of a
      division by zero: `x / 0` is +Infinity for positive `x`, -Infinity for
      negative `x` and NaN for `0 / 0`. */
  function StockRatio(current: int, min: int): (q: Ratio)
    ensures min != 0 ==> q.Finite? && q.value * min as real == current as real
    ensures min == 0 && current > 0 ==> q == PosInfinity
    ensures min == 0 && current < 0 ==> q == NegInfinity
    ensures min == 0 && current == 0 ==> q == NotANumber
  {
    if min != 0 then Finite(current as real / min as real)
    else if current > 0 then PosInfinity
    else if current < 0 then NegInfinity
    else NotANumber
  }

  /** `q <= bound`; false for NaN. */
  predicate AtMost(q: Ratio, bound: real)
  {
    match q
    case Finite(v) => v <= bound
    case NegInfinity => true
    case PosInfinity => false
    case NotANumber => false
  }

  /** `q > bound`; false for NaN. */
  predicate Above(q: Ratio, bound: real)
  {
    match q
    case Finite(v) => v > bound
    case NegInfinity => false
    case PosInfinity => true
    case NotANumber => false
  }

  /** For a non-zero minimum `m`, how `current / m` compares with the two
      thresholds, in multiplication form: dividing by a negative minimum
      turns each comparison round. */
  lemma RatioThresholds(current: int, min: int)
    ensures min != 0 ==> var q := StockRatio(current, min);
      && (AtMost(q, 0.5) <==> (if min > 0 then 2 * current <= min else 2 * current >= min))
      && (AtMost(q, 1.0) <==> (if min > 0 then current <= min else current >= min))
      && (Above(q, 0.5) <==> !AtMost(q, 0.5))
      && (Above(q, 1.0) <==> !AtMost(q, 1.0))
  {
    if min != 0 {
      var c, m := current as real, min as real;
      var r := c / m;
      assert StockRatio(current, min) == Finite(r);
      assert r * m == c;
      if min > 0 {
        RatioCompare(r, m, c, 0.5);
        RatioCompare(r, m, c, 1.0);
      } else {
        RatioCompareNegative(r, m, c, 0.5);
        RatioCompareNegative(r, m, c, 1.0);
      }
    }
  }

  /** The `switch (stockStatus)` inside the filter callback. An unknown status
      keeps every item; a zero minimum gives an infinite ratio (or NaN for an
      empty item, which no bucket holds); otherwise the buckets are the
      ratio's ranges, read the other way round for a negative minimum. */
  function MatchesStockStatus(item: InventoryItem, status: string): (b: bool)
    ensures status != "critical" && status != "low" && status != "good" ==> b
    ensures item.minStockLevel == 0 && item.currentStock == 0 ==>
      (b <==> status != "critical" && status != "low" && status != "good")
    ensures item.minStockLevel == 0 && item.currentStock > 0 ==> (b <==> status != "critical" && status != "low")
    ensures item.minStockLevel == 0 && item.currentStock < 0 ==> (b <==> status != "low" && status != "good")
    ensures item.minStockLevel > 0 && status == "critical" ==> (b <==> 2 * item.currentStock <= item.minStockLevel)
    ensures item.minStockLevel > 0 && status == "low" ==>
      (b <==> item.minStockLevel < 2 * item.currentStock && item.currentStock <= item.minStockLevel)
    ensures item.minStockLevel > 0 && status == "good" ==> (b <==> item.currentStock > item.minStockLevel)
    ensures item.minStockLevel < 0 && status == "critical" ==> (b <==> 2 * item.currentStock >= item.minStockLevel)
    ensures item.minStockLevel < 0 && status == "low" ==>
      (b <==> item.minStockLevel <= item.currentStock && 2 * item.currentStock < item.minStockLevel)
    ensures item.minStockLevel < 0 && status == "good" ==> (b <==> item.currentStock < item.minStockLevel)
  {
    var ratio := StockRatio(item.currentStock, item.minStockLevel);
    RatioThresholds(item.currentStock, item.minStockLevel);
    if status == "critical" then AtMost(ratio, 0.5)
    else if status == "low" then AtMost(ratio, 1.0) && Above(ratio, 0.5)
    else if status == "good" then Above(ratio, 1.0)
    else true
  }

  /** The `stockStatus` query parameter is only applied when it is truthy. */
  predicate StatusGiven(stockStatus: Option<string>)
  {
    stockStatus.Some? && stockStatus.value != ""
  }

  /** The status filter of `GET /inventory`: without a (non-empty) parameter
      the list is returned as it is, otherwise the items whose stock ratio
      falls in the requested bucket are kept, in their order. */
  function FilterByStockStatus(items: seq<InventoryItem>, stockStatus: Option<string>): (r: seq<InventoryItem>)
    ensures IsSubsequence(r, items)
    ensures !StatusGiven(stockStatus) ==> r == items
    ensures StatusGiven(stockStatus) ==>
      (forall i :: 0 <= i < |r| ==> r[i] in items && MatchesStockStatus(r[i], stockStatus.value))
    ensures StatusGiven(stockStatus) ==>
      (forall i :: 0 <= i < |items| && MatchesStockStatus(items[i], stockStatus.value) ==> items[i] in r)
  {
    if StatusGiven(stockStatus) then
      var p := (item: InventoryItem) => MatchesStockStatus(item, stockStatus.value);
      FilterIsSubsequence(p, items);
      Filter(p, items)
    else
      SubsequenceReflexive(items);
      items
  }

  /** A status other than the three buckets keeps every item. */
  lemma UnknownStatusKeepsAll(items: seq<InventoryItem>, status: string)
    requires status != "" && status != "critical" && status != "low" && status != "good"
    ensures FilterByStockStatus(items, Some(status)) == items
  {
    var p := (item: InventoryItem) => MatchesStockStatus(item, status);
    FilterKeepsAll(p, items);
  }

  /** Division form and multiplication form agree: when the minimum is
      positive, or zero with some stock on hand or some stock owed, the bucket
      an item falls into is the status the list view computes for it. */
  lemma BucketMatchesClassifier(item: InventoryItem, status: string)
    requires status == "critical" || status == "low" || status == "good"
    requires item.minStockLevel > 0 || (item.minStockLevel == 0 && item.currentStock != 0)
    ensures MatchesStockStatus(item, status) <==>
      status == StatusName(GetStockStatus(item.currentStock, item.minStockLevel))
  {
  }

  /** For a negative `m` and `r == c / m`, `r <= b` exactly when `c >= m * b`. */
  lemma RatioCompareNegative(r: real, m: real, c: real, b: real)
    requires m < 0.0 && r * m == c
    ensures r <= b <==> c >= m * b
  {
    if r <= b {
      assert (b - r) * m <= 0.0;
    } else {
      assert (r - b) * m < 0.0;
    }
  }

  /** For a positive `m` and `r == c / m`, `r <= b` exactly when `c <= m * b`. */
  lemma RatioCompare(r: real, m: real, c: real, b: real)
    requires m > 0.0 && r * m == c
    ensures r <= b <==> c <= m * b
  {
    if r <= b {
      assert (b - r) * m >= 0.0;
    } else {
      assert (r - b) * m > 0.0;
    }
  }

  /** With a positive minimum every item falls into exactly one of the three
      buckets. */
  lemma BucketsPartition(item: InventoryItem)
    requires item.minStockLevel > 0
    ensures MatchesStockStatus(item, "critical") || MatchesStockStatus(item, "low") || MatchesStockStatus(item, "good")
    ensures !(MatchesStockStatus(item, "critical") && MatchesStockStatus(item, "low"))
    ensures !(MatchesStockStatus(item, "critical") && MatchesStockStatus(item, "good"))
    ensures !(MatchesStockStatus(item, "low") && MatchesStockStatus(item, "good"))
  {
    BucketMatchesClassifier(item, "critical");
    BucketMatchesClassifier(item, "low");
    BucketMatchesClassifier(item, "good");
  }

  /** An item with no stock and a minimum of zero divides 0 by 0: its ratio is
      NaN, so it is in none of the three filtered lists, although the list
      view shows it as critical. */
  lemma EmptyItemWithZeroMinimumInNoBucket(item: InventoryItem)
    requires item.currentStock == 0 && item.minStockLevel == 0
    ensures FilterByStockStatus([item], Some("critical")) == []
    ensures FilterByStockStatus([item], Some("low")) == []
    ensures FilterByStockStatus([item], Some("good")) == []
    ensures GetStockStatus(item.currentStock, item.minStockLevel) == Critical
  {
  }

  /** A negative minimum turns the route's buckets round: an item with 5 on
      hand and a minimum of -10 has ratio -0.5 and is listed as critical,
      although the list view shows it as good. */
  lemma NegativeMinimumListedCritical()
    ensures var item := InventoryItem("ITM-X", "Pallet Wrap", "Packaging", "", 5, -10, 1.0);
      && FilterByStockStatus([item], Some("critical")) == [item]
      && FilterByStockStatus([item], Some("good")) == []
      && GetStockStatus(item.currentStock, item.minStockLevel) == Good
  {
  }

  /** The bucket test as intended: the requested status is the one the list
      view's classifier gives the item; other values keep every item. */
  predicate MatchesStockStatusCorrected(item: InventoryItem, status: string)
  {
    if status == "critical" || status == "low" || status == "good" then
      status == StatusName(GetStockStatus(item.currentStock, item.minStockLevel))
    else true
  }

  /** The status filter with the corrected bucket test. */
  function FilterByStockStatusCorrected(items: seq<InventoryItem>, stockStatus: Option<string>): (r: seq<InventoryItem>)
    ensures IsSubsequence(r, items)
    ensures !StatusGiven(stockStatus) ==> r == items
    ensures StatusGiven(stockStatus) ==>
      (forall i :: 0 <= i < |r| ==> r[i] in items && MatchesStockStatusCorrected(r[i], stockStatus.value))
    ensures StatusGiven(stockStatus) ==>
      (forall i :: 0 <= i < |items| && MatchesStockStatusCorrected(items[i], stockStatus.value) ==> items[i] in r)
  {
    if StatusGiven(stockStatus) then
      var p := (item: InventoryItem) => MatchesStockStatusCorrected(item, stockStatus.value);
      FilterIsSubsequence(p, items);
      Filter(p, items)
    else
      SubsequenceReflexive(items);
      items
  }

  /** Every item, whatever its numbers, is listed under exactly one of the
      three statuses, and that status is the badge the list view shows. */
  lemma CorrectedFilterPartitions(items: seq<InventoryItem>, k: nat, status: string)
    requires k < |items|
    requires status == "critical" || status == "low" || status == "good"
    ensures items[k] in FilterByStockStatusCorrected(items, Some(status)) <==>
      status == StatusName(GetStockStatus(items[k].currentStock, items[k].minStockLevel))
  {
    var r := FilterByStockStatusCorrected(items, Some(status));
    if items[k] in r {
      var j :| 0 <= j < |r| && r[j] == items[k];
      assert MatchesStockStatusCorrected(r[j], status);
    }
  }

  /** Wherever the route's buckets follow the list view (a positive minimum,
      or a zero one with a non-zero stock) the corrected filter is the one the
      route applies. */
  lemma CorrectedAgreesWithRoute(items: seq<InventoryItem>, stockStatus: Option<string>)
    requires forall i :: 0 <= i < |items| ==>
      items[i].minStockLevel > 0 || (items[i].minStockLevel == 0 && items[i].currentStock != 0)
    ensures FilterByStockStatusCorrected(items, stockStatus) == FilterByStockStatus(items, stockStatus)
  {
    if StatusGiven(stockStatus) {
      var status := stockStatus.value;
      var p := (item: InventoryItem) => MatchesStockStatus(item, status);
      var q := (item: InventoryItem) => MatchesStockStatusCorrected(item, status);
      forall i | 0 <= i < |items|
        ensures q(items[i]) == p(items[i])
      {
        if status == "critical" || status == "low" || status == "good" {
          BucketMatchesClassifier(items[i], status);
        }
      }
      FilterSameOn(q, p, items);
    }
  }

  // ---------------------------------------------------------------------------
  // GET /inventory/stats

  datatype InventoryStats = InventoryStats(totalItems: nat, lowStockItems: nat, totalValue: real)

  /** The low-stock test of the statistics: at or below the minimum. */
  predicate IsLowStock(item: InventoryItem)
  {
    item.currentStock <= item.minStockLevel
  }

  /** `currentStock * unitPrice` of one item. */
  function ItemValue(item: InventoryItem): real
  {
    item.currentStock as real * item.unitPrice
  }

  /** The `reduce` over all items of `currentStock * unitPrice`: nothing for no
      items, one item's value for one, and never negative when no stock and no
      price is negative. */
  function InventoryValue(items: seq<InventoryItem>): (v: real)
    ensures items == [] ==> v == 0.0
    ensures |items| == 1 ==> v == items[0].currentStock as real * items[0].unitPrice
    ensures (forall i :: 0 <= i < |items| ==> items[i].currentStock >= 0 && items[i].unitPrice >= 0.0) ==> v >= 0.0
  {
    assert |items| == 1 ==> items[..0] == [] && Sum(ItemValue, items) == Sum(ItemValue, items[..0]) + ItemValue(items[0]);
    if forall i :: 0 <= i < |items| ==> items[i].currentStock >= 0 && items[i].unitPrice >= 0.0 then
      SumNonNegative(ItemValue, items);
      Sum(ItemValue, items)
    else
      Sum(ItemValue, items)
  }

  /** The statistics of `GET /inventory/stats` over all items. */
  function ComputeStats(items: seq<InventoryItem>): (s: InventoryStats)
    ensures s.totalItems == |items|
    ensures s.lowStockItems <= s.totalItems
    ensures s.lowStockItems == |Filter(IsLowStock, items)|
    ensures s.totalValue == InventoryValue(items)
    ensures items == [] ==> s == InventoryStats(0, 0, 0.0)
    ensures (forall i :: 0 <= i < |items| ==> items[i].currentStock >= 0 && items[i].unitPrice >= 0.0) ==>
      s.totalValue >= 0.0
  {
    InventoryStats(|items|, |Filter(IsLowStock, items)|, InventoryValue(items))
  }

  /** The value of two lists of items together is the sum of their values. */
  lemma InventoryValueAppend(a: seq<InventoryItem>, b: seq<InventoryItem>)
    ensures InventoryValue(a + b) == InventoryValue(a) + InventoryValue(b)
  {
    SumAppend(ItemValue, a, b);
  }

  /** For a non-negative minimum, low stock in the statistics means a
      "critical" or "low" badge in the list view; at `current == min` both say
      low. */
  lemma LowStockIsNotGood(item: InventoryItem)
    requires item.minStockLevel >= 0
    ensures IsLowStock(item) <==> GetStockStatus(item.currentStock, item.minStockLevel) != Good
  {
  }

  /** The badge shown by the list view for an item is not "Good". */
  predicate BadgeNotGood(item: InventoryItem)
  {
    GetStockStatus(item.currentStock, item.minStockLevel) != Good
  }

  /** The statistics count exactly the items the list view marks critical or low. */
  lemma LowStockCountMatchesBadges(items: seq<InventoryItem>)
    requires forall i :: 0 <= i < |items| ==> items[i].minStockLevel >= 0
    ensures ComputeStats(items).lowStockItems == |Filter(BadgeNotGood, items)|
  {
    forall i | 0 <= i < |items|
      ensures IsLowStock(items[i]) == BadgeNotGood(items[i])
    {
      LowStockIsNotGood(items[i]);
    }
    FilterSameOn(IsLowStock, BadgeNotGood, items);
  }

  /** The first two seeded items: one below its minimum, one above. */
  lemma SeedItemsStats()
    ensures var items := [
      InventoryItem("ITM-001", "Industrial Bearings", "Mechanical Parts", "", 5, 20, 45.99),
      InventoryItem("ITM-002", "Steel Bolts M12", "Fasteners", "", 150, 100, 0.85)];
      ComputeStats(items) == InventoryStats(2, 1, 357.45)
  {
    var items := [
      InventoryItem("ITM-001", "Industrial Bearings", "Mechanical Parts", "", 5, 20, 45.99),
      InventoryItem("ITM-002", "Steel Bolts M12", "Fasteners", "", 150, 100, 0.85)];
    assert items[..1][..0] == [];
    assert items[..1] == [items[0]];
    assert Filter(IsLowStock, items[1..]) == [];
    assert Filter(IsLowStock, items) == [items[0]];
    assert ItemValue(items[0]) == 229.95;
    assert ItemValue(items[1]) == 127.5;
    assert items[..1][0] == items[0];
    assert InventoryValue(items[..1]) == InventoryValue(items[..1][..0]) + ItemValue(items[0]);
    assert InventoryValue(items[..1]) == 229.95;
    assert items[..|items| - 1] == items[..1];
    assert InventoryValue(items) == 357.45;
  }

  // ---------------------------------------------------------------------------
  // PUT /inventory/:id

  /** A JSON value of the request body. */
  datatype Json = JNull | JBool(b: bool) | JNum(n: real) | JStr(s: string) | JDate(millis: int) | JObject

  /** JavaScript truthiness of a present value (`NaN` is not modelled). */
  predicate Truthy(v: Json)
  {
    match v
    case JNull => false
    case JBool(b) => b
    case JNum(n) => n != 0.0
    case JStr(s) => s != ""
    case JDate(_) => true
    case JObject => true
  }

  /** The keys the route never passes to the update. */
  predicate Protected(key: string)
  {
    key == "id" || key == "createdAt"
  }

  /** The keys the route converts to numbers before the update. */
  predicate Converted(key: string)
  {
    key == "currentStock" || key == "minStockLevel" || key == "unitPrice"
  }

  /** `if (updates[key]) updates[key] = parse(updates[key])`. */
  function ConvertIfTruthy(updates: map<string, Json>, key: string, parse: Json -> Json): (u: map<string, Json>)
    ensures u.Keys == updates.Keys
    ensures forall k :: k in updates && k != key ==> u[k] == updates[k]
    ensures key in updates ==> u[key] == if Truthy(updates[key]) then parse(updates[key]) else updates[key]
  {
    if key in updates && Truthy(updates[key]) then updates[key := parse(updates[key])] else updates
  }

  /** The data handed to the update of `PUT /inventory/:id`: `id` and
      `createdAt` are deleted from the body, the three numeric fields are
      converted when they are truthy, every other field passes through and
      `lastUpdated` is set to the time of the request. `parseInt` and
      `parseFloat` are parameters of the model. */
  method SanitizeUpdates(body: map<string, Json>, now: int, parseInt: Json -> Json, parseFloat: Json -> Json)
    returns (data: map<string, Json>)
    ensures "id" !in data && "createdAt" !in data
    ensures "lastUpdated" in data && data["lastUpdated"] == JDate(now)
    ensures forall k :: k in data && k != "lastUpdated" ==> k in body
    ensures forall k :: k in body && !Protected(k) ==> k in data
    ensures forall k :: k in body && !Protected(k) && !Converted(k) && k != "lastUpdated" ==> data[k] == body[k]
    ensures "currentStock" in body ==> ("currentStock" in data &&
      data["currentStock"] == if Truthy(body["currentStock"]) then parseInt(body["currentStock"]) else body["currentStock"])
    ensures "minStockLevel" in body ==> ("minStockLevel" in data &&
      data["minStockLevel"] == if Truthy(body["minStockLevel"]) then parseInt(body["minStockLevel"]) else body["minStockLevel"])
    ensures "unitPrice" in body ==> ("unitPrice" in data &&
      data["unitPrice"] == if Truthy(body["unitPrice"]) then parseFloat(body["unitPrice"]) else body["unitPrice"])
  {
    var updates := body;
    updates := updates - {"id"};
    updates := updates - {"createdAt"};
    updates := ConvertIfTruthy(updates, "currentStock", parseInt);
    updates := ConvertIfTruthy(updates, "minStockLevel", parseInt);
    updates := ConvertIfTruthy(updates, "unitPrice", parseFloat);
    data := updates["lastUpdated" := JDate(now)];
  }
}
