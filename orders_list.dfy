/** The orders screen: the value of an order, the status and type badges, the
    search over orders and the short preview of an order's items. */
module OrdersList {
  import opened Common
  import opened Text

  /** A line of an order, with the price captured on the line and the
      catalog name joined in when the item still exists. */
  datatype OrderLine = OrderLine(itemId: string, quantity: int, unitPrice: real, itemName: Option<string>)

  /** An order as the list receives it; `status`, the assigned worker's name
      and the lines may be missing. */
  datatype Order = Order(
    orderNumber: string,
    orderType: string,
    status: Option<string>,
    workerName: Option<string>,
    items: Option<seq<OrderLine>>)

  // ---------------------------------------------------------------------------
  // Value

  /** `quantity * unit_price` of one line, with the line's own price. */
  function LineValue(line: OrderLine): real
  {
    line.quantity as real * line.unitPrice
  }

  /** `calculateOrderValue(items)`: the `reduce` of the line values from 0, so
      nothing for no lines, one line's value for one, and never negative when
      no quantity and no price is negative. */
  function OrderValue(lines: seq<OrderLine>): (v: real)
    ensures lines == [] ==> v == 0.0
    ensures |lines| == 1 ==> v == lines[0].quantity as real * lines[0].unitPrice
    ensures (forall i :: 0 <= i < |lines| ==> lines[i].quantity >= 0 && lines[i].unitPrice >= 0.0) ==> v >= 0.0
  {
    assert |lines| == 1 ==> lines[..0] == [] && Sum(LineValue, lines) == Sum(LineValue, lines[..0]) + LineValue(lines[0]);
    if forall i :: 0 <= i < |lines| ==> lines[i].quantity >= 0 && lines[i].unitPrice >= 0.0 then
      SumNonNegative(LineValue, lines);
      Sum(LineValue, lines)
    else
      Sum(LineValue, lines)
  }

  /** The value shown in the table: a missing line list counts as empty. */
  function DisplayedValue(order: Order): (v: real)
    ensures order.items == None ==> v == 0.0
    ensures order.items.Some? ==> v == OrderValue(order.items.value)
  {
    OrderValue(order.items.GetOr([]))
  }

  /** Order value is additive over concatenation of line lists. */
  lemma OrderValueAppend(a: seq<OrderLine>, b: seq<OrderLine>)
    ensures OrderValue(a + b) == OrderValue(a) + OrderValue(b)
  {
    SumAppend(LineValue, a, b);
  }

  /** The value depends only on each line's quantity and captured price: the
      item a line refers to and its catalog entry play no part. */
  lemma {:induction false} OrderValueUsesCapturedPrices(a: seq<OrderLine>, b: seq<OrderLine>)
    requires |a| == |b|
    requires forall i :: 0 <= i < |a| ==> a[i].quantity == b[i].quantity && a[i].unitPrice == b[i].unitPrice
    ensures OrderValue(a) == OrderValue(b)
  {
    if a != [] {
      OrderValueUsesCapturedPrices(a[..|a| - 1], b[..|b| - 1]);
    }
  }

  /** Twenty bearings at 45.99 and a hundred bolts at 0.85. */
  lemma SampleOrderValue()
    ensures OrderValue([OrderLine("1", 20, 45.99, None), OrderLine("2", 100, 0.85, None)]) == 1004.8
  {
    var lines := [OrderLine("1", 20, 45.99, None), OrderLine("2", 100, 0.85, None)];
    assert LineValue(lines[0]) == 919.8;
    assert LineValue(lines[1]) == 85.0;
    assert lines[..1][0] == lines[0];
    assert lines[..1][..0] == [];
    assert OrderValue(lines[..1]) == OrderValue(lines[..1][..0]) + LineValue(lines[0]);
    assert lines[..|lines| - 1] == lines[..1];
  }

  // ---------------------------------------------------------------------------
  // Badges

  /** `order.status || 'pending'`: a missing or empty status reads "pending". */
  function DisplayedStatus(status: Option<string>): (s: string)
    ensures s != ""
    ensures status.Some? && status.value != "" ==> s == status.value
  {
    if status.Some? && status.value != "" then status.value else "pending"
  }

  /** `getStatusBadge(status)`: the four known statuses get their fixed
      labels, any other status is shown as it is. */
  function StatusBadge(status: string): (badge: string)
    ensures status == "pending" ==> badge == "Pending"
    ensures status == "processing" ==> badge == "Processing"
    ensures status == "completed" ==> badge == "Completed"
    ensures status == "cancelled" ==> badge == "Cancelled"
    ensures status !in {"pending", "processing", "completed", "cancelled"} ==> badge == status
  {
    match status
    case "pending" => "Pending"
    case "processing" => "Processing"
    case "completed" => "Completed"
    case "cancelled" => "Cancelled"
    case _ => status
  }

  /** An order without a status is shown as pending. */
  lemma MissingStatusShownPending()
    ensures StatusBadge(DisplayedStatus(None)) == "Pending"
    ensures StatusBadge(DisplayedStatus(Some(""))) == "Pending"
  {
  }

  /** `getTypeBadge(type)`: "Inbound" for `inbound` only, "Outbound" otherwise. */
  function TypeBadge(orderType: string): (badge: string)
    ensures badge == "Inbound" || badge == "Outbound"
    ensures badge == "Inbound" <==> orderType == "inbound"
  {
    if orderType == "inbound" then "Inbound" else "Outbound"
  }

  // ---------------------------------------------------------------------------
  // Search

  /** The search predicate of `filteredOrders`: the term is in the order
      number, in the assigned worker's name when there is one, or in the type. */
  predicate OrderMatches(order: Order, term: string)
  {
    MatchesTerm(order.orderNumber, term)
    || (order.workerName.Some? && MatchesTerm(order.workerName.value, term))
    || MatchesTerm(order.orderType, term)
  }

  /** `filteredOrders`: the matching orders in their original order. */
  function SearchOrders(orders: seq<Order>, term: string): (r: seq<Order>)
    ensures IsSubsequence(r, orders)
    ensures forall i :: 0 <= i < |r| ==> r[i] in orders && OrderMatches(r[i], term)
    ensures forall i :: 0 <= i < |orders| && OrderMatches(orders[i], term) ==> orders[i] in r
    ensures term == "" ==> r == orders
  {
    var p := (order: Order) => OrderMatches(order, term);
    FilterIsSubsequence(p, orders);
    if term == "" then
      assert forall i :: 0 <= i < |orders| ==> p(orders[i]) by {
        forall i | 0 <= i < |orders| { EmptyTermMatches(orders[i].orderNumber); }
      }
      FilterKeepsAll(p, orders);
      Filter(p, orders)
    else
      Filter(p, orders)
  }

  /** An order without an assigned worker is found only through its number or type. */
  lemma UnassignedOrderMatches(order: Order, term: string)
    requires order.workerName == None
    ensures OrderMatches(order, term) <==> MatchesTerm(order.orderNumber, term) || MatchesTerm(order.orderType, term)
  {
  }

  // ---------------------------------------------------------------------------
  // Items preview

  /** The name shown for a line: the catalog name, or `Item <id>` when the
      name is missing or empty. */
  function ItemLabel(line: OrderLine): string
  {
    if line.itemName.Some? && line.itemName.value != "" then line.itemName.value
    else "Item " + line.itemId
  }

  /** `items.join(', ')`. */
  function Join(parts: seq<string>, sep: string): string
  {
    if parts == [] then ""
    else if |parts| == 1 then parts[0]
    else parts[0] + sep + Join(parts[1..], sep)
  }

  /** `order.order_items?.length || 0`: the number of lines shown. */
  function ItemCount(items: Option<seq<OrderLine>>): (n: nat)
    ensures items.Some? ==> n == |items.value|
    ensures items.None? ==> n == 0
  {
    if items.Some? then |items.value| else 0
  }

  /** The labels of `order.order_items?.slice(0, 2)`: at most the first two lines. */
  function PreviewLabels(items: Option<seq<OrderLine>>): (labels: seq<string>)
    ensures |labels| <= 2
    ensures |labels| == if ItemCount(items) < 2 then ItemCount(items) else 2
    ensures forall i :: 0 <= i < |labels| ==> items.Some? && labels[i] == ItemLabel(items.value[i])
  {
    match items
    case None => []
    case Some(lines) =>
      var shown := if |lines| < 2 then lines else lines[..2];
      seq(|shown|, i requires 0 <= i < |shown| => ItemLabel(shown[i]))
  }

  /** `(order.order_items?.length || 0) > 2 && '...'`. */
  predicate ShowsEllipsis(items: Option<seq<OrderLine>>)
  {
    ItemCount(items) > 2
  }

  /** The preview text under the item count. */
  function PreviewText(items: Option<seq<OrderLine>>): (text: string)
    ensures ShowsEllipsis(items) ==> text == Join(PreviewLabels(items), ", ") + "..."
    ensures !ShowsEllipsis(items) ==> text == Join(PreviewLabels(items), ", ")
  {
    Join(PreviewLabels(items), ", ") + (if ShowsEllipsis(items) then "..." else "")
  }

  /** The ellipsis appears exactly when some line is not among the two shown. */
  lemma EllipsisIffLinesHidden(items: Option<seq<OrderLine>>)
    ensures ShowsEllipsis(items) <==> |PreviewLabels(items)| < ItemCount(items)
  {
  }

  /** Two named lines or fewer are listed in full, separated by a comma. */
  lemma ShortOrderPreview(a: OrderLine, b: OrderLine)
    ensures PreviewText(Some([a])) == ItemLabel(a)
    ensures PreviewText(Some([a, b])) == ItemLabel(a) + ", " + ItemLabel(b)
  {
    assert PreviewLabels(Some([a])) == [ItemLabel(a)];
    assert PreviewLabels(Some([a, b])) == [ItemLabel(a), ItemLabel(b)];
    var labels := [ItemLabel(a), ItemLabel(b)];
    assert labels[1..] == [ItemLabel(b)];
    assert Join(labels, ", ") == ItemLabel(a) + ", " + Join([ItemLabel(b)], ", ");
  }
}
