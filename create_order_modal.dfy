/** The order-creation dialog: the editable list of order lines, the lines it
    submits and the order number it makes up from the clock. */
module CreateOrderModal {
  import opened Common
  import opened Text

  datatype OrderType = Inbound | Outbound

  /** A line being edited: the chosen item (empty until one is chosen), the
      quantity and the unit price. */
  datatype LineDraft = LineDraft(itemId: string, quantity: int, unitPrice: real)

  /** The line every new row starts as: no item, quantity 1, price 0. */
  const BlankLine: LineDraft := LineDraft("", 1, 0.0)

  /** One field of a line set to a new value. */
  datatype LineUpdate =
    | SetItemId(itemId: string)
    | SetQuantity(quantity: int)
    | SetUnitPrice(unitPrice: real)

  // ---------------------------------------------------------------------------
  // Line-list operations

  /** `{ ...item, [field]: value }`: the named field takes the new value, the
      other two keep theirs. */
  function Apply(line: LineDraft, u: LineUpdate): (r: LineDraft)
    ensures r.itemId == if u.SetItemId? then u.itemId else line.itemId
    ensures r.quantity == if u.SetQuantity? then u.quantity else line.quantity
    ensures r.unitPrice == if u.SetUnitPrice? then u.unitPrice else line.unitPrice
  {
    match u
    case SetItemId(id) => line.(itemId := id)
    case SetQuantity(q) => line.(quantity := q)
    case SetUnitPrice(p) => line.(unitPrice := p)
  }

  /** `addOrderItem`: one blank line appended after the existing ones. */
  function AddLine(lines: seq<LineDraft>): (r: seq<LineDraft>)
    ensures |r| == |lines| + 1
    ensures r[..|lines|] == lines
    ensures r[|lines|] == BlankLine
  {
    lines + [BlankLine]
  }

  /** `filter((_, i) => i !== index)`: drops the line at `index` when there is
      one, and keeps every line for any other index. */
  function WithoutIndex(s: seq<LineDraft>, index: int): (r: seq<LineDraft>)
    ensures 0 <= index < |s| ==> r == s[..index] + s[index + 1..]
    ensures !(0 <= index < |s|) ==> r == s
  {
    if s == [] then []
    else if index == 0 then WithoutIndex(s[1..], index - 1)
    else
      var rest := WithoutIndex(s[1..], index - 1);
      assert 0 < index < |s| ==> rest == s[1..][..index - 1] + s[index + 1..];
      [s[0]] + rest
  }

  /** `removeOrderItem(index)`: with more than one line, the line at `index`
      goes and the others keep their order; a single line is never removed. */
  function RemoveLine(lines: seq<LineDraft>, index: int): (r: seq<LineDraft>)
    ensures |lines| > 1 && 0 <= index < |lines| ==>
      |r| == |lines| - 1 && r == lines[..index] + lines[index + 1..]
    ensures |lines| <= 1 || !(0 <= index < |lines|) ==> r == lines
    ensures |lines| >= 1 ==> |r| >= 1
  {
    if |lines| > 1 then WithoutIndex(lines, index) else lines
  }

  /** `updateOrderItem(index, field, value)`: the line at `index` takes the
      update, every other line and the length stay as they were. */
  function UpdateLine(lines: seq<LineDraft>, index: int, u: LineUpdate): (r: seq<LineDraft>)
    ensures |r| == |lines|
    ensures forall i :: 0 <= i < |lines| && i != index ==> r[i] == lines[i]
    ensures 0 <= index < |lines| ==> r[index] == Apply(lines[index], u)
  {
    seq(|lines|, i requires 0 <= i < |lines| => if i == index then Apply(lines[i], u) else lines[i])
  }

  /** `item => item.item_id`: a line is submitted once an item is chosen. */
  predicate HasItem(line: LineDraft)
  {
    line.itemId != ""
  }

  /** The lines sent on submit: those with an item, in their original order. */
  function SubmittedLines(lines: seq<LineDraft>): (r: seq<LineDraft>)
    ensures IsSubsequence(r, lines)
    ensures forall i :: 0 <= i < |r| ==> r[i] in lines && r[i].itemId != ""
    ensures forall i :: 0 <= i < |lines| && lines[i].itemId != "" ==> lines[i] in r
  {
    FilterIsSubsequence(HasItem, lines);
    Filter(HasItem, lines)
  }

  // ---------------------------------------------------------------------------
  // Properties of the line-list operations

  /** Removing the line just added gives back the list it was added to. */
  lemma RemoveUndoesAdd(lines: seq<LineDraft>)
    requires lines != []
    ensures RemoveLine(AddLine(lines), |lines|) == lines
  {
    var added := AddLine(lines);
    assert added[|lines| + 1..] == [];
  }

  /** Two updates of the same field of the same line: the second one wins. */
  lemma LastUpdateWins(lines: seq<LineDraft>, index: int, u: LineUpdate, v: LineUpdate)
    requires (u.SetItemId? && v.SetItemId?) || (u.SetQuantity? && v.SetQuantity?)
      || (u.SetUnitPrice? && v.SetUnitPrice?)
    ensures UpdateLine(UpdateLine(lines, index, u), index, v) == UpdateLine(lines, index, v)
  {
  }

  /** Updates of two different lines can be made in either order. */
  lemma UpdatesOfDifferentLinesCommute(lines: seq<LineDraft>, i: int, j: int, u: LineUpdate, v: LineUpdate)
    requires i != j
    ensures UpdateLine(UpdateLine(lines, i, u), j, v) == UpdateLine(UpdateLine(lines, j, v), i, u)
  {
  }

  /** An added blank line is not submitted: the request is the same without it. */
  lemma BlankLineNotSubmitted(lines: seq<LineDraft>)
    ensures SubmittedLines(AddLine(lines)) == SubmittedLines(lines)
  {
    FilterAppend(HasItem, lines, [BlankLine]);
    assert [BlankLine][1..] == [];
  }

  /** When every line has an item, every line is submitted. */
  lemma CompleteLinesAllSubmitted(lines: seq<LineDraft>)
    requires forall i :: 0 <= i < |lines| ==> lines[i].itemId != ""
    ensures SubmittedLines(lines) == lines
  {
    FilterKeepsAll(HasItem, lines);
  }

  // ---------------------------------------------------------------------------
  // Choosing an item

  /** An inventory item as the item picker offers it: its id and unit price. */
  datatype CatalogEntry = CatalogEntry(id: string, unitPrice: real)

  /** `items.find(i => i.id === value)`: the first entry with that id. */
  function FindEntry(catalog: seq<CatalogEntry>, id: string): (r: Option<CatalogEntry>)
    ensures r.Some? ==> r.value in catalog && r.value.id == id
    ensures r.Some? ==>
      exists k :: 0 <= k < |catalog| && catalog[k] == r.value && forall j :: 0 <= j < k ==> catalog[j].id != id
    ensures r.None? <==> forall i :: 0 <= i < |catalog| ==> catalog[i].id != id
  {
    if catalog == [] then None
    else if catalog[0].id == id then Some(catalog[0])
    else
      var rest := FindEntry(catalog[1..], id);
      assert forall i :: 1 <= i < |catalog| ==> catalog[i] == catalog[1..][i - 1];
      rest
  }

  /** The picker's change handler as written: both `updateOrderItem` calls map
      over the `orderItems` of the same render, so the second replacement,
      which sets only the price, is the list that stays. */
  function SelectItemAsWritten(lines: seq<LineDraft>, index: int, value: string, catalog: seq<CatalogEntry>)
    : (r: seq<LineDraft>)
    ensures |r| == |lines|
    ensures forall i :: 0 <= i < |lines| && i != index ==> r[i] == lines[i]
    ensures 0 <= index < |lines| && FindEntry(catalog, value).Some? ==>
      r[index] == lines[index].(unitPrice := FindEntry(catalog, value).value.unitPrice)
    ensures 0 <= index < |lines| && FindEntry(catalog, value).None? ==>
      r[index] == lines[index].(itemId := value)
  {
    match FindEntry(catalog, value)
    case None => UpdateLine(lines, index, SetItemId(value))
    case Some(entry) => UpdateLine(lines, index, SetUnitPrice(entry.unitPrice))
  }

  /** Whenever the chosen item is in the list, the line keeps the item id it
      had: on a new line the choice is lost, and the line is not submitted. */
  lemma SelectedItemIsLost(lines: seq<LineDraft>, index: int, value: string, catalog: seq<CatalogEntry>)
    requires 0 <= index < |lines|
    requires exists i :: 0 <= i < |catalog| && catalog[i].id == value
    ensures SelectItemAsWritten(lines, index, value, catalog)[index].itemId == lines[index].itemId
    ensures lines == [BlankLine] ==> SubmittedLines(SelectItemAsWritten(lines, index, value, catalog)) == []
  {
    var r := SelectItemAsWritten(lines, index, value, catalog);
    if lines == [BlankLine] {
      assert r == [r[0]] && !HasItem(r[0]);
    }
  }

  /** The picker's change handler as evidently intended: the line at `index`
      takes the chosen id and, when the item is in the list, its unit price. */
  function SelectItem(lines: seq<LineDraft>, index: int, value: string, catalog: seq<CatalogEntry>)
    : (r: seq<LineDraft>)
    ensures |r| == |lines|
    ensures forall i :: 0 <= i < |lines| && i != index ==> r[i] == lines[i]
    ensures 0 <= index < |lines| ==> r[index].itemId == value && r[index].quantity == lines[index].quantity
    ensures 0 <= index < |lines| ==>
      r[index].unitPrice == if FindEntry(catalog, value).Some? then FindEntry(catalog, value).value.unitPrice
                            else lines[index].unitPrice
  {
    var withId := UpdateLine(lines, index, SetItemId(value));
    match FindEntry(catalog, value)
    case None => withId
    case Some(entry) => UpdateLine(withId, index, SetUnitPrice(entry.unitPrice))
  }

  /** After choosing an item the line is submitted with that item; a new line
      is submitted with the item, quantity 1 and the item's price. */
  lemma ChosenItemIsSubmitted(lines: seq<LineDraft>, index: int, value: string, catalog: seq<CatalogEntry>)
    requires 0 <= index < |lines| && value != ""
    ensures SelectItem(lines, index, value, catalog)[index] in SubmittedLines(SelectItem(lines, index, value, catalog))
    ensures FindEntry(catalog, value).Some? && lines == [BlankLine] ==>
      SubmittedLines(SelectItem(lines, index, value, catalog))
        == [LineDraft(value, 1, FindEntry(catalog, value).value.unitPrice)]
  {
    var r := SelectItem(lines, index, value, catalog);
    if lines == [BlankLine] {
      assert r == [r[0]] && HasItem(r[0]);
      FilterKeepsAll(HasItem, r);
    }
  }

  // ---------------------------------------------------------------------------
  // Order number

  /** `String(n).slice(-6)`: the last six characters, or all of them when
      there are fewer. */
  function LastSix(s: string): (t: string)
    ensures |t| == if |s| < 6 then |s| else 6
    ensures t == s[|s| - |t|..]
  {
    if |s| <= 6 then s else s[|s| - 6..]
  }

  /** `ORD-${String(Date.now()).slice(-6)}`, with the clock reading `now` in
      milliseconds. */
  function OrderNumber(now: nat): (r: string)
    ensures 5 <= |r| <= 10 && r[..4] == "ORD-"
    ensures IsDigits(r[4..]) && 1 <= |r[4..]| <= 6
  {
    var digits := LastSix(DecimalString(now));
    assert ("ORD-" + digits)[4..] == digits;
    "ORD-" + digits
  }

  lemma {:induction false} Pow10Monotone(a: nat, b: nat)
    requires a <= b
    ensures Pow10(a) <= Pow10(b)
    decreases b - a
  {
    if a < b {
      Pow10Monotone(a, b - 1);
    }
  }

  lemma Pow10FiveSix()
    ensures Pow10(5) == 100000 && Pow10(6) == 1000000
  {
    assert Pow10(2) == 100;
    assert Pow10(4) == 10000;
  }

  /** The digits after `ORD-` read back as the clock reading modulo a million. */
  lemma OrderNumberDigits(now: nat)
    ensures DecimalValue(OrderNumber(now)[4..]) == now % 1000000
  {
    var s := DecimalString(now);
    var digits := LastSix(s);
    assert OrderNumber(now)[4..] == digits;
    DecimalRoundTrip(now);
    Pow10FiveSix();
    if |s| <= 6 {
      DecimalValueBound(s);
      Pow10Monotone(|s|, 6);
      assert digits == s;
      ModUnique(now, 0, 1000000, now);
    } else {
      LastDigitsValue(s, 6);
    }
  }

  /** Once the clock reading has six digits the number has exactly ten characters. */
  lemma OrderNumberFullLength(now: nat)
    requires now >= 100000
    ensures |OrderNumber(now)| == 10
  {
    var s := DecimalString(now);
    DecimalRoundTrip(now);
    Pow10FiveSix();
    if |s| <= 5 {
      DecimalValueBound(s);
      Pow10Monotone(|s|, 5);
      assert false;
    }
  }

  // ---------------------------------------------------------------------------
  // The dialog

  /** What `createOrder` is called with. */
  datatype NewOrderRequest = NewOrderRequest(
    orderNumber: string,
    orderType: OrderType,
    assignedWorkerId: Option<string>,
    items: seq<LineDraft>)

  /** `assignedWorkerId || undefined`: no worker when none was selected. */
  function WorkerOrNone(assignedWorkerId: string): (w: Option<string>)
    ensures w.None? <==> assignedWorkerId == ""
    ensures w.Some? ==> w.value == assignedWorkerId
  {
    if assignedWorkerId == "" then None else Some(assignedWorkerId)
  }

  /** The state of the dialog: whether it is open, the order type, the selected
      worker and the lines being edited. */
  class OrderForm {
    var open: bool
    var orderType: OrderType
    var assignedWorkerId: string
    var lines: seq<LineDraft>

    /** The line list is never empty. */
    ghost predicate Valid()
      reads this
    {
      |lines| >= 1
    }

    /** The initial state: closed, inbound, no worker and one blank line. */
    predicate IsInitial()
      reads this
    {
      !open && orderType == Inbound && assignedWorkerId == "" && lines == [BlankLine]
    }

    constructor()
      ensures Valid() && IsInitial()
    {
      open := false;
      orderType := Inbound;
      assignedWorkerId := "";
      lines := [BlankLine];
    }

    /** `addOrderItem`. */
    method AddOrderItem()
      requires Valid()
      modifies this
      ensures Valid()
      ensures lines == AddLine(old(lines))
      ensures open == old(open) && orderType == old(orderType) && assignedWorkerId == old(assignedWorkerId)
    {
      lines := AddLine(lines);
    }

    /** `removeOrderItem(index)`. */
    method RemoveOrderItem(index: int)
      requires Valid()
      modifies this
      ensures Valid()
      ensures lines == RemoveLine(old(lines), index)
      ensures open == old(open) && orderType == old(orderType) && assignedWorkerId == old(assignedWorkerId)
    {
      if |lines| > 1 {
        lines := WithoutIndex(lines, index);
      }
    }

    /** `updateOrderItem(index, field, value)`. */
    method UpdateOrderItem(index: int, u: LineUpdate)
      requires Valid()
      modifies this
      ensures Valid()
      ensures lines == UpdateLine(old(lines), index, u)
      ensures open == old(open) && orderType == old(orderType) && assignedWorkerId == old(assignedWorkerId)
    {
      lines := UpdateLine(lines, index, u);
    }

    /** The item picker's change handler as written (`onChange` of the item
        select): the price update is the one that stays. */
    method SelectOrderItemAsWritten(index: int, value: string, catalog: seq<CatalogEntry>)
      requires Valid()
      modifies this
      ensures Valid()
      ensures lines == SelectItemAsWritten(old(lines), index, value, catalog)
      ensures open == old(open) && orderType == old(orderType) && assignedWorkerId == old(assignedWorkerId)
    {
      lines := SelectItemAsWritten(lines, index, value, catalog);
    }

    /** The item picker's change handler as corrected (see `SelectItem`): the
        id and the price are set on the same line. This is not what the
        handler as written does; `SelectOrderItemAsWritten` is. */
    method SelectOrderItem(index: int, value: string, catalog: seq<CatalogEntry>)
      requires Valid()
      modifies this
      ensures Valid()
      ensures lines == SelectItem(old(lines), index, value, catalog)
      ensures open == old(open) && orderType == old(orderType) && assignedWorkerId == old(assignedWorkerId)
    {
      lines := SelectItem(lines, index, value, catalog);
    }

    /** `handleSubmit`: sends the request built from the current state; when
        `createOrder` succeeds (`created`) the form goes back to its initial
        state, otherwise it is left as it was. */
    method HandleSubmit(now: nat, created: bool) returns (request: NewOrderRequest)
      requires Valid()
      modifies this
      ensures Valid()
      ensures request == NewOrderRequest(OrderNumber(now), old(orderType), WorkerOrNone(old(assignedWorkerId)),
        SubmittedLines(old(lines)))
      ensures created ==> IsInitial()
      ensures !created ==> (open == old(open) && orderType == old(orderType)
        && assignedWorkerId == old(assignedWorkerId) && lines == old(lines))
    {
      request := NewOrderRequest(OrderNumber(now), orderType, WorkerOrNone(assignedWorkerId), SubmittedLines(lines));
      if created {
        Reset();
      }
    }

    /** The reset after a successful submit: back to the initial state. */
    method Reset()
      modifies this
      ensures Valid() && IsInitial()
    {
      orderType := Inbound;
      assignedWorkerId := "";
      lines := [BlankLine];
      open := false;
    }
  }
}
