/** The four stored entities, their line items, and the JSON payloads the
    application writes into their text columns. */
module Records {
  import opened Base

  // Purchase-order statuses, in their forward order.
  const Pending := "pending"
  const Ordered := "ordered"
  const Delivered := "delivered"
  const Received := "received"

  // Invoice statuses.
  const Unprocessed := "unprocessed"
  const Processing := "processing"
  const Processed := "processed"
  const Failed := "failed"

  // Automation-run statuses (besides "processing" and "failed").
  const Success := "success"

  // Activity-log actions and entity type.
  const Created := "created"
  const StatusChanged := "status_changed"
  const CreatedFromInvoice := "created_from_invoice"
  const PurchaseOrderEntity := "purchase_order"

  // Time units, in milliseconds.
  const SecondMs := 1000
  const MinuteMs := 60_000
  const HourMs := 3_600_000
  const DayMs := 86_400_000

  /** One priced product line. Money is in cents, so the source's
      `parseFloat((quantity * unitPrice).toFixed(2))` is the exact product. */
  datatype LineItem = LineItem(name: string, quantity: int, unitPrice: int, total: int)

  predicate WellPriced(item: LineItem) {
    item.total == item.quantity * item.unitPrice
  }

  /** `items.reduce((sum, item) => sum + item.total, 0)`. */
  function ItemsTotal(items: seq<LineItem>): (t: int)
    ensures (forall i :: 0 <= i < |items| ==> items[i].total >= 0) ==> t >= 0
  {
    if items == [] then 0 else ItemsTotal(items[..|items| - 1]) + items[|items| - 1].total
  }

  lemma {:induction false} ItemsTotalAppend(items: seq<LineItem>, more: seq<LineItem>)
    ensures ItemsTotal(items + more) == ItemsTotal(items) + ItemsTotal(more)
  {
    if more == [] {
      assert items + more == items;
    } else {
      assert (items + more)[..|items + more| - 1] == items + more[..|more| - 1];
      ItemsTotalAppend(items, more[..|more| - 1]);
    }
  }

  datatype PurchaseOrder = PurchaseOrder(
    id: string, vendor: string, items: Text, total: int, status: string,
    createdAt: int, updatedAt: int)

  datatype Invoice = Invoice(
    id: string, vendor: string, lineItems: Text, total: int, status: string,
    linkedPOId: Option<string>, createdAt: int, updatedAt: int)

  datatype ActivityLog = ActivityLog(
    id: string, entityType: string, entityId: string, action: string,
    details: Option<Text>, timestamp: int, purchaseOrderId: Option<string>)

  datatype AutomationRun = AutomationRun(
    id: string, invoiceId: string, poId: Option<string>, status: string,
    details: Option<Text>, startedAt: int, completedAt: Option<int>)

  /** The data the live-update channel carries for the purchase-order topics. */
  datatype PoEvent =
    | PoPayload(po: PurchaseOrder)
    | StatusChangedPayload(purchaseOrder: PurchaseOrder, from: string, to: string)

  // ---- line items as JSON ----

  function EncodeItem(item: LineItem): Json {
    JObj(map["name" := JStr(item.name), "quantity" := JNum(item.quantity),
             "unitPrice" := JNum(item.unitPrice), "total" := JNum(item.total)])
  }

  function DecodeItem(v: Json): Option<LineItem> {
    if v.JObj? && "name" in v.fields && "quantity" in v.fields
       && "unitPrice" in v.fields && "total" in v.fields
       && v.fields["name"].JStr? && v.fields["quantity"].JNum?
       && v.fields["unitPrice"].JNum? && v.fields["total"].JNum?
    then Some(LineItem(v.fields["name"].s, v.fields["quantity"].n,
                       v.fields["unitPrice"].n, v.fields["total"].n))
    else None
  }

  function EncodeAll(items: seq<LineItem>): (r: seq<Json>)
    ensures |r| == |items|
  {
    if items == [] then [] else [EncodeItem(items[0])] + EncodeAll(items[1..])
  }

  function DecodeAll(elems: seq<Json>): Option<seq<LineItem>> {
    if elems == [] then Some([])
    else match (DecodeItem(elems[0]), DecodeAll(elems[1..]))
      case (Some(item), Some(rest)) => Some([item] + rest)
      case _ => None
  }

  /** `JSON.stringify(items)`: the text stored in an `items`/`lineItems` column. */
  function ItemsText(items: seq<LineItem>): Text {
    Stringify(JArr(EncodeAll(items)))
  }

  /** Decoding the serialized line items gives them back unchanged. */
  lemma {:induction false} DecodeEncodeAll(items: seq<LineItem>)
    ensures DecodeAll(EncodeAll(items)) == Some(items)
  {
    if items != [] {
      var item := items[0];
      assert DecodeItem(EncodeItem(item)) == Some(item);
      DecodeEncodeAll(items[1..]);
      assert [item] + items[1..] == items;
    }
  }

  /** The client helper `parseItems`: the parsed line items, or `[]` when the
      text is malformed. */
  function ParseItems(text: Text): (items: seq<LineItem>)
    ensures text.Malformed? ==> items == []
  {
    match Parse(text)
    case None => []
    case Some(v) =>
      if v.JArr? && DecodeAll(v.elems).Some? then DecodeAll(v.elems).value else []
  }

  /** What the client reads back from a column written with `ItemsText`. */
  lemma ParseItemsText(items: seq<LineItem>)
    ensures ParseItems(ItemsText(items)) == items
  {
    DecodeEncodeAll(items);
  }

  // ---- detail payloads ----

  const UnknownError := "Unknown error"

  /** The client helper `parseError`: the `error` field of the details, or
      "Unknown error" when the details are null, malformed, not an object or
      carry no (or a null) `error`. Null details are parsed as `'{}'`. */
  function ParseError(details: Option<Text>): (r: Json)
    ensures details.None? ==> r == JStr(UnknownError)
    ensures details == Some(Malformed) ==> r == JStr(UnknownError)
    ensures details.Some? && details.value.Wellformed? && details.value.value.JObj?
            && "error" in details.value.value.fields
            && details.value.value.fields["error"] != JNull
            ==> r == details.value.value.fields["error"]
    ensures r != JStr(UnknownError) ==>
              details.Some? && details.value.Wellformed? && details.value.value.JObj?
              && "error" in details.value.value.fields
              && r == details.value.value.fields["error"]
  {
    var text := if details.Some? then details.value else Stringify(JObj(map[]));
    match Parse(text)
    case None => JStr(UnknownError)
    case Some(parsed) =>
      // Reading `.error` of a parsed `null` throws; the catch answers "Unknown error".
      if parsed == JNull then JStr(UnknownError)
      else OrElse(Member(parsed, "error"), JStr(UnknownError))
  }

  /** `details ? JSON.parse(details) : null` inside a `try`: the parsed
      details, or `null` when there are none or they are malformed. */
  function ParseDetails(details: Option<Text>): (v: Json)
    ensures details.None? || details == Some(Malformed) ==> v == JNull
    ensures details.Some? && details.value.Wellformed? ==> v == details.value.value
  {
    if details.None? then JNull
    else match Parse(details.value)
      case None => JNull
      case Some(parsed) => parsed
  }

  function StatusChangeDetails(from: string, to: string): Text {
    Stringify(JObj(map["from" := JStr(from), "to" := JStr(to)]))
  }

  /** `{ vendor, total }`: the details of a `created` entry and of a
      successful automation run. */
  function VendorTotalDetails(vendor: string, total: int): Text {
    Stringify(JObj(map["vendor" := JStr(vendor), "total" := JNum(total)]))
  }

  function ErrorDetails(error: string): Text {
    Stringify(JObj(map["error" := JStr(error)]))
  }

  // ---- request bodies ----

  /** The `items` of a request body: a string is stored as it is, any other
      value is serialized. */
  datatype ItemsField = ItemsString(text: Text) | ItemsValue(value: Json)

  /** `typeof items === 'string' ? items : JSON.stringify(items)`. */
  function StoredItems(f: ItemsField): (t: Text)
    ensures f.ItemsString? ==> t == f.text
    ensures f.ItemsValue? ==> Parse(t) == Some(f.value)
  {
    match f
    case ItemsString(text) => text
    case ItemsValue(v) => Stringify(v)
  }

  /** `status || fallback`: an absent or empty status falls back. */
  function StatusOr(status: Option<string>, fallback: string): (s: string)
    ensures status.Some? && status.value != "" ==> s == status.value
    ensures status.None? || status.value == "" ==> s == fallback
  {
    if status.Some? && status.value != "" then status.value else fallback
  }
}
