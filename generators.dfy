/** The purchase-order status flow and the pseudo-data generators. Every
    `Math.random()` the generators consume is an explicit draw in [0, 1). */
module Generators {
  import opened Base
  import opened Records

  /** One value of `Math.random()`. */
  type Unit = r: real | 0.0 <= r < 1.0

  /** The strict forward order of purchase-order statuses. */
  const Flow: seq<string> := [Pending, Ordered, Delivered, Received]

  /** `indexOf`: the first position of `x` in `s`, or -1. */
  function IndexOf(s: seq<string>, x: string): (i: int)
    ensures -1 <= i < |s|
    ensures i == -1 <==> x !in s
    ensures i >= 0 ==> s[i] == x && x !in s[..i]
  {
    if s == [] then -1
    else if s[0] == x then 0
    else
      var j := IndexOf(s[1..], x);
      if j == -1 then -1
      else
        assert s[..j + 1] == [s[0]] + s[1..][..j];
        j + 1
  }

  /** `getNextStatus`: the immediate successor in the flow, or `None` for
      the last status and for any string that is not in the flow. */
  function NextStatus(current: string): (next: Option<string>)
    ensures next.Some? <==> current in Flow && current != Received
    ensures next.Some? ==> next.value in Flow
                           && IndexOf(Flow, next.value) == IndexOf(Flow, current) + 1
  {
    var currentIndex := IndexOf(Flow, current);
    if currentIndex == -1 || currentIndex == |Flow| - 1 then None
    else Some(Flow[currentIndex + 1])
  }

  /** The flow lists four distinct statuses, so each sits at its own index. */
  lemma FlowIndices()
    ensures NoDuplicates(Flow)
    ensures forall i :: 0 <= i < |Flow| ==> IndexOf(Flow, Flow[i]) == i
  {
    assert Flow[..1] == [Pending];
    assert Flow[..2] == [Pending, Ordered];
    assert Flow[..3] == [Pending, Ordered, Delivered];
  }

  /** Applying `NextStatus` `n` times, stopping at the first `None`. */
  function Walk(start: string, n: nat): Option<string> {
    if n == 0 then Some(start)
    else match Walk(start, n - 1)
      case None => None
      case Some(s) => NextStatus(s)
  }

  /** From "pending", `n` steps reach the `n`-th status of the flow for n <= 3,
      and the fourth step yields `None`. */
  lemma {:induction false} WalkFromPending(n: nat)
    ensures n < |Flow| ==> Walk(Pending, n) == Some(Flow[n])
    ensures n >= |Flow| ==> Walk(Pending, n) == None
  {
    FlowIndices();
    if n > 0 {
      WalkFromPending(n - 1);
      if n - 1 < |Flow| {
        var prev := Flow[n - 1];
        assert IndexOf(Flow, prev) == n - 1;
        if n < |Flow| {
          var next := NextStatus(prev).value;
          assert IndexOf(Flow, next) == n;
          assert Flow[IndexOf(Flow, next)] == next;
        }
      }
    }
  }

  /** `randomInt(min, max)`: `Math.floor(r * (max - min + 1)) + min`. */
  function RandomInt(min: int, max: int, r: Unit): (n: int)
    requires min <= max
    ensures min <= n <= max
  {
    var span := (max - min + 1) as real;
    var x := r * span;
    assert 0.0 <= x < span by {
      assert span - x == (1.0 - r) * span;
      assert (1.0 - r) * span > 0.0;
    }
    x.Floor + min
  }

  /** `randomChoice(arr)`: the element at `Math.floor(r * arr.length)`. */
  function RandomChoice<T>(arr: seq<T>, r: Unit): (x: T)
    requires |arr| > 0
    ensures x in arr
  {
    arr[RandomInt(0, |arr| - 1, r)]
  }

  /** `toFixed(2)` on an amount in dollars, read as cents: the nearest cent,
      halves rounded up. */
  function RoundCents(cents: real): int {
    (cents + 0.5).Floor
  }

  datatype Category = Category(name: string, items: seq<string>)

  /** The constants that distinguish the application's line-item generator
      from the seed script's: how many items, the quantity range, the unit
      price range (`Math.random() * spread + base` dollars, here in cents)
      and the product catalogue. */
  datatype ItemProfile = ItemProfile(
    maxCount: int, maxQuantity: int, priceBase: int, priceSpread: int,
    categories: seq<Category>)
  {
    predicate Valid() {
      maxCount >= 1 && maxQuantity >= 1 && priceBase >= 0 && priceSpread >= 0
      && |categories| > 0
      && forall i :: 0 <= i < |categories| ==> |categories[i].items| > 0
    }
  }

  const Vendors: seq<string> := [
    "Acme Supplies Co.", "Global Parts Inc.", "Tech Components Ltd.",
    "Office Essentials", "Industrial Materials Corp.", "Quick Ship Logistics",
    "Premium Goods LLC", "Eastern Distributors"]

  const ProductCategories: seq<Category> := [
    Category("Office Supplies", ["Paper Reams", "Printer Ink", "Staplers", "Folders", "Pens (Box)"]),
    Category("Electronics", ["USB Cables", "Monitors", "Keyboards", "Mice", "Webcams"]),
    Category("Industrial", ["Safety Gloves", "Hard Hats", "Steel Bolts", "Lubricant", "Wire Spools"]),
    Category("Furniture", ["Office Chairs", "Desks", "Filing Cabinets", "Shelving Units", "Lamps"])]

  /** 1 to 5 items, quantities 1 to 50, unit prices from $5 to $205. */
  const AppProfile := ItemProfile(5, 50, 500, 20000, ProductCategories)

  /** The four random draws consumed for one line item. */
  datatype ItemDraw = ItemDraw(category: Unit, name: Unit, quantity: Unit, price: Unit)

  /** One iteration of the generator loop. */
  function DrawItem(p: ItemProfile, d: ItemDraw): (item: LineItem)
    requires p.Valid()
    ensures WellPriced(item)
    ensures 1 <= item.quantity <= p.maxQuantity
    ensures p.priceBase <= item.unitPrice <= p.priceBase + p.priceSpread
    ensures exists c :: c in p.categories && item.name in c.items
  {
    var category := RandomChoice(p.categories, d.category);
    var name := RandomChoice(category.items, d.name);
    var quantity := RandomInt(1, p.maxQuantity, d.quantity);
    var spread := p.priceSpread as real;
    var x := d.price * spread;
    assert 0.0 <= x <= spread by {
      assert d.price * spread <= 1.0 * spread;
    }
    var unitPrice := RoundCents(x + p.priceBase as real);
    LineItem(name, quantity, unitPrice, quantity * unitPrice)
  }

  /** `count ?? randomInt(1, maxCount)`; a negative count makes the loop run zero times. */
  function ItemCount(p: ItemProfile, count: Option<int>, countDraw: Unit): (n: int)
    requires p.Valid()
    ensures count.Some? ==> n == count.value
    ensures count.None? ==> 1 <= n <= p.maxCount
  {
    if count.Some? then count.value else RandomInt(1, p.maxCount, countDraw)
  }

  /** `generateLineItems(count?)`: the loop that pushes one drawn item per
      iteration. Item `i` is made from the draws `draws(i)`. */
  method GenerateLineItems(p: ItemProfile, count: Option<int>, countDraw: Unit, draws: nat -> ItemDraw)
    returns (items: seq<LineItem>)
    requires p.Valid()
    ensures |items| == Max(ItemCount(p, count, countDraw), 0)
    ensures count.Some? && count.value >= 0 ==> |items| == count.value
    ensures count.None? ==> 1 <= |items| <= p.maxCount
    ensures forall i :: 0 <= i < |items| ==> items[i] == DrawItem(p, draws(i))
    ensures forall i :: 0 <= i < |items| ==>
              WellPriced(items[i]) && 1 <= items[i].quantity <= p.maxQuantity
  {
    var numItems := ItemCount(p, count, countDraw);
    items := [];
    var i := 0;
    while i < numItems
      invariant 0 <= i == |items|
      invariant i <= Max(numItems, 0)
      invariant forall k :: 0 <= k < i ==> items[k] == DrawItem(p, draws(k))
    {
      items := items + [DrawItem(p, draws(i))];
      i := i + 1;
    }
  }

  /** The fields a new purchase order is created with. */
  datatype PoData = PoData(vendor: string, items: Text, total: int, status: string)

  /** The fields a new invoice is created with. */
  datatype InvoiceData = InvoiceData(
    vendor: string, lineItems: Text, total: int, status: string, linkedPOId: Option<string>)

  /** All random draws one call of a document generator consumes. */
  datatype DocumentDraws = DocumentDraws(count: Unit, items: nat -> ItemDraw, vendor: Unit)

  /** `generatePurchaseOrder()`: 1 to 5 drawn items, their summed total, a
      drawn vendor and status "pending". */
  method GeneratePurchaseOrder(draws: DocumentDraws) returns (po: PoData)
    ensures po.status == Pending
    ensures po.vendor in Vendors
    ensures 1 <= |ParseItems(po.items)| <= 5
    ensures po.total == ItemsTotal(ParseItems(po.items))
    ensures forall i :: 0 <= i < |ParseItems(po.items)| ==>
              WellPriced(ParseItems(po.items)[i]) && 1 <= ParseItems(po.items)[i].quantity <= 50
  {
    var items := GenerateLineItems(AppProfile, None, draws.count, draws.items);
    ParseItemsText(items);
    po := PoData(RandomChoice(Vendors, draws.vendor), ItemsText(items), ItemsTotal(items), Pending);
    var parsed := ParseItems(po.items);
    assert parsed == items;
    forall i | 0 <= i < |parsed|
      ensures WellPriced(parsed[i]) && 1 <= parsed[i].quantity <= 50
    {
      assert parsed[i] == items[i];
    }
  }

  /** `generateInvoice(linkedPOId?)`: "processed" exactly when a non-empty
      linked id is given, and the linked id is kept as given (null when absent). */
  method GenerateInvoice(linkedPOId: Option<string>, draws: DocumentDraws) returns (inv: InvoiceData)
    ensures inv.status == (if linkedPOId.Some? && linkedPOId.value != "" then Processed else Unprocessed)
    ensures inv.linkedPOId == linkedPOId
    ensures inv.vendor in Vendors
    ensures 1 <= |ParseItems(inv.lineItems)| <= 5
    ensures inv.total == ItemsTotal(ParseItems(inv.lineItems))
  {
    var items := GenerateLineItems(AppProfile, None, draws.count, draws.items);
    ParseItemsText(items);
    var status := if linkedPOId.Some? && linkedPOId.value != "" then Processed else Unprocessed;
    inv := InvoiceData(RandomChoice(Vendors, draws.vendor), ItemsText(items), ItemsTotal(items),
                       status, linkedPOId);
  }
}
