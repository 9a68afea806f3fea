/** The purchase-order collection endpoint: listing every order with its
    five newest activity entries, and creating an order from the request
    body (or a generated one), logging and announcing the creation. */
module PurchaseOrdersRoute {
  import opened Base
  import opened Records
  import opened Generators
  import opened Query
  import opened Store
  import opened Events
  import opened Audit

  const CreateFailed := "Failed to create purchase order"
  const CreatedStatus := 201

  // ---- GET ----

  /** One element of the listing: the order and its newest log entries. */
  datatype PoListing = PoListing(purchaseOrder: PurchaseOrder, activityLogs: seq<ActivityLog>)

  /** The log entries that belong to purchase order `poId`. */
  function LogsOf(logs: seq<ActivityLog>, poId: string): (r: seq<ActivityLog>)
    ensures forall l :: l in r <==> l in logs && l.purchaseOrderId == Some(poId)
  {
    Where(logs, (l: ActivityLog) => l.purchaseOrderId == Some(poId))
  }

  function Timestamp(l: ActivityLog): int { l.timestamp }
  function CreatedAt(po: PurchaseOrder): int { po.createdAt }

  function ListedOrders(listing: seq<PoListing>): (r: seq<PurchaseOrder>)
    ensures |r| == |listing|
    ensures forall i :: 0 <= i < |r| ==> r[i] == listing[i].purchaseOrder
  {
    if listing == [] then [] else [listing[0].purchaseOrder] + ListedOrders(listing[1..])
  }

  /** The `activityLogs` included with order `poId`: its entries, newest
      first, at most five, and none left out that is newer than one kept. */
  function RecentLogs(logs: seq<ActivityLog>, poId: string): (r: seq<ActivityLog>)
    ensures |r| == Min(5, |LogsOf(logs, poId)|)
    ensures SortedDesc(r, Timestamp)
    ensures forall l :: l in r ==> l in logs && l.purchaseOrderId == Some(poId)
    ensures forall l, k :: l in LogsOf(logs, poId) && l !in r && k in r ==> k.timestamp >= l.timestamp
  {
    var mine := LogsOf(logs, poId);
    var r := TakeNewest(mine, Timestamp, 5);
    forall l | l in r
      ensures l in mine
    {
      assert l in multiset(r);
    }
    forall l, k | l in mine && l !in r && k in r
      ensures k.timestamp >= l.timestamp
    {
      assert Timestamp(k) >= Timestamp(l);
    }
    r
  }

  /** `findMany({ orderBy: { createdAt: 'desc' }, include: { activityLogs:
      { orderBy: { timestamp: 'desc' }, take: 5 } } })`: every order once,
      newest first, each with its recent log entries. */
  function List(pos: seq<PurchaseOrder>, logs: seq<ActivityLog>): (r: seq<PoListing>)
    ensures multiset(ListedOrders(r)) == multiset(pos)
    ensures SortedDesc(ListedOrders(r), CreatedAt)
    ensures forall i :: 0 <= i < |r| ==> r[i].activityLogs == RecentLogs(logs, r[i].purchaseOrder.id)
  {
    var sorted := OrderByDesc(pos, CreatedAt);
    var r := seq(|sorted|, i requires 0 <= i < |sorted| =>
                   PoListing(sorted[i], RecentLogs(logs, sorted[i].id)));
    assert ListedOrders(r) == sorted;
    r
  }

  // ---- POST ----

  /** A JSON object sent as the request body, by the fields the route reads;
      `None` is a field that is missing. */
  datatype PoBody = PoBody(
    vendor: Option<string>, items: Option<ItemsField>, total: Option<int>, status: Option<string>)

  /** The data the create call receives for a body; `None` when a required
      column (vendor, items, total) is missing and the store rejects the row. */
  function PoDataFromBody(b: PoBody): (r: Option<PoData>)
    ensures r.Some? <==> b.vendor.Some? && b.items.Some? && b.total.Some?
    ensures r.Some? ==> r.value.status != ""
  {
    if b.vendor.None? || b.items.None? || b.total.None? then None
    else Some(PoData(b.vendor.value, StoredItems(b.items.value), b.total.value, StatusOr(b.status, Pending)))
  }

  /** The body a client sends to store a given order's data. */
  function BodyOf(d: PoData): PoBody {
    PoBody(Some(d.vendor), Some(ItemsString(d.items)), Some(d.total), Some(d.status))
  }

  /** Posting an order's own data stores exactly that data, as long as its
      status is not empty (an empty one becomes "pending"). */
  lemma BodyRoundTrip(d: PoData)
    ensures d.status != "" ==> PoDataFromBody(BodyOf(d)) == Some(d)
    ensures d.status == "" ==> PoDataFromBody(BodyOf(d)) == Some(d.(status := Pending))
  {
  }

  /** Items posted as a JSON array of line items are read back unchanged. */
  lemma PostedItemsRoundTrip(vendor: string, items: seq<LineItem>, total: int, status: Option<string>)
    ensures var b := PoBody(Some(vendor), Some(ItemsValue(JArr(EncodeAll(items)))), Some(total), status);
            PoDataFromBody(b).Some? && ParseItems(PoDataFromBody(b).value.items) == items
  {
    ParseItemsText(items);
  }

  /** The two writes of a POST: the order, stamped `now`, and its
      `created` entry with the vendor and total as details. The new id is
      fresh, and both audit properties carry over. */
  method Create(store: Store, data: PoData, now: int) returns (po: PurchaseOrder)
    requires store.Valid()
    modifies store
    ensures store.Valid()
    ensures po == PurchaseOrder(IdOf(old(store.nextId)), data.vendor, data.items, data.total, data.status, now, now)
    ensures forall i :: 0 <= i < |old(store.purchaseOrders)| ==> old(store.purchaseOrders)[i].id != po.id
    ensures store.purchaseOrders == old(store.purchaseOrders) + [po]
    ensures store.activityLogs == old(store.activityLogs) + [CreatedLog(IdOf(old(store.nextId) + 1), po, now)]
    ensures store.nextId == old(store.nextId) + 2
    ensures store.invoices == old(store.invoices) && store.automationRuns == old(store.automationRuns)
    ensures old(CreationLogged(store.purchaseOrders, store.activityLogs)
                && StatusesMatchLog(store.purchaseOrders, store.activityLogs))
            ==> CreationLogged(store.purchaseOrders, store.activityLogs)
                && StatusesMatchLog(store.purchaseOrders, store.activityLogs)
  {
    ghost var pos, logs := store.purchaseOrders, store.activityLogs;
    ghost var n := store.nextId;
    ParseNatToString(n);
    po := store.CreatePurchaseOrder(data, now, now);
    var log := store.CreateActivityLog(PurchaseOrderEntity, po.id, Created,
                                       Some(VendorTotalDetails(po.vendor, po.total)), now, Some(po.id));
    assert log == CreatedLog(IdOf(n + 1), po, now);
    if CreationLogged(pos, logs) && StatusesMatchLog(pos, logs) {
      CreatePreservesAudit(pos, logs, po, IdOf(n + 1), now);
    }
  }

  /** `POST /api/purchase-orders`. `body` is `None` when the request has no
      JSON body or a falsy one; then a generated order is stored. */
  method Post(store: Store, bus: EventBus<PoEvent>, body: Option<PoBody>, draws: DocumentDraws,
              now: int, failing: set<Callback>)
    returns (response: Response<PurchaseOrder>, deliveries: seq<Delivery<PoEvent>>)
    requires store.Valid()
    modifies store
    ensures store.Valid()
    ensures response.ServerError? <==> body.Some? && PoDataFromBody(body.value).None?
    ensures response.ServerError? ==>
              && response.error == CreateFailed && deliveries == []
              && store.purchaseOrders == old(store.purchaseOrders)
              && store.activityLogs == old(store.activityLogs)
              && store.nextId == old(store.nextId)
    ensures response.Ok? ==>
              var po := response.body;
              && response.status == CreatedStatus
              && po.id == IdOf(old(store.nextId)) && po.createdAt == now && po.updatedAt == now
              && (forall i :: 0 <= i < |old(store.purchaseOrders)| ==> old(store.purchaseOrders)[i].id != po.id)
              && (body.Some? ==>
                    PoDataFromBody(body.value) == Some(PoData(po.vendor, po.items, po.total, po.status)))
              && (body.None? ==>
                    && po.status == Pending && po.vendor in Vendors
                    && 1 <= |ParseItems(po.items)| <= 5 && po.total == ItemsTotal(ParseItems(po.items)))
              && store.purchaseOrders == old(store.purchaseOrders) + [po]
              && store.activityLogs == old(store.activityLogs) + [CreatedLog(IdOf(old(store.nextId) + 1), po, now)]
              && |deliveries| == |bus.Listeners(PoCreated)|
              && forall i :: 0 <= i < |deliveries| ==>
                   deliveries[i] == Delivery(bus.Listeners(PoCreated)[i], PoPayload(po),
                                             bus.Listeners(PoCreated)[i] in failing)
    ensures store.invoices == old(store.invoices) && store.automationRuns == old(store.automationRuns)
    ensures old(CreationLogged(store.purchaseOrders, store.activityLogs)
                && StatusesMatchLog(store.purchaseOrders, store.activityLogs))
            ==> CreationLogged(store.purchaseOrders, store.activityLogs)
                && StatusesMatchLog(store.purchaseOrders, store.activityLogs)
  {
    deliveries := [];
    var data: PoData;
    if body.Some? {
      var parsed := PoDataFromBody(body.value);
      if parsed.None? {
        response := ServerError(CreateFailed);
        return;
      }
      data := parsed.value;
    } else {
      data := GeneratePurchaseOrder(draws);
    }
    var po := Create(store, data, now);
    deliveries := bus.Emit(PoCreated, PoPayload(po), failing);
    response := Ok(CreatedStatus, po);
  }
}
