/** The invoice collection endpoint: listing every invoice with its latest
    automation run, and creating an invoice from the request body (or a
    generated one). */
module InvoicesRoute {
  import opened Base
  import opened Records
  import opened Generators
  import opened Query
  import opened Store

  const CreateFailed := "Failed to create invoice"
  const CreatedStatus := 201

  // ---- GET ----

  /** One element of the listing: the invoice and at most its newest run. */
  datatype InvoiceListing = InvoiceListing(invoice: Invoice, automationRuns: seq<AutomationRun>)

  /** The automation runs made for invoice `invoiceId`. */
  function RunsOf(runs: seq<AutomationRun>, invoiceId: string): (r: seq<AutomationRun>)
    ensures forall x :: x in r <==> x in runs && x.invoiceId == invoiceId
  {
    Where(runs, (x: AutomationRun) => x.invoiceId == invoiceId)
  }

  function StartedAt(x: AutomationRun): int { x.startedAt }
  function InvoiceCreatedAt(inv: Invoice): int { inv.createdAt }

  /** `automationRuns: { orderBy: { startedAt: 'desc' }, take: 1 }`: empty
      exactly when the invoice has no run, and otherwise one of its runs
      started no earlier than any other. */
  function LatestRun(runs: seq<AutomationRun>, invoiceId: string): (r: seq<AutomationRun>)
    ensures |r| <= 1
    ensures r == [] <==> forall x :: x in runs ==> x.invoiceId != invoiceId
    ensures r != [] ==>
              r[0] in runs && r[0].invoiceId == invoiceId
              && forall x :: x in runs && x.invoiceId == invoiceId ==> r[0].startedAt >= x.startedAt
  {
    var mine := RunsOf(runs, invoiceId);
    var r := TakeNewest(mine, StartedAt, 1);
    LatestOfTake(runs, invoiceId, mine, r);
    r
  }

  lemma LatestOfTake(runs: seq<AutomationRun>, invoiceId: string, mine: seq<AutomationRun>, r: seq<AutomationRun>)
    requires forall x :: x in mine <==> x in runs && x.invoiceId == invoiceId
    requires r == TakeNewest(mine, StartedAt, 1)
    ensures r == [] <==> forall x :: x in runs ==> x.invoiceId != invoiceId
    ensures r != [] ==>
              r[0] in runs && r[0].invoiceId == invoiceId
              && forall x :: x in runs && x.invoiceId == invoiceId ==> r[0].startedAt >= x.startedAt
  {
    if r != [] {
      assert r[0] in multiset(r);
      forall x | x in runs && x.invoiceId == invoiceId
        ensures r[0].startedAt >= x.startedAt
      {
        if x != r[0] {
          assert StartedAt(r[0]) >= StartedAt(x);
        }
      }
    }
  }

  function ListedInvoices(listing: seq<InvoiceListing>): (r: seq<Invoice>)
    ensures |r| == |listing|
    ensures forall i :: 0 <= i < |r| ==> r[i] == listing[i].invoice
  {
    if listing == [] then [] else [listing[0].invoice] + ListedInvoices(listing[1..])
  }

  /** `findMany({ orderBy: { createdAt: 'desc' }, include: { automationRuns:
      { orderBy: { startedAt: 'desc' }, take: 1 } } })`: every invoice once,
      newest first, each with its latest run. */
  function List(invoices: seq<Invoice>, runs: seq<AutomationRun>): (r: seq<InvoiceListing>)
    ensures multiset(ListedInvoices(r)) == multiset(invoices)
    ensures SortedDesc(ListedInvoices(r), InvoiceCreatedAt)
    ensures forall i :: 0 <= i < |r| ==> r[i].automationRuns == LatestRun(runs, r[i].invoice.id)
  {
    var sorted := OrderByDesc(invoices, InvoiceCreatedAt);
    var r := seq(|sorted|, i requires 0 <= i < |sorted| =>
                   InvoiceListing(sorted[i], LatestRun(runs, sorted[i].id)));
    assert ListedInvoices(r) == sorted;
    r
  }

  // ---- POST ----

  /** A JSON object sent as the request body, by the fields the route reads;
      `None` is a field that is missing (for `linkedPOId`: missing or null). */
  datatype InvoiceBody = InvoiceBody(
    vendor: Option<string>, lineItems: Option<ItemsField>, total: Option<int>,
    status: Option<string>, linkedPOId: Option<string>)

  /** The data the create call receives for a body; `None` when a required
      column (vendor, line items, total) is missing and the store rejects the row. */
  function InvoiceDataFromBody(b: InvoiceBody): (r: Option<InvoiceData>)
    ensures r.Some? <==> b.vendor.Some? && b.lineItems.Some? && b.total.Some?
    ensures r.Some? ==> r.value.status != "" && r.value.linkedPOId == b.linkedPOId
    ensures r.Some? && (b.status.None? || b.status == Some("")) ==> r.value.status == Unprocessed
  {
    if b.vendor.None? || b.lineItems.None? || b.total.None? then None
    else Some(InvoiceData(b.vendor.value, StoredItems(b.lineItems.value), b.total.value,
                          StatusOr(b.status, Unprocessed), b.linkedPOId))
  }

  /** The body a client sends to store a given invoice's data. */
  function BodyOf(d: InvoiceData): InvoiceBody {
    InvoiceBody(Some(d.vendor), Some(ItemsString(d.lineItems)), Some(d.total), Some(d.status), d.linkedPOId)
  }

  /** Posting an invoice's own data stores exactly that data when its status
      is not empty; an empty one becomes "unprocessed". */
  lemma BodyRoundTrip(d: InvoiceData)
    ensures d.status != "" ==> InvoiceDataFromBody(BodyOf(d)) == Some(d)
    ensures d.status == "" ==> InvoiceDataFromBody(BodyOf(d)) == Some(d.(status := Unprocessed))
  {
  }

  /** `POST /api/invoices`. `body` is `None` when the request has no JSON
      body or a falsy one; then a generated, unlinked invoice is stored. */
  method Post(store: Store, body: Option<InvoiceBody>, draws: DocumentDraws, now: int)
    returns (response: Response<Invoice>)
    requires store.Valid()
    modifies store
    ensures store.Valid()
    ensures response.ServerError? <==> body.Some? && InvoiceDataFromBody(body.value).None?
    ensures response.ServerError? ==>
              response.error == CreateFailed
              && store.invoices == old(store.invoices) && store.nextId == old(store.nextId)
    ensures response.Ok? ==>
              var inv := response.body;
              && response.status == CreatedStatus
              && inv.id == IdOf(old(store.nextId)) && inv.createdAt == now && inv.updatedAt == now
              && (forall i :: 0 <= i < |old(store.invoices)| ==> old(store.invoices)[i].id != inv.id)
              && (body.Some? ==>
                    InvoiceDataFromBody(body.value)
                    == Some(InvoiceData(inv.vendor, inv.lineItems, inv.total, inv.status, inv.linkedPOId)))
              && (body.None? ==>
                    && inv.status == Unprocessed && inv.linkedPOId.None? && inv.vendor in Vendors
                    && 1 <= |ParseItems(inv.lineItems)| <= 5
                    && inv.total == ItemsTotal(ParseItems(inv.lineItems)))
              && store.invoices == old(store.invoices) + [inv]
    ensures store.purchaseOrders == old(store.purchaseOrders)
    ensures store.activityLogs == old(store.activityLogs)
    ensures store.automationRuns == old(store.automationRuns)
  {
    var data: InvoiceData;
    if body.Some? {
      var parsed := InvoiceDataFromBody(body.value);
      if parsed.None? {
        response := ServerError(CreateFailed);
        return;
      }
      data := parsed.value;
    } else {
      data := GenerateInvoice(None, draws);
    }
    ParseNatToString(store.nextId);
    var inv := store.CreateInvoice(data, now, now);
    response := Ok(CreatedStatus, inv);
  }
}
