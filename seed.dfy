/** The seed script: it empties the store, creates fifteen purchase orders
    with their `created` entry and the status changes that led to their
    status, then twelve invoices, the first six processed and linked to the
    first six orders, with an automation run for each processed or failed
    invoice. */
module Seed {
  import opened Base
  import opened Records
  import opened Generators
  import opened Store
  import opened Audit

  const SeedVendors: seq<string> := [
    "Acme Supplies Co.", "Global Parts Inc.", "Tech Components Ltd.",
    "Office Essentials", "Industrial Materials Corp."]

  const SeedCategories: seq<Category> := [
    Category("Office Supplies", ["Paper Reams", "Printer Ink", "Staplers", "Folders", "Pens (Box)"]),
    Category("Electronics", ["USB Cables", "Monitors", "Keyboards", "Mice", "Webcams"]),
    Category("Industrial", ["Safety Gloves", "Hard Hats", "Steel Bolts", "Lubricant", "Wire Spools"])]

  /** 1 to 4 items, quantities 1 to 30, unit prices from $10 to $160. */
  const SeedProfile := ItemProfile(4, 30, 1000, 15000, SeedCategories)

  const PoCount := 15
  const InvoiceCount := 12
  const LinkedCount := 6
  const VendorNotApproved := "Vendor not found in approved vendor list"

  /** The draws consumed for one seeded purchase order. */
  datatype PoDraws = PoDraws(count: Unit, items: nat -> ItemDraw, status: Unit, daysAgo: Unit, vendor: Unit)

  /** The draws consumed for one seeded invoice. */
  datatype InvoiceDraws = InvoiceDraws(
    count: Unit, items: nat -> ItemDraw, daysAgo: Unit, vendor: Unit, status: Unit,
    startDelay: Unit, duration: Unit)

  // ---- the status history of a seeded order ----

  /** The `status_changed` entries written for an order created at
      `createdAt` with the `n`-th status of the flow: status changes of that
      order only, the first an hour after the creation and each an hour
      after the previous one. Entry ids are the store's counter from
      `firstId` on. */
  function SeedHistory(poId: string, n: nat, createdAt: int, firstId: nat): (history: seq<ActivityLog>)
    requires n < |Flow|
    ensures |history| == n && ChangesOf(history, poId)
    ensures forall j :: 0 <= j < n ==> history[j].timestamp > createdAt
    ensures forall j :: 0 < j < n ==> history[j].timestamp == history[j - 1].timestamp + HourMs
  {
    seq(n, j requires 0 <= j < n =>
          StatusLog(IdOf(firstId + j), poId, Flow[j], Flow[j + 1], createdAt + (j + 1) * HourMs))
  }

  /** Entry `j` moves the order to the status `j + 1` steps of `NextStatus`
      reach from "pending", so the history ends at the `n`-th status. */
  lemma SeedHistoryFollowsFlow(poId: string, n: nat, createdAt: int, firstId: nat)
    requires n < |Flow|
    ensures var h := SeedHistory(poId, n, createdAt, firstId);
            && (forall j :: 0 <= j < n ==> ChangedTo(h[j], poId) == Walk(Pending, j + 1))
            && (n > 0 ==> ChangedTo(h[n - 1], poId) == Some(Flow[n]))
  {
    var h := SeedHistory(poId, n, createdAt, firstId);
    forall j | 0 <= j < n
      ensures ChangedTo(h[j], poId) == Walk(Pending, j + 1)
    {
      StatusLogChangesTo(IdOf(firstId + j), poId, Flow[j], Flow[j + 1], createdAt + (j + 1) * HourMs, poId);
      WalkFromPending(j + 1);
    }
    WalkFromPending(n);
  }

  // ---- one purchase order ----

  /** The entries written for an order created when the store's counter
      was `n`: its `created` entry, then the history that led to its status. */
  function SeededLogs(po: PurchaseOrder, n: nat): seq<ActivityLog>
    requires po.status in Flow
  {
    [CreatedLog(IdOf(n + 1), po, po.createdAt)] + SeedHistory(po.id, IndexOf(Flow, po.status), po.createdAt, n + 2)
  }

  /** The id the store assigns next belongs to no stored order and is
      mentioned by no entry. */
  lemma FreshIdUnused(pos: seq<PurchaseOrder>, logs: seq<ActivityLog>, n: nat)
    requires forall i :: 0 <= i < |pos| ==> ParseNat(pos[i].id) < n
    requires forall i :: 0 <= i < |logs| ==> ParseNat(logs[i].entityId) < n
    ensures forall i :: 0 <= i < |pos| ==> pos[i].id != IdOf(n)
    ensures forall i :: 0 <= i < |logs| ==> logs[i].entityId != IdOf(n)
  {
    ParseNatToString(n);
  }

  /** The inner loop `for (let j = 1; j <= statusIndex; j++)`: one
      `status_changed` entry per step from "pending" to the `n`-th status. */
  method WriteHistory(store: Store, poId: string, n: nat, createdAt: int)
    requires n < |Flow|
    requires store.Valid() && store.Issued(poId)
    modifies store
    ensures store.Valid()
    ensures store.activityLogs == old(store.activityLogs) + SeedHistory(poId, n, createdAt, old(store.nextId))
    ensures store.nextId == old(store.nextId) + n
    ensures store.purchaseOrders == old(store.purchaseOrders) && store.invoices == old(store.invoices)
    ensures store.automationRuns == old(store.automationRuns)
  {
    var j := 1;
    while j <= n
      invariant 1 <= j <= n + 1
      invariant store.Valid() && store.Issued(poId)
      invariant store.nextId == old(store.nextId) + j - 1
      invariant store.activityLogs == old(store.activityLogs) + SeedHistory(poId, j - 1, createdAt, old(store.nextId))
      invariant store.purchaseOrders == old(store.purchaseOrders) && store.invoices == old(store.invoices)
      invariant store.automationRuns == old(store.automationRuns)
    {
      var log := store.CreateActivityLog(PurchaseOrderEntity, poId, StatusChanged,
                                         Some(StatusChangeDetails(Flow[j - 1], Flow[j])),
                                         createdAt + j * HourMs, Some(poId));
      assert SeedHistory(poId, j, createdAt, old(store.nextId))
             == SeedHistory(poId, j - 1, createdAt, old(store.nextId)) + [log];
      j := j + 1;
    }
  }

  /** The order itself and its `created` entry, with the vendor and total
      as details. */
  method CreateLogged(store: Store, data: PoData, createdAt: int, now: int)
    returns (po: PurchaseOrder, created: ActivityLog)
    requires store.Valid()
    modifies store
    ensures store.Valid()
    ensures po == PurchaseOrder(IdOf(old(store.nextId)), data.vendor, data.items, data.total, data.status,
                                createdAt, now)
    ensures created == CreatedLog(IdOf(old(store.nextId) + 1), po, createdAt)
    ensures store.purchaseOrders == old(store.purchaseOrders) + [po]
    ensures store.activityLogs == old(store.activityLogs) + [created]
    ensures store.nextId == old(store.nextId) + 2 && store.Issued(po.id)
    ensures store.invoices == old(store.invoices) && store.automationRuns == old(store.automationRuns)
  {
    po := store.CreatePurchaseOrder(data, createdAt, now);
    created := store.CreateActivityLog(PurchaseOrderEntity, po.id, Created,
                                       Some(VendorTotalDetails(po.vendor, po.total)), createdAt, Some(po.id));
  }

  /** The body of the purchase-order loop after the draws: the order, its
      `created` entry at its creation time, and the status changes that
      lead to its status. */
  method CreateWithHistory(store: Store, data: PoData, createdAt: int, now: int) returns (po: PurchaseOrder)
    requires store.Valid() && data.status in Flow
    modifies store
    ensures store.Valid()
    ensures po == PurchaseOrder(IdOf(old(store.nextId)), data.vendor, data.items, data.total, data.status,
                                createdAt, now)
    ensures store.purchaseOrders == old(store.purchaseOrders) + [po]
    ensures store.activityLogs
            == old(store.activityLogs) + SeededLogs(po, old(store.nextId))
    ensures store.invoices == old(store.invoices) && store.automationRuns == old(store.automationRuns)
    ensures old(CreationLogged(store.purchaseOrders, store.activityLogs)
                && StatusesMatchLog(store.purchaseOrders, store.activityLogs))
            ==> CreationLogged(store.purchaseOrders, store.activityLogs)
                && StatusesMatchLog(store.purchaseOrders, store.activityLogs)
  {
    ghost var pos, logs, n := store.purchaseOrders, store.activityLogs, store.nextId;
    var created;
    po, created := CreateLogged(store, data, createdAt, now);
    var statusIndex := IndexOf(Flow, po.status);
    WriteHistory(store, po.id, statusIndex, createdAt);
    ghost var history := SeedHistory(po.id, statusIndex, createdAt, n + 2);
    assert store.activityLogs == logs + [created] + history;
    assert store.activityLogs == logs + SeededLogs(po, n) by {
      assert SeededLogs(po, n) == [created] + history;
      assert logs + [created] + history == logs + ([created] + history);
    }
    assert CreationLogged(pos, logs) && StatusesMatchLog(pos, logs)
           ==> CreationLogged(store.purchaseOrders, store.activityLogs)
               && StatusesMatchLog(store.purchaseOrders, store.activityLogs) by {
      if CreationLogged(pos, logs) && StatusesMatchLog(pos, logs) {
        FreshIdUnused(pos, logs, n);
        SeedHistoryFollowsFlow(po.id, statusIndex, createdAt, n + 2);
        CreateWithHistoryPreservesAudit(pos, logs, po, IdOf(n + 1), createdAt, history);
      }
    }
  }

  /** One iteration of the purchase-order loop: the order with drawn items,
      status, age (0 to 7 days) and vendor, written with its history. */
  method SeedPurchaseOrder(store: Store, d: PoDraws, now: int) returns (po: PurchaseOrder)
    requires store.Valid()
    modifies store
    ensures store.Valid()
    ensures po.id == IdOf(old(store.nextId))
    ensures po.status in Flow && po.vendor in SeedVendors
    ensures 1 <= |ParseItems(po.items)| <= 4 && po.total == ItemsTotal(ParseItems(po.items))
    ensures now - 7 * DayMs <= po.createdAt <= now && po.updatedAt == now
    ensures store.purchaseOrders == old(store.purchaseOrders) + [po]
    ensures store.activityLogs
            == old(store.activityLogs) + SeededLogs(po, old(store.nextId))
    ensures store.invoices == old(store.invoices) && store.automationRuns == old(store.automationRuns)
    ensures old(CreationLogged(store.purchaseOrders, store.activityLogs)
                && StatusesMatchLog(store.purchaseOrders, store.activityLogs))
            ==> CreationLogged(store.purchaseOrders, store.activityLogs)
                && StatusesMatchLog(store.purchaseOrders, store.activityLogs)
  {
    var items := GenerateLineItems(SeedProfile, None, d.count, d.items);
    ParseItemsText(items);
    var status := RandomChoice(Flow, d.status);
    var daysAgo := RandomInt(0, 7, d.daysAgo);
    var createdAt := now - daysAgo * DayMs;
    po := CreateWithHistory(store, PoData(RandomChoice(SeedVendors, d.vendor), ItemsText(items),
                                          ItemsTotal(items), status), createdAt, now);
  }

  // ---- one invoice ----

  /** The automation runs written for a seeded invoice: a successful one
      for a processed invoice linked to an order, a failed one for a failed
      invoice, none otherwise. */
  function SeedRuns(inv: Invoice, listed: Option<PurchaseOrder>, isProcessed: bool, d: InvoiceDraws,
                    runId: string): (runs: seq<AutomationRun>)
    ensures |runs| <= 1
  {
    var startedAt := inv.createdAt + RandomInt(1, 30, d.startDelay) * MinuteMs;
    if isProcessed && listed.Some? then
      [AutomationRun(runId, inv.id, Some(listed.value.id), Success,
                     Some(VendorTotalDetails(inv.vendor, inv.total)), startedAt,
                     Some(startedAt + RandomInt(1, 5, d.duration) * SecondMs))]
    else if inv.status == Failed then
      [AutomationRun(runId, inv.id, None, Failed, Some(ErrorDetails(VendorNotApproved)), startedAt,
                     Some(startedAt + 2 * SecondMs))]
    else []
  }

  /** Whether `run` is the kind of run the seed writes for `inv`. */
  predicate RunFits(run: AutomationRun, inv: Invoice) {
    run.invoiceId == inv.id
    && ((run.status == Success && inv.status == Processed && run.poId == inv.linkedPOId && run.poId.Some?)
        || (run.status == Failed && inv.status == Failed && run.poId.None?))
  }

  /** A seeded invoice's runs fit it; it has one exactly when it was
      processed and linked, or failed; a run starts 1 to 30 minutes after
      the invoice and takes 1 to 5 seconds when it succeeds, 2 seconds when
      it fails. */
  lemma SeedRunsSpec(inv: Invoice, listed: Option<PurchaseOrder>, isProcessed: bool, d: InvoiceDraws,
                     runId: string)
    requires isProcessed ==> inv.status == Processed
    requires inv.linkedPOId == (if isProcessed && listed.Some? then Some(listed.value.id) else None)
    ensures var runs := SeedRuns(inv, listed, isProcessed, d, runId);
            && (runs != [] <==> (isProcessed && listed.Some?) || inv.status == Failed)
            && forall k :: 0 <= k < |runs| ==>
                 && RunFits(runs[k], inv)
                 && inv.createdAt + MinuteMs <= runs[k].startedAt <= inv.createdAt + 30 * MinuteMs
                 && runs[k].completedAt.Some?
                 && (runs[k].status == Success ==>
                       runs[k].startedAt + SecondMs <= runs[k].completedAt.value <= runs[k].startedAt + 5 * SecondMs)
                 && (runs[k].status == Failed ==> runs[k].completedAt.value == runs[k].startedAt + 2 * SecondMs)
  {
  }

  /** The automation run written after a seeded invoice (both `if`s of the
      loop body). */
  method WriteRun(store: Store, inv: Invoice, listed: Option<PurchaseOrder>, isProcessed: bool, d: InvoiceDraws)
    requires store.Valid() && (isProcessed ==> inv.status == Processed)
    modifies store
    ensures store.Valid()
    ensures store.automationRuns
            == old(store.automationRuns) + SeedRuns(inv, listed, isProcessed, d, IdOf(old(store.nextId)))
    ensures store.purchaseOrders == old(store.purchaseOrders) && store.activityLogs == old(store.activityLogs)
    ensures store.invoices == old(store.invoices)
  {
    var startedAt := inv.createdAt + RandomInt(1, 30, d.startDelay) * MinuteMs;
    if isProcessed && listed.Some? {
      var run := store.CreateAutomationRun(inv.id, Some(listed.value.id), Success,
                                           Some(VendorTotalDetails(inv.vendor, inv.total)), startedAt,
                                           Some(startedAt + RandomInt(1, 5, d.duration) * SecondMs));
    }
    if inv.status == Failed {
      var run := store.CreateAutomationRun(inv.id, None, Failed, Some(ErrorDetails(VendorNotApproved)),
                                           startedAt, Some(startedAt + 2 * SecondMs));
    }
  }

  /** The draws of one iteration of the invoice loop: drawn items and age
      (0 to 10 days); a processed invoice copies the vendor, total and id of
      its linked order, the others get a drawn vendor, their items' total
      and "unprocessed" or "failed". `listed` is the order at the
      iteration's position in the fetched list (`None` past its end); only a
      processed invoice is linked to it. */
  method DrawInvoice(isProcessed: bool, listed: Option<PurchaseOrder>, d: InvoiceDraws, now: int)
    returns (data: InvoiceData, createdAt: int)
    ensures isProcessed ==> data.status == Processed
    ensures !isProcessed ==> data.status == Unprocessed || data.status == Failed
    ensures data.linkedPOId == (if isProcessed && listed.Some? then Some(listed.value.id) else None)
    ensures isProcessed && listed.Some? ==> data.vendor == listed.value.vendor && data.total == listed.value.total
    ensures !(isProcessed && listed.Some?) ==>
              data.vendor in SeedVendors && data.total == ItemsTotal(ParseItems(data.lineItems))
    ensures 1 <= |ParseItems(data.lineItems)| <= 4
    ensures now - 10 * DayMs <= createdAt <= now
  {
    var items := GenerateLineItems(SeedProfile, None, d.count, d.items);
    ParseItemsText(items);
    var daysAgo := RandomInt(0, 10, d.daysAgo);
    createdAt := now - daysAgo * DayMs;
    var linkedPO := if isProcessed then listed else None;
    var vendor := if linkedPO.Some? then linkedPO.value.vendor else RandomChoice(SeedVendors, d.vendor);
    var total := if linkedPO.Some? then linkedPO.value.total else ItemsTotal(items);
    var status := if isProcessed then Processed
                  else RandomChoice([Unprocessed, Unprocessed, Failed], d.status);
    var linkedPOId := if linkedPO.Some? then Some(linkedPO.value.id) else None;
    data := InvoiceData(vendor, ItemsText(items), total, status, linkedPOId);
  }

  /** One iteration of the invoice loop: the drawn invoice and its run. */
  method SeedInvoice(store: Store, isProcessed: bool, listed: Option<PurchaseOrder>, d: InvoiceDraws, now: int)
    returns (inv: Invoice)
    requires store.Valid()
    modifies store
    ensures store.Valid()
    ensures inv.id == IdOf(old(store.nextId)) && inv.updatedAt == now
    ensures isProcessed ==> inv.status == Processed
    ensures !isProcessed ==> inv.status == Unprocessed || inv.status == Failed
    ensures inv.linkedPOId == (if isProcessed && listed.Some? then Some(listed.value.id) else None)
    ensures isProcessed && listed.Some? ==> inv.vendor == listed.value.vendor && inv.total == listed.value.total
    ensures !(isProcessed && listed.Some?) ==>
              inv.vendor in SeedVendors && inv.total == ItemsTotal(ParseItems(inv.lineItems))
    ensures 1 <= |ParseItems(inv.lineItems)| <= 4
    ensures now - 10 * DayMs <= inv.createdAt <= now
    ensures store.invoices == old(store.invoices) + [inv]
    ensures store.automationRuns
            == old(store.automationRuns) + SeedRuns(inv, listed, isProcessed, d, IdOf(old(store.nextId) + 1))
    ensures store.purchaseOrders == old(store.purchaseOrders) && store.activityLogs == old(store.activityLogs)
  {
    var data, createdAt := DrawInvoice(isProcessed, listed, d, now);
    inv := store.CreateInvoice(data, createdAt, now);
    WriteRun(store, inv, listed, isProcessed, d);
  }

  // ---- the script ----

  /** `run` fits one of `invoices`. */
  ghost predicate BelongsTo(run: AutomationRun, invoices: seq<Invoice>) {
    exists i :: 0 <= i < |invoices| && RunFits(run, invoices[i])
  }

  /** One of `runs` fits `inv`. */
  ghost predicate HasRun(inv: Invoice, runs: seq<AutomationRun>) {
    exists j :: 0 <= j < |runs| && RunFits(runs[j], inv)
  }

  /** Every run belongs to an invoice it fits. */
  ghost predicate RunsBelong(invoices: seq<Invoice>, runs: seq<AutomationRun>) {
    forall j :: 0 <= j < |runs| ==> BelongsTo(runs[j], invoices)
  }

  /** Every invoice that is not "unprocessed" has a run that fits it. */
  ghost predicate InvoicesHaveRuns(invoices: seq<Invoice>, runs: seq<AutomationRun>) {
    forall i :: 0 <= i < |invoices| && invoices[i].status != Unprocessed ==> HasRun(invoices[i], runs)
  }

  /** Adding an invoice with runs that fit it, at least one unless it is
      "unprocessed", keeps every run matched to an invoice and every
      processed or failed invoice matched to a run. */
  lemma RunsMatchAppend(invoices: seq<Invoice>, runs: seq<AutomationRun>, inv: Invoice, more: seq<AutomationRun>)
    requires RunsBelong(invoices, runs) && InvoicesHaveRuns(invoices, runs)
    requires forall k :: 0 <= k < |more| ==> RunFits(more[k], inv)
    requires inv.status != Unprocessed ==> more != []
    ensures RunsBelong(invoices + [inv], runs + more)
    ensures InvoicesHaveRuns(invoices + [inv], runs + more)
  {
    var invoices', runs' := invoices + [inv], runs + more;
    forall j | 0 <= j < |runs'|
      ensures BelongsTo(runs'[j], invoices')
    {
      if j < |runs| {
        assert BelongsTo(runs[j], invoices);
        var i :| 0 <= i < |invoices| && RunFits(runs[j], invoices[i]);
        assert runs'[j] == runs[j] && invoices'[i] == invoices[i];
      } else {
        assert runs'[j] == more[j - |runs|] && invoices'[|invoices|] == inv;
      }
    }
    forall i | 0 <= i < |invoices'| && invoices'[i].status != Unprocessed
      ensures HasRun(invoices'[i], runs')
    {
      if i < |invoices| {
        assert HasRun(invoices[i], runs);
        var j :| 0 <= j < |runs| && RunFits(runs[j], invoices[i]);
        assert runs'[j] == runs[j] && invoices'[i] == invoices[i];
      } else {
        assert runs'[|runs|] == more[0] && invoices'[i] == inv;
      }
    }
  }

  /** Adding a seeded invoice with its runs keeps the runs matched. */
  lemma SeedRunsMatch(invoices: seq<Invoice>, runs: seq<AutomationRun>, inv: Invoice,
                      listed: Option<PurchaseOrder>, isProcessed: bool, d: InvoiceDraws, runId: string)
    requires RunsBelong(invoices, runs) && InvoicesHaveRuns(invoices, runs)
    requires isProcessed ==> inv.status == Processed && listed.Some?
    requires !isProcessed ==> inv.status == Unprocessed || inv.status == Failed
    requires inv.linkedPOId == (if isProcessed && listed.Some? then Some(listed.value.id) else None)
    ensures RunsBelong(invoices + [inv], runs + SeedRuns(inv, listed, isProcessed, d, runId))
    ensures InvoicesHaveRuns(invoices + [inv], runs + SeedRuns(inv, listed, isProcessed, d, runId))
  {
    SeedRunsSpec(inv, listed, isProcessed, d, runId);
    RunsMatchAppend(invoices, runs, inv, SeedRuns(inv, listed, isProcessed, d, runId));
  }

  /** The purchase-order loop: fifteen orders, each with its history, after
      emptying the store. */
  method SeedOrders(store: Store, poDraws: nat -> PoDraws, now: int)
    requires store.Valid()
    modifies store
    ensures store.Valid()
    ensures |store.purchaseOrders| == PoCount
    ensures forall i :: 0 <= i < PoCount ==> store.purchaseOrders[i].status in Flow
    ensures CreationLogged(store.purchaseOrders, store.activityLogs)
            && StatusesMatchLog(store.purchaseOrders, store.activityLogs)
    ensures store.invoices == [] && store.automationRuns == []
  {
    store.Reset();
    for i := 0 to PoCount
      invariant store.Valid()
      invariant |store.purchaseOrders| == i
      invariant forall k :: 0 <= k < i ==> store.purchaseOrders[k].status in Flow
      invariant CreationLogged(store.purchaseOrders, store.activityLogs)
                && StatusesMatchLog(store.purchaseOrders, store.activityLogs)
      invariant store.invoices == [] && store.automationRuns == []
    {
      var po := SeedPurchaseOrder(store, poDraws(i), now);
    }
  }

  /** What the script writes as invoice number `k`: the first six are
      processed and copy order `k` of `poList`; the others are unlinked and
      "unprocessed" or "failed". */
  predicate SeededInvoice(inv: Invoice, k: nat, poList: seq<PurchaseOrder>) {
    if k < LinkedCount then
      && inv.status == Processed
      && k < |poList| && inv.linkedPOId == Some(poList[k].id)
      && inv.vendor == poList[k].vendor && inv.total == poList[k].total
    else
      inv.linkedPOId.None? && (inv.status == Unprocessed || inv.status == Failed)
  }

  /** Iteration `i` of the invoice loop, with `poList[i]` as the listed
      order (none past the end of the list). */
  method SeedInvoiceAt(store: Store, i: nat, poList: seq<PurchaseOrder>, d: InvoiceDraws, now: int)
    returns (inv: Invoice)
    requires store.Valid() && |poList| == LinkedCount
    requires RunsBelong(store.invoices, store.automationRuns)
             && InvoicesHaveRuns(store.invoices, store.automationRuns)
    modifies store
    ensures store.Valid()
    ensures store.invoices == old(store.invoices) + [inv] && SeededInvoice(inv, i, poList)
    ensures RunsBelong(store.invoices, store.automationRuns)
            && InvoicesHaveRuns(store.invoices, store.automationRuns)
    ensures store.purchaseOrders == old(store.purchaseOrders) && store.activityLogs == old(store.activityLogs)
  {
    var listed := if i < |poList| then Some(poList[i]) else None;
    ghost var n := store.nextId;
    inv := SeedInvoice(store, i < LinkedCount, listed, d, now);
    SeedRunsMatch(old(store.invoices), old(store.automationRuns), inv, listed, i < LinkedCount, d, IdOf(n + 1));
  }

  /** The invoice loop over the first six orders `poList`. */
  method SeedInvoices(store: Store, poList: seq<PurchaseOrder>, invoiceDraws: nat -> InvoiceDraws, now: int)
    requires store.Valid() && store.invoices == [] && store.automationRuns == []
    requires |poList| == LinkedCount
    modifies store
    ensures store.Valid()
    ensures store.purchaseOrders == old(store.purchaseOrders) && store.activityLogs == old(store.activityLogs)
    ensures |store.invoices| == InvoiceCount
    ensures forall i :: 0 <= i < InvoiceCount ==> SeededInvoice(store.invoices[i], i, poList)
    ensures RunsBelong(store.invoices, store.automationRuns)
            && InvoicesHaveRuns(store.invoices, store.automationRuns)
  {
    for i := 0 to InvoiceCount
      invariant store.Valid()
      invariant store.purchaseOrders == old(store.purchaseOrders) && store.activityLogs == old(store.activityLogs)
      invariant |store.invoices| == i
      invariant forall k :: 0 <= k < i ==> SeededInvoice(store.invoices[k], k, poList)
      invariant RunsBelong(store.invoices, store.automationRuns)
                && InvoicesHaveRuns(store.invoices, store.automationRuns)
    {
      ghost var before := store.invoices;
      var inv := SeedInvoiceAt(store, i, poList, invoiceDraws(i), now);
      forall k | 0 <= k < i + 1
        ensures SeededInvoice(store.invoices[k], k, poList)
      {
        if k < i {
          assert store.invoices[k] == before[k];
        }
      }
    }
  }

  /** `main()`: the store emptied, fifteen orders with their histories,
      then twelve invoices, the first six processed and linked to the first
      six orders (in insertion order), each processed or failed invoice with
      its automation run. */
  method SeedAll(store: Store, poDraws: nat -> PoDraws, invoiceDraws: nat -> InvoiceDraws, now: int)
    requires store.Valid()
    modifies store
    ensures store.Valid()
    ensures |store.purchaseOrders| == PoCount && |store.invoices| == InvoiceCount
    ensures CreationLogged(store.purchaseOrders, store.activityLogs)
            && StatusesMatchLog(store.purchaseOrders, store.activityLogs)
    ensures forall i :: 0 <= i < PoCount ==> store.purchaseOrders[i].status in Flow
    ensures forall i :: 0 <= i < InvoiceCount ==>
              SeededInvoice(store.invoices[i], i, store.purchaseOrders[..LinkedCount])
    ensures RunsBelong(store.invoices, store.automationRuns)
            && InvoicesHaveRuns(store.invoices, store.automationRuns)
  {
    SeedOrders(store, poDraws, now);
    var poList := Prefix(store.purchaseOrders, LinkedCount);
    SeedInvoices(store, poList, invoiceDraws, now);
  }
}
