/** The record store the routes and the seed script write through: four
    tables kept as sequences in insertion order, and ids assigned by the store. */
module Store {
  import opened Base
  import opened Records
  import opened Generators

  /** The id the store assigns to its `n`-th created record. */
  function IdOf(n: nat): string {
    NatToString(n)
  }

  function PoId(po: PurchaseOrder): string { po.id }
  function InvoiceId(inv: Invoice): string { inv.id }

  /** The position of the purchase order with the given id (`where: { id }`). */
  function FindPurchaseOrder(pos: seq<PurchaseOrder>, id: string): (i: int)
    ensures -1 <= i < |pos|
    ensures i >= 0 ==> pos[i].id == id
    ensures i == -1 <==> forall k :: 0 <= k < |pos| ==> pos[k].id != id
  {
    if pos == [] then -1
    else if pos[0].id == id then 0
    else
      var j := FindPurchaseOrder(pos[1..], id);
      if j == -1 then -1 else j + 1
  }

  class Store {
    var purchaseOrders: seq<PurchaseOrder>
    var invoices: seq<Invoice>
    var activityLogs: seq<ActivityLog>
    var automationRuns: seq<AutomationRun>
    var nextId: nat

    /** Every stored id, and every purchase-order id a log refers to, was
        assigned before `nextId`; purchase-order and invoice ids are unique. */
    ghost predicate Valid()
      reads this
    {
      && (forall i :: 0 <= i < |purchaseOrders| ==> ParseNat(purchaseOrders[i].id) < nextId)
      && (forall i :: 0 <= i < |invoices| ==> ParseNat(invoices[i].id) < nextId)
      && (forall i :: 0 <= i < |activityLogs| ==>
            ParseNat(activityLogs[i].id) < nextId && ParseNat(activityLogs[i].entityId) < nextId)
      && (forall i :: 0 <= i < |automationRuns| ==> ParseNat(automationRuns[i].id) < nextId)
      && NoDuplicates(Map(purchaseOrders, PoId))
      && NoDuplicates(Map(invoices, InvoiceId))
    }

    /** Whether `id` has been assigned by this store. */
    ghost predicate Issued(id: string)
      reads this
    {
      ParseNat(id) < nextId
    }

    constructor ()
      ensures Valid()
      ensures purchaseOrders == [] && invoices == [] && activityLogs == [] && automationRuns == []
    {
      purchaseOrders, invoices, activityLogs, automationRuns := [], [], [], [];
      nextId := 0;
    }

    /** Assigns a new id, distinct from every id assigned so far. */
    method NewId() returns (id: string)
      requires Valid()
      modifies this`nextId
      ensures Valid()
      ensures id == IdOf(old(nextId)) && nextId == old(nextId) + 1
      ensures !old(Issued(id)) && Issued(id)
    {
      id := IdOf(nextId);
      ParseNatToString(nextId);
      nextId := nextId + 1;
    }

    /** `purchaseOrder.create`. */
    method CreatePurchaseOrder(data: PoData, createdAt: int, now: int) returns (po: PurchaseOrder)
      requires Valid()
      modifies this
      ensures Valid()
      ensures po == PurchaseOrder(IdOf(old(nextId)), data.vendor, data.items, data.total,
                                  data.status, createdAt, now)
      ensures !old(Issued(po.id)) && Issued(po.id)
      ensures purchaseOrders == old(purchaseOrders) + [po]
      ensures nextId == old(nextId) + 1
      ensures invoices == old(invoices) && activityLogs == old(activityLogs)
      ensures automationRuns == old(automationRuns)
    {
      var id := NewId();
      po := PurchaseOrder(id, data.vendor, data.items, data.total, data.status, createdAt, now);
      purchaseOrders := purchaseOrders + [po];
      assert Map(purchaseOrders, PoId) == Map(old(purchaseOrders), PoId) + [id];
    }

    /** `purchaseOrder.update({ where: { id }, data: { status } })`; `None`
        where the store would throw because no record has that id. */
    method UpdatePurchaseOrderStatus(id: string, status: string, now: int)
      returns (updated: Option<PurchaseOrder>)
      requires Valid()
      modifies this`purchaseOrders
      ensures Valid()
      ensures var i := FindPurchaseOrder(old(purchaseOrders), id);
              if i == -1 then updated.None? && purchaseOrders == old(purchaseOrders)
              else updated == Some(old(purchaseOrders)[i].(status := status, updatedAt := now))
                   && purchaseOrders == old(purchaseOrders)[i := updated.value]
    {
      var i := FindPurchaseOrder(purchaseOrders, id);
      if i == -1 {
        updated := None;
      } else {
        var po := purchaseOrders[i].(status := status, updatedAt := now);
        purchaseOrders := purchaseOrders[i := po];
        updated := Some(po);
        assert Map(purchaseOrders, PoId) == Map(old(purchaseOrders), PoId);
      }
    }

    /** `activityLog.create`. */
    method CreateActivityLog(entityType: string, entityId: string, action: string,
                             details: Option<Text>, timestamp: int, purchaseOrderId: Option<string>)
      returns (log: ActivityLog)
      requires Valid() && Issued(entityId)
      modifies this
      ensures Valid()
      ensures log == ActivityLog(IdOf(old(nextId)), entityType, entityId, action, details,
                                 timestamp, purchaseOrderId)
      ensures activityLogs == old(activityLogs) + [log]
      ensures nextId == old(nextId) + 1
      ensures purchaseOrders == old(purchaseOrders) && invoices == old(invoices)
      ensures automationRuns == old(automationRuns)
    {
      var id := NewId();
      log := ActivityLog(id, entityType, entityId, action, details, timestamp, purchaseOrderId);
      activityLogs := activityLogs + [log];
    }

    /** `invoice.create`. */
    method CreateInvoice(data: InvoiceData, createdAt: int, now: int) returns (inv: Invoice)
      requires Valid()
      modifies this
      ensures Valid()
      ensures inv == Invoice(IdOf(old(nextId)), data.vendor, data.lineItems, data.total,
                             data.status, data.linkedPOId, createdAt, now)
      ensures !old(Issued(inv.id)) && Issued(inv.id)
      ensures invoices == old(invoices) + [inv]
      ensures nextId == old(nextId) + 1
      ensures purchaseOrders == old(purchaseOrders) && activityLogs == old(activityLogs)
      ensures automationRuns == old(automationRuns)
    {
      var id := NewId();
      inv := Invoice(id, data.vendor, data.lineItems, data.total, data.status, data.linkedPOId,
                     createdAt, now);
      invoices := invoices + [inv];
      assert Map(invoices, InvoiceId) == Map(old(invoices), InvoiceId) + [id];
    }

    /** `automationRun.create`. */
    method CreateAutomationRun(invoiceId: string, poId: Option<string>, status: string,
                               details: Option<Text>, startedAt: int, completedAt: Option<int>)
      returns (run: AutomationRun)
      requires Valid()
      modifies this
      ensures Valid()
      ensures run == AutomationRun(IdOf(old(nextId)), invoiceId, poId, status, details,
                                   startedAt, completedAt)
      ensures automationRuns == old(automationRuns) + [run]
      ensures nextId == old(nextId) + 1
      ensures purchaseOrders == old(purchaseOrders) && invoices == old(invoices)
      ensures activityLogs == old(activityLogs)
    {
      var id := NewId();
      run := AutomationRun(id, invoiceId, poId, status, details, startedAt, completedAt);
      automationRuns := automationRuns + [run];
    }

    /** `deleteMany` on all four tables. */
    method Reset()
      requires Valid()
      modifies this
      ensures Valid()
      ensures purchaseOrders == [] && invoices == [] && activityLogs == [] && automationRuns == []
      ensures nextId == old(nextId)
    {
      automationRuns, activityLogs, invoices, purchaseOrders := [], [], [], [];
    }
  }
}
