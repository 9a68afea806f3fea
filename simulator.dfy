/** The status simulator: one call advances one randomly chosen purchase
    order that has not been received by one step of the flow, records the
    change in the activity log and announces it on the event bus. */
module Simulator {
  import opened Base
  import opened Records
  import opened Generators
  import opened Query
  import opened Store
  import opened Events
  import opened Audit

  const NoneAvailableMessage := "No POs available to advance"
  const CannotAdvanceMessage := "Selected PO cannot be advanced"
  const AdvancedMessage := "PO status advanced"

  /** The three answers of the simulator endpoint. */
  datatype Outcome =
    | NoneAvailable
    | CannotAdvance
    | Advanced(purchaseOrder: PurchaseOrder, from: string, to: string)
  {
    function Message(): string {
      match this
      case NoneAvailable => NoneAvailableMessage
      case CannotAdvance => CannotAdvanceMessage
      case Advanced(_, _, _) => AdvancedMessage
    }
  }

  /** `findMany({ where: { status: { not: 'received' } } })`. */
  function Eligible(pos: seq<PurchaseOrder>): (r: seq<PurchaseOrder>)
    ensures forall po :: po in r <==> po in pos && po.status != Received
  {
    Where(pos, (po: PurchaseOrder) => po.status != Received)
  }

  /** The answer and the two tables after one call. */
  datatype StepResult = StepResult(
    outcome: Outcome, purchaseOrders: seq<PurchaseOrder>, activityLogs: seq<ActivityLog>)

  /** One call of the simulator on the purchase orders and the activity log,
      with the draw `pick`, the id the new log entry gets and the time. */
  function Step(pos: seq<PurchaseOrder>, logs: seq<ActivityLog>, pick: Unit, logId: string, now: int)
    : (r: StepResult)
    ensures |r.purchaseOrders| == |pos|
    ensures !r.outcome.Advanced? ==> r.purchaseOrders == pos && r.activityLogs == logs
    ensures r.outcome.Advanced? ==> |r.activityLogs| == |logs| + 1 && r.activityLogs[..|logs|] == logs
  {
    var eligible := Eligible(pos);
    if eligible == [] then StepResult(NoneAvailable, pos, logs)
    else
      var chosen := RandomChoice(eligible, pick);
      match NextStatus(chosen.status)
      case None => StepResult(CannotAdvance, pos, logs)
      case Some(next) =>
        var i := FindPurchaseOrder(pos, chosen.id);
        var updated := pos[i].(status := next, updatedAt := now);
        StepResult(Advanced(updated, chosen.status, next), pos[i := updated],
                   logs + [StatusLog(logId, chosen.id, chosen.status, next, now)])
  }

  /** The simulator answers "no POs available" exactly when every purchase
      order has been received, and then changes nothing. */
  lemma StepNoneAvailable(pos: seq<PurchaseOrder>, logs: seq<ActivityLog>, pick: Unit, logId: string, now: int)
    ensures var r := Step(pos, logs, pick, logId, now);
            (r.outcome == NoneAvailable <==> forall k :: 0 <= k < |pos| ==> pos[k].status == Received)
            && (r.outcome == NoneAvailable ==> r.purchaseOrders == pos && r.activityLogs == logs)
  {
    var eligible := Eligible(pos);
    if eligible != [] {
      assert eligible[0] in pos;
    }
  }

  /** "Cannot be advanced" only happens when a purchase order carries a
      status outside the flow; it changes nothing. */
  lemma StepCannotAdvance(pos: seq<PurchaseOrder>, logs: seq<ActivityLog>, pick: Unit, logId: string, now: int)
    ensures var r := Step(pos, logs, pick, logId, now);
            r.outcome == CannotAdvance ==>
              r.purchaseOrders == pos && r.activityLogs == logs
              && exists k :: 0 <= k < |pos| && pos[k].status !in Flow
  {
    var r := Step(pos, logs, pick, logId, now);
    if r.outcome == CannotAdvance {
      var chosen := RandomChoice(Eligible(pos), pick);
      assert chosen in pos;
      var k :| 0 <= k < |pos| && pos[k] == chosen;
      assert pos[k].status !in Flow;
    }
  }

  /** The position of the purchase order an advance picked. */
  lemma AdvancedIndex(pos: seq<PurchaseOrder>, logs: seq<ActivityLog>, pick: Unit, logId: string, now: int)
    returns (i: nat)
    requires NoDuplicates(Map(pos, PoId))
    requires Step(pos, logs, pick, logId, now).outcome.Advanced?
    ensures var r := Step(pos, logs, pick, logId, now);
            && i == FindPurchaseOrder(pos, r.outcome.purchaseOrder.id) && i < |pos|
            && pos[i].status == r.outcome.from && r.outcome.from != Received
            && r.outcome.purchaseOrder == pos[i].(status := r.outcome.to, updatedAt := now)
            && r.purchaseOrders == pos[i := r.outcome.purchaseOrder]
  {
    var eligible := Eligible(pos);
    var chosen := RandomChoice(eligible, pick);
    var next := NextStatus(chosen.status).value;
    var j := FindPurchaseOrder(pos, chosen.id);
    assert chosen in pos;
    var k :| 0 <= k < |pos| && pos[k] == chosen;
    if j != k {
      assert Map(pos, PoId)[j] == Map(pos, PoId)[k];
    }
    i := j;
    var updated := pos[i].(status := next, updatedAt := now);
    assert Step(pos, logs, pick, logId, now)
           == StepResult(Advanced(updated, chosen.status, next), pos[i := updated],
                         logs + [StatusLog(logId, chosen.id, chosen.status, next, now)]);
  }

  /** An advance moves one purchase order, one not yet received, and
      leaves every other one as it was. */
  lemma StepUpdatesOne(pos: seq<PurchaseOrder>, logs: seq<ActivityLog>, pick: Unit, logId: string, now: int)
    requires NoDuplicates(Map(pos, PoId))
    requires Step(pos, logs, pick, logId, now).outcome.Advanced?
    ensures var r := Step(pos, logs, pick, logId, now);
            && r.outcome.from != Received && |r.purchaseOrders| == |pos|
            && (forall k :: 0 <= k < |pos| && pos[k].id == r.outcome.purchaseOrder.id ==>
                  pos[k].status == r.outcome.from
                  && r.purchaseOrders[k] == pos[k].(status := r.outcome.to, updatedAt := now))
            && (forall k :: 0 <= k < |pos| && pos[k].id != r.outcome.purchaseOrder.id ==>
                  r.purchaseOrders[k] == pos[k])
  {
    var i := AdvancedIndex(pos, logs, pick, logId, now);
    var r := Step(pos, logs, pick, logId, now);
    forall k | 0 <= k < |pos| && pos[k].id == r.outcome.purchaseOrder.id
      ensures k == i
    {
      assert Map(pos, PoId)[k] == pos[k].id && Map(pos, PoId)[i] == pos[i].id;
    }
  }

  /** An advance moves the order to the immediate successor of its status. */
  lemma StepFollowsFlow(pos: seq<PurchaseOrder>, logs: seq<ActivityLog>, pick: Unit, logId: string, now: int)
    ensures var r := Step(pos, logs, pick, logId, now);
            r.outcome.Advanced? ==>
              Some(r.outcome.to) == NextStatus(r.outcome.from)
              && IndexOf(Flow, r.outcome.to) == IndexOf(Flow, r.outcome.from) + 1
  {
  }

  /** An advance appends exactly one entry to the activity log: the
      `status_changed` entry for the moved order, with the answer's from/to. */
  lemma StepLogsChange(pos: seq<PurchaseOrder>, logs: seq<ActivityLog>, pick: Unit, logId: string, now: int)
    ensures var r := Step(pos, logs, pick, logId, now);
            r.outcome.Advanced? ==>
              r.activityLogs
              == logs + [StatusLog(logId, r.outcome.purchaseOrder.id, r.outcome.from, r.outcome.to, now)]
  {
  }

  /** The simulator keeps the activity log an audit trail: every purchase
      order keeps its one `created` entry, and its newest status change
      names the status it now has. */
  lemma StepPreservesAudit(pos: seq<PurchaseOrder>, logs: seq<ActivityLog>, pick: Unit, logId: string, now: int)
    requires NoDuplicates(Map(pos, PoId))
    requires CreationLogged(pos, logs) && StatusesMatchLog(pos, logs)
    ensures var r := Step(pos, logs, pick, logId, now);
            CreationLogged(r.purchaseOrders, r.activityLogs) && StatusesMatchLog(r.purchaseOrders, r.activityLogs)
  {
    var r := Step(pos, logs, pick, logId, now);
    if r.outcome.Advanced? {
      StepUpdatesOne(pos, logs, pick, logId, now);
      StepLogsChange(pos, logs, pick, logId, now);
      var o := r.outcome;
      var i := FindPurchaseOrder(pos, o.purchaseOrder.id);
      forall k | 0 <= k < |pos| && k != i
        ensures pos[k].id != pos[i].id
      {
        assert Map(pos, PoId)[k] != Map(pos, PoId)[i];
      }
      ChangePreservesAudit(pos, logs, i, o.to, now, logId, now);
    }
  }

  // ---- progress: the simulator can advance a store only finitely often ----

  /** How far along the flow a status is; a status outside the flow counts 0. */
  function Rank(status: string): (n: nat)
    ensures n <= |Flow| - 1
  {
    Max(IndexOf(Flow, status), 0)
  }

  /** The total progress of all purchase orders along the flow. */
  function Progress(pos: seq<PurchaseOrder>): nat {
    if pos == [] then 0 else Rank(pos[0].status) + Progress(pos[1..])
  }

  /** No purchase order is further along than "received". */
  lemma {:induction false} ProgressBound(pos: seq<PurchaseOrder>)
    ensures Progress(pos) <= (|Flow| - 1) * |pos|
  {
    if pos != [] {
      ProgressBound(pos[1..]);
    }
  }

  lemma {:induction false} ProgressUpdate(pos: seq<PurchaseOrder>, i: nat, po: PurchaseOrder)
    requires i < |pos|
    ensures Progress(pos[i := po]) == Progress(pos) - Rank(pos[i].status) + Rank(po.status)
  {
    if i == 0 {
      assert pos[i := po][1..] == pos[1..];
    } else {
      assert pos[i := po][1..] == pos[1..][i - 1 := po];
      ProgressUpdate(pos[1..], i - 1, po);
    }
  }

  /** Every advance raises the total progress by one; with `ProgressBound`,
      a store of `n` purchase orders can be advanced at most 3n times. */
  lemma StepProgress(pos: seq<PurchaseOrder>, logs: seq<ActivityLog>, pick: Unit, logId: string, now: int)
    requires NoDuplicates(Map(pos, PoId))
    requires Step(pos, logs, pick, logId, now).outcome.Advanced?
    ensures Progress(Step(pos, logs, pick, logId, now).purchaseOrders) == Progress(pos) + 1
  {
    var i := AdvancedIndex(pos, logs, pick, logId, now);
    var o := Step(pos, logs, pick, logId, now).outcome;
    StepFollowsFlow(pos, logs, pick, logId, now);
    ProgressUpdate(pos, i, o.purchaseOrder);
  }

  /** `POST /api/simulator`. */
  method Advance(store: Store, bus: EventBus<PoEvent>, pick: Unit, now: int, failing: set<Callback>)
    returns (outcome: Outcome, deliveries: seq<Delivery<PoEvent>>)
    requires store.Valid()
    modifies store
    ensures store.Valid()
    ensures var r := Step(old(store.purchaseOrders), old(store.activityLogs), pick, IdOf(old(store.nextId)), now);
            outcome == r.outcome && store.purchaseOrders == r.purchaseOrders
            && store.activityLogs == r.activityLogs
    ensures store.invoices == old(store.invoices) && store.automationRuns == old(store.automationRuns)
    ensures !outcome.Advanced? ==> deliveries == []
    ensures outcome.Advanced? ==>
              var payload := StatusChangedPayload(outcome.purchaseOrder, outcome.from, outcome.to);
              |deliveries| == |bus.Listeners(PoStatusChanged)|
              && forall i :: 0 <= i < |deliveries| ==>
                   deliveries[i] == Delivery(bus.Listeners(PoStatusChanged)[i], payload,
                                             bus.Listeners(PoStatusChanged)[i] in failing)
    ensures old(CreationLogged(store.purchaseOrders, store.activityLogs)
                && StatusesMatchLog(store.purchaseOrders, store.activityLogs))
            ==> CreationLogged(store.purchaseOrders, store.activityLogs)
                && StatusesMatchLog(store.purchaseOrders, store.activityLogs)
  {
    ghost var pos, logs, logId := store.purchaseOrders, store.activityLogs, IdOf(store.nextId);
    if CreationLogged(pos, logs) && StatusesMatchLog(pos, logs) {
      StepPreservesAudit(pos, logs, pick, logId, now);
    }
    deliveries := [];
    var eligible := Eligible(store.purchaseOrders);
    if eligible == [] {
      outcome := NoneAvailable;
      return;
    }
    var chosen := RandomChoice(eligible, pick);
    var next := NextStatus(chosen.status);
    if next.None? {
      outcome := CannotAdvance;
      return;
    }
    assert chosen in pos;
    var updated := store.UpdatePurchaseOrderStatus(chosen.id, next.value, now);
    var i := FindPurchaseOrder(pos, chosen.id);
    assert store.purchaseOrders[i].id == chosen.id;
    var log := store.CreateActivityLog(PurchaseOrderEntity, chosen.id, StatusChanged,
                                       Some(StatusChangeDetails(chosen.status, next.value)),
                                       now, Some(chosen.id));
    outcome := Advanced(updated.value, chosen.status, next.value);
    deliveries := bus.Emit(PoStatusChanged, StatusChangedPayload(updated.value, chosen.status, next.value),
                           failing);
  }
}
