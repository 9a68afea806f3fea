/** The activity log as an audit trail of purchase orders: the entries the
    application appends, and the two consistency properties its writers keep
    (every created purchase order has one `created` entry; a purchase order's
    latest `status_changed` entry moved it to the status it has). */
module Audit {
  import opened Base
  import opened Records

  /** The `status_changed` entry the simulator and the seed script write. */
  function StatusLog(id: string, poId: string, from: string, to: string, timestamp: int): ActivityLog {
    ActivityLog(id, PurchaseOrderEntity, poId, StatusChanged, Some(StatusChangeDetails(from, to)),
                timestamp, Some(poId))
  }

  /** The `created` entry written next to every purchase order the create
      route and the seed script make. */
  function CreatedLog(id: string, po: PurchaseOrder, timestamp: int): ActivityLog {
    ActivityLog(id, PurchaseOrderEntity, po.id, Created, Some(VendorTotalDetails(po.vendor, po.total)),
                timestamp, Some(po.id))
  }

  /** The status an entry moved purchase order `poId` to, when it is a
      `status_changed` entry for that order whose details carry a `to`. */
  function ChangedTo(log: ActivityLog, poId: string): (r: Option<string>)
    ensures r.Some? ==> log.action == StatusChanged && log.entityId == poId
  {
    if log.action == StatusChanged && log.entityId == poId && log.details.Some?
       && log.details.value.Wellformed?
    then
      match Member(log.details.value.value, "to")
      case Some(JStr(to)) => Some(to)
      case _ => None
    else None
  }

  lemma StatusLogChangesTo(id: string, poId: string, from: string, to: string, timestamp: int, other: string)
    ensures ChangedTo(StatusLog(id, poId, from, to, timestamp), poId) == Some(to)
    ensures other != poId ==> ChangedTo(StatusLog(id, poId, from, to, timestamp), other) == None
  {
  }

  /** The `to` of the newest `status_changed` entry for `poId`, if any. */
  function LastStatusChange(logs: seq<ActivityLog>, poId: string): Option<string> {
    if logs == [] then None
    else
      var last := ChangedTo(logs[|logs| - 1], poId);
      if last.Some? then last else LastStatusChange(logs[..|logs| - 1], poId)
  }

  /** Appending an entry that is not a status change for `poId` leaves the
      latest change of `poId` as it was. */
  lemma LastStatusChangeAppend(logs: seq<ActivityLog>, log: ActivityLog, poId: string)
    ensures ChangedTo(log, poId).Some? ==> LastStatusChange(logs + [log], poId) == ChangedTo(log, poId)
    ensures ChangedTo(log, poId).None? ==> LastStatusChange(logs + [log], poId) == LastStatusChange(logs, poId)
  {
    assert (logs + [log])[..|logs + [log]| - 1] == logs;
  }

  /** Every purchase order whose history holds a status change is at the
      status its newest change moved it to. */
  ghost predicate StatusesMatchLog(pos: seq<PurchaseOrder>, logs: seq<ActivityLog>) {
    forall i :: 0 <= i < |pos| ==>
      LastStatusChange(logs, pos[i].id).None? || LastStatusChange(logs, pos[i].id) == Some(pos[i].status)
  }

  /** The number of `created` entries for purchase order `poId`. */
  function CreatedCount(logs: seq<ActivityLog>, poId: string): (n: nat)
    ensures n <= |logs|
  {
    if logs == [] then 0
    else CreatedCount(logs[..|logs| - 1], poId)
         + (if logs[|logs| - 1].action == Created && logs[|logs| - 1].entityId == poId then 1 else 0)
  }

  lemma CreatedCountAppend(logs: seq<ActivityLog>, log: ActivityLog, poId: string)
    ensures CreatedCount(logs + [log], poId)
            == CreatedCount(logs, poId) + (if log.action == Created && log.entityId == poId then 1 else 0)
  {
    assert (logs + [log])[..|logs + [log]| - 1] == logs;
  }

  /** A history with no entry for `poId` counts no `created` entry for it. */
  lemma {:induction false} CreatedCountNone(logs: seq<ActivityLog>, poId: string)
    requires forall i :: 0 <= i < |logs| ==> logs[i].entityId != poId
    ensures CreatedCount(logs, poId) == 0
    ensures LastStatusChange(logs, poId).None?
  {
    if logs != [] {
      CreatedCountNone(logs[..|logs| - 1], poId);
    }
  }

  /** Every purchase order has exactly one `created` entry. */
  ghost predicate CreationLogged(pos: seq<PurchaseOrder>, logs: seq<ActivityLog>) {
    forall i :: 0 <= i < |pos| ==> CreatedCount(logs, pos[i].id) == 1
  }

  /** Creating a purchase order whose id no entry mentions, together with its
      `created` entry, keeps both audit properties. */
  lemma CreatePreservesAudit(pos: seq<PurchaseOrder>, logs: seq<ActivityLog>,
                             po: PurchaseOrder, logId: string, timestamp: int)
    requires CreationLogged(pos, logs) && StatusesMatchLog(pos, logs)
    requires forall i :: 0 <= i < |pos| ==> pos[i].id != po.id
    requires forall i :: 0 <= i < |logs| ==> logs[i].entityId != po.id
    ensures CreationLogged(pos + [po], logs + [CreatedLog(logId, po, timestamp)])
    ensures StatusesMatchLog(pos + [po], logs + [CreatedLog(logId, po, timestamp)])
  {
    var log := CreatedLog(logId, po, timestamp);
    var pos', logs' := pos + [po], logs + [log];
    CreatedCountNone(logs, po.id);
    forall i | 0 <= i < |pos'|
      ensures CreatedCount(logs', pos'[i].id) == 1
      ensures LastStatusChange(logs', pos'[i].id).None?
              || LastStatusChange(logs', pos'[i].id) == Some(pos'[i].status)
    {
      CreatedCountAppend(logs, log, pos'[i].id);
      LastStatusChangeAppend(logs, log, pos'[i].id);
    }
  }

  /** Moving purchase order `i` to `to` and appending the matching
      `status_changed` entry keeps both audit properties. */
  lemma ChangePreservesAudit(pos: seq<PurchaseOrder>, logs: seq<ActivityLog>, i: nat,
                             to: string, now: int, logId: string, timestamp: int)
    requires i < |pos|
    requires forall k :: 0 <= k < |pos| && k != i ==> pos[k].id != pos[i].id
    requires CreationLogged(pos, logs) && StatusesMatchLog(pos, logs)
    ensures var pos' := pos[i := pos[i].(status := to, updatedAt := now)];
            var logs' := logs + [StatusLog(logId, pos[i].id, pos[i].status, to, timestamp)];
            CreationLogged(pos', logs') && StatusesMatchLog(pos', logs')
  {
    var pos' := pos[i := pos[i].(status := to, updatedAt := now)];
    var log := StatusLog(logId, pos[i].id, pos[i].status, to, timestamp);
    var logs' := logs + [log];
    forall k | 0 <= k < |pos'|
      ensures CreatedCount(logs', pos'[k].id) == 1
      ensures LastStatusChange(logs', pos'[k].id).None?
              || LastStatusChange(logs', pos'[k].id) == Some(pos'[k].status)
    {
      CreatedCountAppend(logs, log, pos'[k].id);
      LastStatusChangeAppend(logs, log, pos'[k].id);
      StatusLogChangesTo(logId, pos[i].id, pos[i].status, to, timestamp, pos'[k].id);
    }
  }

  /** Every entry of `history` is a `status_changed` entry for `poId`. */
  predicate ChangesOf(history: seq<ActivityLog>, poId: string) {
    forall j :: 0 <= j < |history| ==> history[j].action == StatusChanged && history[j].entityId == poId
  }

  /** Appending status changes of `poId` adds no `created` entry, leaves the
      latest change of every other order alone, and makes the last appended
      change the latest one of `poId`. */
  lemma {:induction false} AppendChanges(logs: seq<ActivityLog>, history: seq<ActivityLog>, poId: string, id: string)
    requires ChangesOf(history, poId)
    ensures CreatedCount(logs + history, id) == CreatedCount(logs, id)
    ensures id != poId ==> LastStatusChange(logs + history, id) == LastStatusChange(logs, id)
    ensures history != [] && ChangedTo(history[|history| - 1], poId).Some?
            ==> LastStatusChange(logs + history, poId) == ChangedTo(history[|history| - 1], poId)
  {
    if history == [] {
      assert logs + history == logs;
    } else {
      var init, last := history[..|history| - 1], history[|history| - 1];
      AppendChanges(logs, init, poId, id);
      assert logs + history == (logs + init) + [last];
      CreatedCountAppend(logs + init, last, id);
      LastStatusChangeAppend(logs + init, last, id);
      LastStatusChangeAppend(logs + init, last, poId);
    }
  }

  /** Appending the status changes of order `k` whose last change moved it
      to the status it has keeps both audit properties. */
  lemma HistoryPreservesAudit(pos: seq<PurchaseOrder>, logs: seq<ActivityLog>, k: nat, history: seq<ActivityLog>)
    requires k < |pos|
    requires forall j :: 0 <= j < |pos| && j != k ==> pos[j].id != pos[k].id
    requires CreationLogged(pos, logs) && StatusesMatchLog(pos, logs)
    requires ChangesOf(history, pos[k].id)
    requires history != [] ==> ChangedTo(history[|history| - 1], pos[k].id) == Some(pos[k].status)
    ensures CreationLogged(pos, logs + history) && StatusesMatchLog(pos, logs + history)
  {
    forall j | 0 <= j < |pos|
      ensures CreatedCount(logs + history, pos[j].id) == 1
      ensures LastStatusChange(logs + history, pos[j].id).None?
              || LastStatusChange(logs + history, pos[j].id) == Some(pos[j].status)
    {
      AppendChanges(logs, history, pos[k].id, pos[j].id);
      if history == [] {
        assert logs + history == logs;
      }
    }
  }

  /** Creating a purchase order with its `created` entry followed by the
      status changes that end at its status keeps both audit properties. */
  lemma CreateWithHistoryPreservesAudit(pos: seq<PurchaseOrder>, logs: seq<ActivityLog>, po: PurchaseOrder,
                                        logId: string, timestamp: int, history: seq<ActivityLog>)
    requires CreationLogged(pos, logs) && StatusesMatchLog(pos, logs)
    requires forall i :: 0 <= i < |pos| ==> pos[i].id != po.id
    requires forall i :: 0 <= i < |logs| ==> logs[i].entityId != po.id
    requires ChangesOf(history, po.id)
    requires history != [] ==> ChangedTo(history[|history| - 1], po.id) == Some(po.status)
    ensures CreationLogged(pos + [po], logs + [CreatedLog(logId, po, timestamp)] + history)
    ensures StatusesMatchLog(pos + [po], logs + [CreatedLog(logId, po, timestamp)] + history)
  {
    CreatePreservesAudit(pos, logs, po, logId, timestamp);
    HistoryPreservesAudit(pos + [po], logs + [CreatedLog(logId, po, timestamp)], |pos|, history);
  }
}
