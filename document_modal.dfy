/** The document view opened on an invoice or a purchase order: the grand
    total under its line items, the error section of a failed invoice with
    its latest run, and the status history of an order. */
module DocumentModal {
  import opened Base
  import opened Records
  import opened Generators
  import opened Audit
  import opened HistoryPage
  import InvoicesRoute
  import PurchaseOrdersRoute

  // ---- line items ----

  /** Every item list written as JSON is read back unchanged. */
  lemma ParseItemsTextAll()
    ensures forall items :: ParseItems(ItemsText(items)) == items
  {
    forall items
      ensures ParseItems(ItemsText(items)) == items
    {
      ParseItemsText(items);
    }
  }

  /** The Grand Total row, `items.reduce((s, i) => s + i.total, 0)` over the
      parsed items: 0 for malformed items, and for items written as JSON the
      sum of their totals. */
  function GrandTotal(text: Text): (t: int)
    ensures text.Malformed? ==> t == 0
    ensures forall items :: text == ItemsText(items) ==> t == ItemsTotal(items)
  {
    ParseItemsTextAll();
    ItemsTotal(ParseItems(text))
  }

  // ---- the error section of a failed invoice ----

  /** `automationRuns?.[0] ?? null`: the first included run, if any. */
  function LatestRun(runs: Option<seq<AutomationRun>>): (r: Option<AutomationRun>)
    ensures r.None? <==> runs.None? || runs.value == []
    ensures r.Some? ==> r.value == runs.value[0]
  {
    if runs.Some? && runs.value != [] then Some(runs.value[0]) else None
  }

  /** Opened from the invoice listing, the view's latest run is the newest
      run of that invoice, and there is none exactly when it has no run. */
  lemma ModalShowsNewestRun(invoices: seq<Invoice>, runs: seq<AutomationRun>, i: int)
    requires 0 <= i < |InvoicesRoute.List(invoices, runs)|
    ensures var listing := InvoicesRoute.List(invoices, runs)[i];
            var latest := LatestRun(Some(listing.automationRuns));
            && (latest.None? <==> forall x :: x in runs ==> x.invoiceId != listing.invoice.id)
            && (latest.Some? ==>
                  latest.value in runs && latest.value.invoiceId == listing.invoice.id
                  && forall x :: x in runs && x.invoiceId == listing.invoice.id ==>
                       latest.value.startedAt >= x.startedAt)
  {
  }

  /** "took …ms": shown only when the run has a completion time, and then
      the elapsed milliseconds clamped at zero (`Math.max(0, …)`). */
  function Took(run: AutomationRun): (took: Option<int>)
    ensures took.Some? <==> run.completedAt.Some?
    ensures took.Some? ==>
              && took.value >= 0
              && took.value >= run.completedAt.value - run.startedAt
              && (took.value == 0 || took.value == run.completedAt.value - run.startedAt)
  {
    if run.completedAt.Some? then Some(Max(0, run.completedAt.value - run.startedAt)) else None
  }

  /** The view and the history page agree on a run's elapsed time whenever
      it is not negative; a negative one the history page shows as such and
      the view as zero. */
  lemma TookAgreesWithHistory(run: AutomationRun)
    ensures Took(run).None? <==> GetDuration(run).InProgress?
    ensures Took(run).Some? && run.completedAt.value >= run.startedAt ==> Took(run).value == GetDuration(run).ms
    ensures Took(run).Some? && run.completedAt.value < run.startedAt ==>
              Took(run) == Some(0) && GetDuration(run).Millis? && GetDuration(run).ms < 0
  {
  }

  /** The latest run's line in the error section: its parsed error, its
      start time and the elapsed time when known. */
  datatype RunError = RunError(error: Json, startedAt: int, took: Option<int>)

  /** The error section: shown exactly for a failed invoice, with the
      latest run's line when the invoice has a run. */
  function ErrorSection(inv: Invoice, runs: Option<seq<AutomationRun>>): (s: Option<Option<RunError>>)
    ensures s.Some? <==> inv.status == Failed
    ensures s.Some? ==> (s.value.Some? <==> LatestRun(runs).Some?)
    ensures s.Some? && s.value.Some? ==>
              var run := LatestRun(runs).value;
              s.value.value == RunError(ParseError(run.details), run.startedAt, Took(run))
  {
    if inv.status != Failed then None
    else
      var latest := LatestRun(runs);
      if latest.None? then Some(None)
      else Some(Some(RunError(ParseError(latest.value.details), latest.value.startedAt, Took(latest.value))))
  }

  /** A failed invoice whose latest run was written with an error message
      shows that message, even an empty one, and the run's elapsed time. */
  lemma ErrorSectionOfErrorRun(inv: Invoice, run: AutomationRun, more: seq<AutomationRun>, error: string)
    requires inv.status == Failed && run.details == Some(ErrorDetails(error))
    requires run.completedAt.Some? && run.completedAt.value >= run.startedAt
    ensures ErrorSection(inv, Some([run] + more))
            == Some(Some(RunError(JStr(error), run.startedAt, Some(run.completedAt.value - run.startedAt))))
  {
  }

  // ---- the status history of a purchase order ----

  /** `actionLabels[action] ?? action`. */
  function ActionLabel(action: string): (text: string)
    ensures action == Created ==> text == "Created"
    ensures action == StatusChanged ==> text == "Status changed"
    ensures action == CreatedFromInvoice ==> text == "Created from invoice"
    ensures action !in {Created, StatusChanged, CreatedFromInvoice} ==> text == action
  {
    if action == Created then "Created"
    else if action == StatusChanged then "Status changed"
    else if action == CreatedFromInvoice then "Created from invoice"
    else action
  }

  /** `detail?.from && detail?.to`: both values of the parsed details, when
      both are present and truthy. */
  function FromTo(details: Option<Text>): (r: Option<(Json, Json)>)
    ensures var d := ParseDetails(details);
            r.Some? <==> Member(d, "from").Some? && Truthy(Member(d, "from").value)
                         && Member(d, "to").Some? && Truthy(Member(d, "to").value)
    ensures r.Some? ==> r.value == (Member(ParseDetails(details), "from").value, Member(ParseDetails(details), "to").value)
  {
    var d := ParseDetails(details);
    var from, to := Member(d, "from"), Member(d, "to");
    if from.Some? && Truthy(from.value) && to.Some? && Truthy(to.value) then Some((from.value, to.value)) else None
  }

  /** One line of the status history. */
  datatype HistoryEntry = HistoryEntry(caption: string, fromTo: Option<(Json, Json)>)

  function Entry(log: ActivityLog): HistoryEntry {
    HistoryEntry(ActionLabel(log.action), FromTo(log.details))
  }

  /** `(activityLogs ?? []).slice(0, 6)`, one line per entry, in order. */
  function StatusHistory(logs: Option<seq<ActivityLog>>): (h: seq<HistoryEntry>)
    ensures logs.None? ==> h == []
    ensures logs.Some? ==> |h| == Min(6, |logs.value|)
    ensures forall i :: 0 <= i < |h| ==> h[i] == Entry(logs.value[i])
  {
    var shown := Prefix(if logs.Some? then logs.value else [], 6);
    seq(|shown|, i requires 0 <= i < |shown| => Entry(shown[i]))
  }

  /** A status change written by the simulator or the seed shows as
      "Status changed" with both of its statuses. */
  lemma StatusChangeEntry(id: string, poId: string, from: string, to: string, timestamp: int)
    requires from in Flow && to in Flow
    ensures Entry(StatusLog(id, poId, from, to, timestamp))
            == HistoryEntry("Status changed", Some((JStr(from), JStr(to))))
  {
  }

  /** The `created` entry of an order shows as "Created", without statuses. */
  lemma CreatedEntry(id: string, po: PurchaseOrder, timestamp: int)
    ensures Entry(CreatedLog(id, po, timestamp)) == HistoryEntry("Created", None)
  {
  }

  /** Opened from the order listing, which includes at most five entries,
      the history shows every included entry: the six-line cut never applies. */
  lemma ListedHistoryComplete(pos: seq<PurchaseOrder>, logs: seq<ActivityLog>, i: int)
    requires 0 <= i < |PurchaseOrdersRoute.List(pos, logs)|
    ensures var included := PurchaseOrdersRoute.List(pos, logs)[i].activityLogs;
            |StatusHistory(Some(included))| == |included| <= 5
  {
  }
}
