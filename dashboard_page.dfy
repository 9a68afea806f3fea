/** The dashboard page: the age shown for a failure, the failure panel and
    its header, the status pie charts and the colour of the success-rate card. */
module DashboardPage {
  import opened Base
  import opened Records
  import opened Generators
  import opened Query
  import opened Dashboard

  // ---- ages ----

  /** What `formatAge` renders: `${d}d ago`, `${h}h ago` or `${m}m ago`. */
  datatype Age = DaysAgo(days: int) | HoursAgo(hours: int) | MinutesAgo(minutes: int)

  /** `formatAge` of a record `diffMs` milliseconds old, with the source's
      floor divisions: whole days from 24 hours on, whole hours from one
      hour on, whole minutes below that (negative for a future date). */
  function FormatAge(diffMs: int): (a: Age)
    ensures a.DaysAgo? <==> diffMs >= DayMs
    ensures a.HoursAgo? <==> HourMs <= diffMs < DayMs
    ensures a.MinutesAgo? <==> diffMs < HourMs
    ensures a.DaysAgo? ==> a.days >= 1 && a.days * DayMs <= diffMs < (a.days + 1) * DayMs
    ensures a.HoursAgo? ==> 1 <= a.hours < 24 && a.hours * HourMs <= diffMs < (a.hours + 1) * HourMs
    ensures a.MinutesAgo? ==> a.minutes < 60 && a.minutes * MinuteMs <= diffMs < (a.minutes + 1) * MinuteMs
  {
    // Dafny's division by a positive divisor rounds down, as `Math.floor` of the quotient does.
    var diffH := diffMs / HourMs;
    var diffM := diffMs / MinuteMs;
    if diffH >= 24 then
      var days := diffH / 24;
      assert days * DayMs <= diffMs < (days + 1) * DayMs by {
        assert HourMs * diffH <= diffMs < HourMs * diffH + HourMs;
        assert 24 * days <= diffH < 24 * days + 24;
      }
      DaysAgo(days)
    else if diffH >= 1 then HoursAgo(diffH)
    else MinutesAgo(diffM)
  }

  // ---- the failure panel ----

  /** A row of the panel and the invoice its Review button opens. A run row
      shows the vendor and total of the run's included invoice. */
  datatype FailureRow =
    | RunRow(invoice: Option<InvoiceRef>, error: Json, age: Age, review: string)
    | InvoiceRow(vendor: string, total: int, age: Age, review: string)

  datatype FailurePanel = FailurePanel(header: string, rows: seq<FailureRow>)

  /** `${n} failure${n !== 1 ? 's' : ''} require attention`. */
  function Header(n: nat): string {
    NatToString(n) + " failure" + (if n != 1 then "s" else "") + " require attention"
  }

  /** The header starts with the count and says "failures" exactly when
      the count is not one. */
  lemma HeaderPlural(n: nat)
    ensures |Header(n)| > |NatToString(n)| + 8
    ensures Header(n)[..|NatToString(n)|] == NatToString(n)
    ensures Header(n)[|NatToString(n)| + 8] == 's' <==> n != 1
  {
    var count := NatToString(n);
    var rest := " failure" + (if n != 1 then "s" else "") + " require attention";
    assert Header(n) == count + rest;
    assert Header(n)[|count| + 8] == rest[8];
  }

  /** `FailureAlertPanel` at time `now`: nothing when there is no failure;
      otherwise the header for the number of failures, a row per failed run
      (its error, its age, Review opening its invoice), then a row per failed
      invoice without a run (Review opening that invoice). */
  function Panel(failures: RecentFailures, now: int): (p: Option<FailurePanel>)
    ensures p.None? <==> |failures.automationRuns| + |failures.invoices| == 0
    ensures p.Some? ==>
              var runs, invs := failures.automationRuns, failures.invoices;
              && p.value.header == Header(|runs| + |invs|)
              && |p.value.rows| == |runs| + |invs|
              && (forall i :: 0 <= i < |runs| ==>
                    p.value.rows[i] == RunRow(runs[i].invoice, ParseError(runs[i].run.details),
                                              FormatAge(now - runs[i].run.startedAt), runs[i].run.invoiceId))
              && (forall j :: 0 <= j < |invs| ==>
                    p.value.rows[|runs| + j] == InvoiceRow(invs[j].vendor, invs[j].total,
                                                           FormatAge(now - invs[j].createdAt), invs[j].id))
  {
    var runs, invs := failures.automationRuns, failures.invoices;
    var total := |runs| + |invs|;
    if total == 0 then None
    else
      var runRows := seq(|runs|, i requires 0 <= i < |runs| =>
                           RunRow(runs[i].invoice, ParseError(runs[i].run.details),
                                  FormatAge(now - runs[i].run.startedAt), runs[i].run.invoiceId));
      var invoiceRows := seq(|invs|, j requires 0 <= j < |invs| =>
                               InvoiceRow(invs[j].vendor, invs[j].total, FormatAge(now - invs[j].createdAt), invs[j].id));
      Some(FailurePanel(Header(total), runRows + invoiceRows))
  }

  /** The failed runs query finds nothing exactly when no run failed. */
  lemma FailedRunsEmpty(runs: seq<AutomationRun>)
    ensures FailedRuns(runs) == [] <==> forall r :: r in runs ==> r.status != Failed
  {
    var failed := Where(runs, (r: AutomationRun) => r.status == Failed);
    assert |FailedRuns(runs)| == Min(10, |failed|);
    if exists r :: r in runs && r.status == Failed {
      var r :| r in runs && r.status == Failed;
      assert r in failed;
    } else {
      assert failed == [];
    }
  }

  /** Over the store, the panel stays hidden exactly when no automation run
      and no invoice has failed. */
  lemma PanelHiddenIffNoFailure(invoices: seq<Invoice>, runs: seq<AutomationRun>, now: int)
    ensures Panel(Failures(invoices, runs), now).None?
            <==> (forall r :: r in runs ==> r.status != Failed) && (forall inv :: inv in invoices ==> inv.status != Failed)
  {
    var sorted := OrderByDesc(invoices, InvoiceCreatedAt);
    var failedRuns := FailedRuns(runs);
    FailedRunsEmpty(runs);
    var listed := FailedWithoutRun(sorted, failedRuns);
    assert Failures(invoices, runs) == RecentFailures(WithInvoices(failedRuns, invoices), Summaries(listed));
    if failedRuns == [] {
      FailedWithoutRunSpec(sorted, failedRuns);
      if exists inv :: inv in invoices && inv.status == Failed {
        var inv :| inv in invoices && inv.status == Failed;
        SameElements(sorted, invoices, inv);
      } else if listed != [] {
        assert listed[0] in listed;
        SameElements(sorted, invoices, listed[0]);
      }
    }
  }

  /** Every Review button opens an invoice of the store: the invoice of a
      failed run, or a failed invoice no listed failed run refers to. */
  lemma ReviewTargets(invoices: seq<Invoice>, runs: seq<AutomationRun>, now: int)
    ensures var p := Panel(Failures(invoices, runs), now);
            p.Some? ==> forall k :: 0 <= k < |p.value.rows| ==>
              match p.value.rows[k]
              case RunRow(_, _, _, review) => exists r :: r in runs && r.status == Failed && r.invoiceId == review
              case InvoiceRow(_, _, _, review) => exists inv :: inv in invoices && inv.status == Failed && inv.id == review
  {
    var fs := Failures(invoices, runs);
    var p := Panel(fs, now);
    FailuresListed(invoices, runs);
    if p.Some? {
      var nr := |fs.automationRuns|;
      forall k | 0 <= k < |p.value.rows|
        ensures match p.value.rows[k]
                case RunRow(_, _, _, review) => exists r :: r in runs && r.status == Failed && r.invoiceId == review
                case InvoiceRow(_, _, _, review) =>
                  exists inv :: inv in invoices && inv.status == Failed && inv.id == review
      {
        if k < nr {
          assert fs.automationRuns[k].run == FailedRuns(runs)[k];
          assert FailedRuns(runs)[k] in runs;
        } else {
          var inv :| inv in invoices && inv.status == Failed && fs.invoices[k - nr] == Summary(inv)
                     && !HasRunFor(FailedRuns(runs), inv.id);
          assert p.value.rows[k].review == inv.id;
        }
      }
    }
  }

  /** When every run's invoice is in the store, as the database's foreign key
      guarantees, every run row shows the vendor and total of the invoice its
      Review button opens. */
  lemma RunRowsShowInvoice(invoices: seq<Invoice>, runs: seq<AutomationRun>, now: int)
    requires forall r :: r in runs ==> exists inv :: inv in invoices && inv.id == r.invoiceId
    ensures var p := Panel(Failures(invoices, runs), now);
            p.Some? ==> forall k :: 0 <= k < |p.value.rows| && p.value.rows[k].RunRow? ==>
              && p.value.rows[k].invoice.Some?
              && p.value.rows[k].invoice.value.id == p.value.rows[k].review
              && exists inv :: inv in invoices
                   && p.value.rows[k].invoice.value == InvoiceRef(inv.id, inv.vendor, inv.total)
  {
    var fs := Failures(invoices, runs);
    var p := Panel(fs, now);
    if p.Some? {
      var failedRuns := FailedRuns(runs);
      assert fs.automationRuns == WithInvoices(failedRuns, invoices);
      forall k | 0 <= k < |p.value.rows| && p.value.rows[k].RunRow?
        ensures && p.value.rows[k].invoice.Some?
                && p.value.rows[k].invoice.value.id == p.value.rows[k].review
                && exists inv :: inv in invoices
                     && p.value.rows[k].invoice.value == InvoiceRef(inv.id, inv.vendor, inv.total)
      {
        assert k < |fs.automationRuns|;
        var run := failedRuns[k];
        assert run in runs;
        var found := FindInvoice(invoices, run.invoiceId);
        assert p.value.rows[k].invoice == found && p.value.rows[k].review == run.invoiceId;
        var inv :| inv in invoices && inv.id == run.invoiceId;
        var j :| 0 <= j < |invoices| && invoices[j] == inv;
        assert found.Some?;
        var m :| 0 <= m < |invoices| && invoices[m].id == run.invoiceId
                 && found.value == InvoiceRef(run.invoiceId, invoices[m].vendor, invoices[m].total);
        assert invoices[m] in invoices;
      }
    }
  }

  // ---- pie charts ----

  /** One slice of a status pie chart. */
  datatype Slice = Slice(name: string, value: nat)

  function SumValues(slices: seq<Slice>): nat {
    if slices == [] then 0 else slices[0].value + SumValues(slices[1..])
  }

  /** Whether `r` is `s` with some elements left out, the rest in order. */
  predicate IsSubsequence<T(==)>(r: seq<T>, s: seq<T>)
    decreases |s|
  {
    r == [] || (s != [] && ((r[0] == s[0] && IsSubsequence(r[1..], s[1..])) || IsSubsequence(r, s[1..])))
  }

  /** `.filter((d) => d.value > 0)`: the slices with a positive value, in
      their order; the values still add up to the same total. */
  function Positive(slices: seq<Slice>): (r: seq<Slice>)
    ensures forall x :: x in r <==> x in slices && x.value > 0
    ensures IsSubsequence(r, slices)
    ensures SumValues(r) == SumValues(slices)
  {
    if slices == [] then []
    else
      var rest := Positive(slices[1..]);
      if slices[0].value > 0 then
        var r := [slices[0]] + rest;
        assert r[1..] == rest;
        r
      else rest
  }

  /** The purchase-order pie: the four statuses in flow order, empty ones left out. */
  function PoPie(b: PoByStatus): seq<Slice> {
    Positive([Slice("Pending", b.pending), Slice("Ordered", b.ordered),
              Slice("Delivered", b.delivered), Slice("Received", b.received)])
  }

  /** The invoice pie, likewise. */
  function InvoicePie(b: InvoiceByStatus): seq<Slice> {
    Positive([Slice("Unprocessed", b.unprocessed), Slice("Processing", b.processing),
              Slice("Processed", b.processed), Slice("Failed", b.failed)])
  }

  /** The purchase-order pie's slices add up to the four counts. */
  lemma PoPieSum(b: PoByStatus)
    ensures SumValues(PoPie(b)) == b.pending + b.ordered + b.delivered + b.received
  {
    var full := [Slice("Pending", b.pending), Slice("Ordered", b.ordered),
                 Slice("Delivered", b.delivered), Slice("Received", b.received)];
    assert SumValues(full[3..]) == b.received;
    assert SumValues(full[2..]) == b.delivered + b.received;
    assert SumValues(full[1..]) == b.ordered + b.delivered + b.received;
  }

  /** The invoice pie's slices add up to the four counts. */
  lemma InvoicePieSum(b: InvoiceByStatus)
    ensures SumValues(InvoicePie(b)) == b.unprocessed + b.processing + b.processed + b.failed
  {
    var full := [Slice("Unprocessed", b.unprocessed), Slice("Processing", b.processing),
                 Slice("Processed", b.processed), Slice("Failed", b.failed)];
    assert SumValues(full[3..]) == b.failed;
    assert SumValues(full[2..]) == b.processed + b.failed;
    assert SumValues(full[1..]) == b.processing + b.processed + b.failed;
  }

  /** Over the store, the purchase-order pie covers every order when every
      status is in the flow. */
  lemma PoPieOverStore(pos: seq<PurchaseOrder>, invoices: seq<Invoice>, runs: seq<AutomationRun>,
                       logs: seq<ActivityLog>)
    requires forall i :: 0 <= i < |pos| ==> pos[i].status in Flow
    ensures SumValues(PoPie(ComputeStats(pos, invoices, runs, logs).purchaseOrders.byStatus)) == |pos|
  {
    PoCountsComplete(pos, invoices, runs, logs);
    PoPieSum(ComputeStats(pos, invoices, runs, logs).purchaseOrders.byStatus);
  }

  // ---- the success-rate card ----

  datatype Color = Green | Red

  /** `successRate >= 80 ? 'green' : 'red'`. */
  function RateColor(rate: int): (c: Color)
    ensures c == Green <==> rate >= 80
  {
    if rate >= 80 then Green else Red
  }

  /** The card is green exactly when at least 79.5% of the runs succeeded
      (the rounded rate reaches 80); with no run at all it is red. */
  lemma GreenThreshold(success: nat, total: nat)
    ensures total == 0 ==> RateColor(SuccessRate(success, total)) == Red
    ensures total > 0 ==> (RateColor(SuccessRate(success, total)) == Green <==> 200 * success >= 159 * total)
  {
    if total > 0 {
      var rate := SuccessRate(success, total);
      var d := 2 * total;
      assert d * rate - total <= 200 * success < d * rate + total;
      if rate >= 80 {
        MulMonotone(80, rate, d);
        assert 80 * d <= rate * d == d * rate;
      } else {
        MulMonotone(rate, 79, d);
        assert d * rate == rate * d <= 79 * d;
      }
    }
  }
}
