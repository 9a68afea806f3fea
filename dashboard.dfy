/** The dashboard statistics endpoint: per-status counts, summed values,
    the automation success rate, bounded "recent" slices, the recent
    failures, and the activity of the last seven days. */
module Dashboard {
  import opened Base
  import opened Records
  import opened Generators
  import opened Query

  const StatsFailed := "Failed to fetch dashboard stats"

  // ---- counting and summing ----

  function PoStatus(po: PurchaseOrder): string { po.status }
  function InvoiceStatus(inv: Invoice): string { inv.status }
  function RunStatus(r: AutomationRun): string { r.status }

  /** Four distinct statuses are counted at most once each per element, and
      exactly once when every element carries one of them. */
  lemma {:induction false} CountFour(s: seq<string>, a: string, b: string, c: string, d: string)
    requires a != b && a != c && a != d && b != c && b != d && c != d
    ensures Occurrences(s, a) + Occurrences(s, b) + Occurrences(s, c) + Occurrences(s, d) <= |s|
    ensures (forall i :: 0 <= i < |s| ==> s[i] == a || s[i] == b || s[i] == c || s[i] == d)
            ==> Occurrences(s, a) + Occurrences(s, b) + Occurrences(s, c) + Occurrences(s, d) == |s|
  {
    if s != [] {
      CountFour(s[1..], a, b, c, d);
    }
  }

  /** Two distinct statuses are counted at most once each per element. */
  lemma {:induction false} CountTwo(s: seq<string>, a: string, b: string)
    requires a != b
    ensures Occurrences(s, a) + Occurrences(s, b) <= |s|
  {
    if s != [] {
      CountTwo(s[1..], a, b);
    }
  }

  function SumBy<T>(s: seq<T>, f: T -> int): int {
    if s == [] then 0 else f(s[0]) + SumBy(s[1..], f)
  }

  lemma {:induction false} SumByRemove<T>(s: seq<T>, f: T -> int, j: nat)
    requires j < |s|
    ensures SumBy(s, f) == f(s[j]) + SumBy(s[..j] + s[j + 1..], f)
  {
    if j == 0 {
      assert s[..j] + s[j + 1..] == s[1..];
    } else {
      SumByRemove(s[1..], f, j - 1);
      var rest := s[1..][..j - 1] + s[1..][j..];
      assert s[..j] + s[j + 1..] == [s[0]] + rest;
      assert ([s[0]] + rest)[1..] == rest;
    }
  }

  /** A sum does not depend on the order of the records: the dashboard sums
      the queried (sorted) list, which gives the sum over the store. */
  lemma {:induction false} SumByPermutation<T>(a: seq<T>, b: seq<T>, f: T -> int)
    requires multiset(a) == multiset(b)
    ensures SumBy(a, f) == SumBy(b, f)
  {
    if a == [] {
      assert |b| == |multiset(b)| == 0;
    } else {
      assert a[0] in multiset(b);
      var j :| 0 <= j < |b| && b[j] == a[0];
      var rest := b[..j] + b[j + 1..];
      assert b == b[..j] + [b[j]] + b[j + 1..];
      assert multiset(b) == multiset(b[..j]) + multiset{b[j]} + multiset(b[j + 1..]);
      assert multiset(rest) == multiset(b[..j]) + multiset(b[j + 1..]);
      assert multiset(rest) == multiset(b) - multiset{b[j]};
      assert a == [a[0]] + a[1..];
      assert multiset(a) == multiset{a[0]} + multiset(a[1..]);
      assert multiset(a[1..]) == multiset(a) - multiset{a[0]};
      SumByPermutation(a[1..], rest, f);
      SumByRemove(b, f, j);
    }
  }

  function PoTotal(po: PurchaseOrder): int { po.total }
  function InvoiceTotal(inv: Invoice): int { inv.total }
  function PoCreatedAt(po: PurchaseOrder): int { po.createdAt }
  function InvoiceCreatedAt(inv: Invoice): int { inv.createdAt }
  function RunStartedAt(r: AutomationRun): int { r.startedAt }
  function LogTimestamp(l: ActivityLog): int { l.timestamp }

  // ---- success rate ----

  lemma DivBounds(n: int, d: int)
    requires d > 0
    ensures d * (n / d) <= n < d * (n / d) + d
  {
  }

  lemma MulMonotone(a: int, b: int, c: int)
    requires a <= b && c >= 0
    ensures a * c <= b * c
  {
    assert b * c - a * c == (b - a) * c;
  }

  /** `total > 0 ? Math.round(success / total * 100) : 0`, in exact
      arithmetic: the nearest integer to 100·success/total, halves up. */
  function SuccessRate(success: nat, total: nat): (rate: int)
    ensures total == 0 ==> rate == 0
    ensures total > 0 ==> 2 * total * rate - total <= 200 * success < 2 * total * rate + total
    ensures success <= total ==> 0 <= rate <= 100
  {
    if total == 0 then 0
    else
      var d := 2 * total;
      var n := 200 * success + total;
      var q := n / d;
      DivBounds(n, d);
      assert q >= 0 by {
        if q < 0 {
          MulMonotone(q, -1, d);
        }
      }
      assert success <= total ==> q <= 100 by {
        if success <= total && q > 100 {
          MulMonotone(101, q, d);
        }
      }
      q
  }

  // ---- the statistics ----

  datatype PoByStatus = PoByStatus(pending: nat, ordered: nat, delivered: nat, received: nat)
  datatype InvoiceByStatus = InvoiceByStatus(unprocessed: nat, processing: nat, processed: nat, failed: nat)

  /** The `purchaseOrders` part of the answer. */
  datatype PoSummary = PoSummary(
    total: nat, byStatus: PoByStatus, totalValue: int, recentActivity: seq<PurchaseOrder>)

  /** The `invoices` part of the answer. */
  datatype InvoiceSummary = InvoiceSummary(
    total: nat, byStatus: InvoiceByStatus, totalValue: int, recent: seq<Invoice>)

  /** The `automation` part of the answer. */
  datatype AutomationSummary = AutomationSummary(
    totalRuns: nat, successful: nat, failed: nat, successRate: int, recentRuns: seq<AutomationRun>)

  /** The fields of a failed invoice the failure list reports. */
  datatype FailedInvoice = FailedInvoice(id: string, vendor: string, total: int, createdAt: int)

  /** The fields of a failed run's invoice the query includes. */
  datatype InvoiceRef = InvoiceRef(id: string, vendor: string, total: int)

  /** A failed run with its included invoice (`None` when no invoice has the
      run's `invoiceId`, which the database's foreign key rules out). */
  datatype FailedRun = FailedRun(run: AutomationRun, invoice: Option<InvoiceRef>)

  /** The `recentFailures` part of the answer. */
  datatype RecentFailures = RecentFailures(automationRuns: seq<FailedRun>, invoices: seq<FailedInvoice>)

  /** A recent activity entry with the vendor of its purchase order
      (`include: { purchaseOrder: { select: { vendor } } }`); none when the
      entry names no order, or names one that is not stored. */
  datatype RecentLog = RecentLog(log: ActivityLog, vendor: Option<string>)

  /** The answer, without the chart data (which `ActivityChart` computes). */
  datatype Stats = Stats(
    purchaseOrders: PoSummary, invoices: InvoiceSummary, automation: AutomationSummary,
    recentLogs: seq<RecentLog>, recentFailures: RecentFailures)

  /** The `purchaseOrders` part, over the orders newest first. */
  function PoPart(pos: seq<PurchaseOrder>): PoSummary {
    var s := Map(pos, PoStatus);
    PoSummary(|pos|,
              PoByStatus(Occurrences(s, Pending), Occurrences(s, Ordered),
                         Occurrences(s, Delivered), Occurrences(s, Received)),
              SumBy(pos, PoTotal), Prefix(pos, 5))
  }

  /** The `invoices` part, over the invoices newest first. */
  function InvoicePart(invoices: seq<Invoice>): InvoiceSummary {
    var s := Map(invoices, InvoiceStatus);
    InvoiceSummary(|invoices|,
                   InvoiceByStatus(Occurrences(s, Unprocessed), Occurrences(s, Processing),
                                   Occurrences(s, Processed), Occurrences(s, Failed)),
                   SumBy(invoices, InvoiceTotal), Prefix(invoices, 5))
  }

  /** The `automation` part, over the runs newest first. */
  function AutomationPart(runs: seq<AutomationRun>): AutomationSummary {
    var success := Occurrences(Map(runs, RunStatus), Success);
    AutomationSummary(|runs|, success, Occurrences(Map(runs, RunStatus), Failed),
                      SuccessRate(success, |runs|), Prefix(runs, 5))
  }

  /** The failed runs query: `where: { status: 'failed' }, orderBy:
      { startedAt: 'desc' }, take: 10`. */
  function FailedRuns(runs: seq<AutomationRun>): (r: seq<AutomationRun>)
    ensures |r| <= 10
    ensures forall k :: 0 <= k < |r| ==> r[k].status == Failed && r[k] in runs
  {
    var failed := Where(runs, (x: AutomationRun) => x.status == Failed);
    var r := TakeNewest(failed, RunStartedAt, 10);
    assert forall k :: 0 <= k < |r| ==> r[k] in failed by {
      forall k | 0 <= k < |r| ensures r[k] in failed {
        assert r[k] in multiset(r);
      }
    }
    r
  }

  /** `include: { invoice: { select: { id, vendor, total } } }`: the first
      invoice with that id, if any. */
  function FindInvoice(invoices: seq<Invoice>, id: string): (r: Option<InvoiceRef>)
    ensures r.None? <==> forall k :: 0 <= k < |invoices| ==> invoices[k].id != id
    ensures r.Some? ==> exists k :: 0 <= k < |invoices| && invoices[k].id == id
                          && r.value == InvoiceRef(id, invoices[k].vendor, invoices[k].total)
  {
    if invoices == [] then None
    else if invoices[0].id == id then Some(InvoiceRef(id, invoices[0].vendor, invoices[0].total))
    else
      var r := FindInvoice(invoices[1..], id);
      assert r.Some? ==> exists k :: 1 <= k < |invoices| && invoices[k].id == id
                          && r.value == InvoiceRef(id, invoices[k].vendor, invoices[k].total) by {
        if r.Some? {
          var k :| 0 <= k < |invoices[1..]| && invoices[1..][k].id == id
                   && r.value == InvoiceRef(id, invoices[1..][k].vendor, invoices[1..][k].total);
          assert invoices[k + 1] == invoices[1..][k];
        }
      }
      r
  }

  /** The vendor of the order an entry's `purchaseOrderId` names: the first
      stored order with that id, if any. */
  function FindVendor(pos: seq<PurchaseOrder>, poId: Option<string>): (r: Option<string>)
    ensures r.None? <==> poId.None? || forall k :: 0 <= k < |pos| ==> pos[k].id != poId.value
    ensures r.Some? ==> poId.Some? && exists k :: 0 <= k < |pos| && pos[k].id == poId.value
                                                 && r.value == pos[k].vendor
  {
    if poId.None? || pos == [] then None
    else if pos[0].id == poId.value then Some(pos[0].vendor)
    else
      var r := FindVendor(pos[1..], poId);
      assert r.Some? ==> exists k :: 1 <= k < |pos| && pos[k].id == poId.value && r.value == pos[k].vendor by {
        if r.Some? {
          var k :| 0 <= k < |pos[1..]| && pos[1..][k].id == poId.value && r.value == pos[1..][k].vendor;
          assert pos[k + 1] == pos[1..][k];
        }
      }
      r
  }

  /** Each entry with the vendor of its order looked up among `pos`. */
  function WithVendors(logs: seq<ActivityLog>, pos: seq<PurchaseOrder>): (r: seq<RecentLog>)
    ensures |r| == |logs|
    ensures forall k :: 0 <= k < |r| ==> r[k] == RecentLog(logs[k], FindVendor(pos, logs[k].purchaseOrderId))
  {
    seq(|logs|, i requires 0 <= i < |logs| => RecentLog(logs[i], FindVendor(pos, logs[i].purchaseOrderId)))
  }

  /** Each failed run with its invoice looked up among `invoices`. */
  function WithInvoices(runs: seq<AutomationRun>, invoices: seq<Invoice>): seq<FailedRun> {
    seq(|runs|, i requires 0 <= i < |runs| => FailedRun(runs[i], FindInvoice(invoices, runs[i].invoiceId)))
  }

  /** Whether one of `runs` was made for invoice `id` (`failedRuns.some`). */
  predicate HasRunFor(runs: seq<AutomationRun>, id: string) {
    exists k :: 0 <= k < |runs| && runs[k].invoiceId == id
  }

  function Summary(inv: Invoice): FailedInvoice {
    FailedInvoice(inv.id, inv.vendor, inv.total, inv.createdAt)
  }

  function Summaries(invoices: seq<Invoice>): (r: seq<FailedInvoice>)
    ensures |r| == |invoices|
    ensures forall i :: 0 <= i < |r| ==> r[i] == Summary(invoices[i])
  {
    if invoices == [] then [] else [Summary(invoices[0])] + Summaries(invoices[1..])
  }

  /** The invoices of `recentFailures`: the failed invoices (in the given
      order) that no run among `failedRuns` refers to, at most five. */
  function FailedWithoutRun(invoices: seq<Invoice>, failedRuns: seq<AutomationRun>): (r: seq<Invoice>)
    ensures |r| <= 5
    ensures forall k :: 0 <= k < |r| ==>
              r[k] in invoices && r[k].status == Failed && !HasRunFor(failedRuns, r[k].id)
  {
    var failed := Where(invoices, (inv: Invoice) => inv.status == Failed);
    var candidates := Where(failed, (inv: Invoice) => !HasRunFor(failedRuns, inv.id));
    var r := Prefix(candidates, 5);
    assert forall k :: 0 <= k < |r| ==> r[k] in candidates by {
      forall k | 0 <= k < |r| ensures r[k] in candidates {
        assert r[k] == candidates[k];
      }
    }
    r
  }

  /** `GET /api/dashboard/stats` over the four tables. */
  function ComputeStats(pos: seq<PurchaseOrder>, invoices: seq<Invoice>, runs: seq<AutomationRun>,
                        logs: seq<ActivityLog>): (st: Stats)
    ensures st.purchaseOrders.total == |pos| && st.invoices.total == |invoices|
    ensures st.automation.totalRuns == |runs|
    ensures |st.recentLogs| == Min(10, |logs|)
    ensures forall k :: 0 <= k < |st.recentLogs| ==>
              st.recentLogs[k].vendor == FindVendor(pos, st.recentLogs[k].log.purchaseOrderId)
    ensures |st.recentFailures.automationRuns| <= 10 && |st.recentFailures.invoices| <= 5
  {
    Stats(PoPart(OrderByDesc(pos, PoCreatedAt)), InvoicePart(OrderByDesc(invoices, InvoiceCreatedAt)),
          AutomationPart(OrderByDesc(runs, RunStartedAt)),
          WithVendors(Prefix(TakeNewest(logs, LogTimestamp, 20), 10), pos),
          Failures(invoices, runs))
  }

  /** The `recentFailures` part: the failed runs with their invoices, and the
      newest failed invoices without a listed failed run. */
  function Failures(invoices: seq<Invoice>, runs: seq<AutomationRun>): (f: RecentFailures)
    ensures |f.automationRuns| <= 10 && |f.invoices| <= 5
  {
    var failedRuns := FailedRuns(runs);
    RecentFailures(WithInvoices(failedRuns, invoices),
                   Summaries(FailedWithoutRun(OrderByDesc(invoices, InvoiceCreatedAt), failedRuns)))
  }

  /** Multiset-equal lists hold the same elements. */
  lemma SameElements<T>(a: seq<T>, b: seq<T>, x: T)
    requires multiset(a) == multiset(b)
    ensures x in a <==> x in b
  {
    assert x in a <==> x in multiset(a);
    assert x in b <==> x in multiset(b);
  }

  /** The purchase-order part over a list: its length, per-status counts
      that never exceed it (and add up to it when every status is in the
      flow) and its first five orders. */
  lemma PoPartSpec(pos: seq<PurchaseOrder>)
    ensures PoPart(pos).total == |pos|
    ensures var b := PoPart(pos).byStatus; b.pending + b.ordered + b.delivered + b.received <= |pos|
    ensures (forall i :: 0 <= i < |pos| ==> pos[i].status in Flow)
            ==> var b := PoPart(pos).byStatus; b.pending + b.ordered + b.delivered + b.received == |pos|
    ensures PoPart(pos).recentActivity == pos[..Min(5, |pos|)]
  {
    CountFour(Map(pos, PoStatus), Pending, Ordered, Delivered, Received);
  }

  /** The invoice part over a list, likewise for the four invoice statuses. */
  lemma InvoicePartSpec(invoices: seq<Invoice>)
    ensures InvoicePart(invoices).total == |invoices|
    ensures var b := InvoicePart(invoices).byStatus;
            b.unprocessed + b.processing + b.processed + b.failed <= |invoices|
    ensures (forall i :: 0 <= i < |invoices| ==>
               invoices[i].status in [Unprocessed, Processing, Processed, Failed])
            ==> var b := InvoicePart(invoices).byStatus;
                b.unprocessed + b.processing + b.processed + b.failed == |invoices|
    ensures InvoicePart(invoices).recent == invoices[..Min(5, |invoices|)]
  {
    CountFour(Map(invoices, InvoiceStatus), Unprocessed, Processing, Processed, Failed);
  }

  /** The automation part over a list: successes and failures together
      never exceed the run count, and the rate is 0 to 100 (0 with no run). */
  lemma AutomationPartSpec(runs: seq<AutomationRun>)
    ensures var a := AutomationPart(runs);
            && a.totalRuns == |runs| && a.successful + a.failed <= a.totalRuns
            && 0 <= a.successRate <= 100
            && (a.totalRuns == 0 ==> a.successRate == 0)
            && a.recentRuns == runs[..Min(5, |runs|)]
  {
    CountTwo(Map(runs, RunStatus), Success, Failed);
  }

  /** Over the store: the counts are the table sizes, the values are the
      sums over the tables whatever the order, and the per-status counts add
      up to the count when every status is a known one. */
  lemma StatsOverStore(pos: seq<PurchaseOrder>, invoices: seq<Invoice>, runs: seq<AutomationRun>,
                       logs: seq<ActivityLog>)
    ensures var st := ComputeStats(pos, invoices, runs, logs);
            && st.purchaseOrders.total == |pos|
            && st.purchaseOrders.totalValue == SumBy(pos, PoTotal)
            && st.invoices.total == |invoices|
            && st.invoices.totalValue == SumBy(invoices, InvoiceTotal)
            && st.automation.totalRuns == |runs|
            && st.automation.successful + st.automation.failed <= |runs|
            && 0 <= st.automation.successRate <= 100
  {
    var sortedPos := OrderByDesc(pos, PoCreatedAt);
    var sortedInvoices := OrderByDesc(invoices, InvoiceCreatedAt);
    var sortedRuns := OrderByDesc(runs, RunStartedAt);
    PoPartSpec(sortedPos);
    InvoicePartSpec(sortedInvoices);
    AutomationPartSpec(sortedRuns);
    SumByPermutation(sortedPos, pos, PoTotal);
    SumByPermutation(sortedInvoices, invoices, InvoiceTotal);
  }

  /** When every purchase order's status is in the flow, the four counts
      add up to the number of orders. */
  lemma PoCountsComplete(pos: seq<PurchaseOrder>, invoices: seq<Invoice>, runs: seq<AutomationRun>,
                         logs: seq<ActivityLog>)
    requires forall i :: 0 <= i < |pos| ==> pos[i].status in Flow
    ensures var b := ComputeStats(pos, invoices, runs, logs).purchaseOrders.byStatus;
            b.pending + b.ordered + b.delivered + b.received == |pos|
  {
    var sorted := OrderByDesc(pos, PoCreatedAt);
    forall i | 0 <= i < |sorted|
      ensures sorted[i].status in Flow
    {
      SameElements(sorted, pos, sorted[i]);
    }
    PoPartSpec(sorted);
  }

  /** The log slice is the ten newest entries of the twenty fetched, newest
      first; the failed runs are at most ten failed runs, newest first. */
  lemma RecentSpec(runs: seq<AutomationRun>, logs: seq<ActivityLog>)
    ensures var recent := Prefix(TakeNewest(logs, LogTimestamp, 20), 10);
            |recent| == Min(10, |logs|) && SortedDesc(recent, LogTimestamp)
    ensures var failedRuns := FailedRuns(runs);
            && |failedRuns| <= 10 && SortedDesc(failedRuns, RunStartedAt)
            && forall k :: 0 <= k < |failedRuns| ==> failedRuns[k].status == Failed && failedRuns[k] in runs
  {
    var fetched := TakeNewest(logs, LogTimestamp, 20);
    var recent := Prefix(fetched, 10);
    forall i, j | 0 <= i < j < |recent|
      ensures LogTimestamp(recent[i]) >= LogTimestamp(recent[j])
    {
      assert recent[i] == fetched[i] && recent[j] == fetched[j];
    }
    var failed := Where(runs, (r: AutomationRun) => r.status == Failed);
    var failedRuns := FailedRuns(runs);
    forall k | 0 <= k < |failedRuns|
      ensures failedRuns[k].status == Failed && failedRuns[k] in runs
    {
      assert failedRuns[k] in multiset(failedRuns);
      assert failedRuns[k] in failed;
    }
  }

  /** The recent failures list the failed invoices no listed failed run
      refers to, at most five, in the order given; when fewer than five are
      listed, every failed invoice left out has a run among the failed runs.
      Only the ten newest failed runs are consulted: an invoice whose only
      runs are older failures, or successes, is listed. */
  lemma FailedWithoutRunSpec(invoices: seq<Invoice>, failedRuns: seq<AutomationRun>)
    ensures var r := FailedWithoutRun(invoices, failedRuns);
            && |r| <= 5
            && (forall inv :: inv in r ==> inv in invoices && inv.status == Failed && !HasRunFor(failedRuns, inv.id))
            && (|r| < 5 ==>
                  forall inv :: inv in invoices && inv.status == Failed && inv !in r ==> HasRunFor(failedRuns, inv.id))
  {
    var failed := Where(invoices, (inv: Invoice) => inv.status == Failed);
    var candidates := Where(failed, (inv: Invoice) => !HasRunFor(failedRuns, inv.id));
    var r := Prefix(candidates, 5);
    assert r == FailedWithoutRun(invoices, failedRuns);
    forall inv | inv in r
      ensures inv in candidates
    {
      var k :| 0 <= k < |r| && r[k] == inv;
      assert candidates[k] == inv;
    }
    if |r| < 5 {
      assert r == candidates;
    }
  }

  /** Each failed invoice listed among the recent failures summarises a
      failed invoice of the store for which no listed failed run exists. */
  lemma FailuresListed(invoices: seq<Invoice>, runs: seq<AutomationRun>)
    ensures var f := Failures(invoices, runs);
            forall k :: 0 <= k < |f.invoices| ==>
              exists inv :: inv in invoices && inv.status == Failed
                && f.invoices[k] == Summary(inv)
                && !HasRunFor(FailedRuns(runs), inv.id)
  {
    var sorted := OrderByDesc(invoices, InvoiceCreatedAt);
    var failedRuns := FailedRuns(runs);
    var listed := FailedWithoutRun(sorted, failedRuns);
    FailedWithoutRunSpec(sorted, failedRuns);
    assert Failures(invoices, runs).invoices == Summaries(listed);
    forall k | 0 <= k < |listed|
      ensures listed[k] in invoices && listed[k].status == Failed && !HasRunFor(failedRuns, listed[k].id)
    {
      assert listed[k] in listed;
      SameElements(sorted, invoices, listed[k]);
    }
  }

  /** Over the whole answer: the slices keep their bounds, and each listed
      failed invoice summarises a failed store invoice with no listed failed
      run. */
  lemma StatsFailures(pos: seq<PurchaseOrder>, invoices: seq<Invoice>, runs: seq<AutomationRun>,
                      logs: seq<ActivityLog>)
    ensures var st := ComputeStats(pos, invoices, runs, logs);
            && |st.recentLogs| <= 10 && |st.recentFailures.automationRuns| <= 10
            && |st.recentFailures.invoices| <= 5
            && forall k :: 0 <= k < |st.recentFailures.invoices| ==>
                 exists inv :: inv in invoices && inv.status == Failed
                   && st.recentFailures.invoices[k] == Summary(inv)
                   && !HasRunFor(FailedRuns(runs), inv.id)
  {
    assert ComputeStats(pos, invoices, runs, logs).recentFailures == Failures(invoices, runs);
    FailuresListed(invoices, runs);
  }

  // ---- activity over the last seven days ----

  /** The counts kept for one day. */
  datatype DayCounts = DayCounts(pos: nat, invoices: nat)

  /** One entry of the chart data. */
  datatype DayActivity = DayActivity(date: string, pos: nat, invoices: nat)

  /** The seven day keys, oldest first: the key of `now - i` days for i = 6 down to 0. */
  function DayKeys(dayKey: int -> string, now: int): (keys: seq<string>)
    ensures |keys| == 7
  {
    seq(7, j requires 0 <= j < 7 => dayKey(now - (6 - j) * DayMs))
  }

  /** The number of purchase orders whose creation day has key `key`. */
  function PosOnDay(pos: seq<PurchaseOrder>, dayKey: int -> string, key: string): nat {
    if pos == [] then 0
    else PosOnDay(pos[..|pos| - 1], dayKey, key) + (if dayKey(pos[|pos| - 1].createdAt) == key then 1 else 0)
  }

  /** The number of invoices whose creation day has key `key`. */
  function InvoicesOnDay(invoices: seq<Invoice>, dayKey: int -> string, key: string): nat {
    if invoices == [] then 0
    else InvoicesOnDay(invoices[..|invoices| - 1], dayKey, key)
         + (if dayKey(invoices[|invoices| - 1].createdAt) == key then 1 else 0)
  }

  function Dates(chart: seq<DayActivity>): (r: seq<string>)
    ensures |r| == |chart|
    ensures forall i :: 0 <= i < |chart| ==> r[i] == chart[i].date
  {
    if chart == [] then [] else [chart[0].date] + Dates(chart[1..])
  }

  /** The seven days, each set to zero: `order` lists the distinct keys in
      the order they were first set. */
  method InitDays(dayKey: int -> string, now: int)
    returns (activity: map<string, DayCounts>, order: seq<string>)
    ensures 1 <= |order| <= 7 && NoDuplicates(order)
    ensures forall d :: d in order <==> d in DayKeys(dayKey, now)
    ensures activity.Keys == set d | d in order
    ensures forall d :: d in activity ==> activity[d] == DayCounts(0, 0)
  {
    ghost var keys := DayKeys(dayKey, now);
    activity := map[];
    order := [];
    for i := 7 downto 0
      invariant NoDuplicates(order) && |order| <= 7 - i
      invariant forall d :: d in order <==> d in keys[..7 - i]
      invariant activity.Keys == set d | d in order
      invariant forall d :: d in activity ==> activity[d] == DayCounts(0, 0)
    {
      var key := dayKey(now - i * DayMs);
      assert keys[..7 - i] == keys[..6 - i] + [key];
      if key !in activity {
        order := order + [key];
      }
      activity := activity[key := DayCounts(0, 0)];
    }
    assert keys[..7] == keys;
    assert keys[0] in order;
  }

  /** The purchase orders counted into the days already present; orders of
      other days are ignored. */
  method CountPos(activity: map<string, DayCounts>, dayKey: int -> string, pos: seq<PurchaseOrder>)
    returns (counted: map<string, DayCounts>)
    ensures counted.Keys == activity.Keys
    ensures forall d :: d in counted ==>
              counted[d] == activity[d].(pos := activity[d].pos + PosOnDay(pos, dayKey, d))
  {
    counted := activity;
    for k := 0 to |pos|
      invariant counted.Keys == activity.Keys
      invariant forall d :: d in counted ==>
                  counted[d] == activity[d].(pos := activity[d].pos + PosOnDay(pos[..k], dayKey, d))
    {
      assert pos[..k + 1][..k] == pos[..k];
      var key := dayKey(pos[k].createdAt);
      if key in counted {
        counted := counted[key := counted[key].(pos := counted[key].pos + 1)];
      }
    }
    assert pos[..|pos|] == pos;
  }

  /** The invoices counted into the days already present; invoices of other
      days are ignored. */
  method CountInvoices(activity: map<string, DayCounts>, dayKey: int -> string, invoices: seq<Invoice>)
    returns (counted: map<string, DayCounts>)
    ensures counted.Keys == activity.Keys
    ensures forall d :: d in counted ==>
              counted[d] == activity[d].(invoices := activity[d].invoices + InvoicesOnDay(invoices, dayKey, d))
  {
    counted := activity;
    for k := 0 to |invoices|
      invariant counted.Keys == activity.Keys
      invariant forall d :: d in counted ==>
                  counted[d]
                  == activity[d].(invoices := activity[d].invoices + InvoicesOnDay(invoices[..k], dayKey, d))
    {
      assert invoices[..k + 1][..k] == invoices[..k];
      var key := dayKey(invoices[k].createdAt);
      if key in counted {
        counted := counted[key := counted[key].(invoices := counted[key].invoices + 1)];
      }
    }
    assert invoices[..|invoices|] == invoices;
  }

  /** `Object.entries(activityByDay).map(...)`: one entry per key, in the
      order the keys were first set. */
  method Entries(activity: map<string, DayCounts>, order: seq<string>) returns (chart: seq<DayActivity>)
    requires forall d :: d in order ==> d in activity
    ensures Dates(chart) == order
    ensures forall j :: 0 <= j < |chart| ==>
              chart[j].pos == activity[order[j]].pos && chart[j].invoices == activity[order[j]].invoices
  {
    chart := [];
    for j := 0 to |order|
      invariant |chart| == j
      invariant forall m :: 0 <= m < j ==>
                  chart[m] == DayActivity(order[m], activity[order[m]].pos, activity[order[m]].invoices)
    {
      chart := chart + [DayActivity(order[j], activity[order[j]].pos, activity[order[j]].invoices)];
    }
  }

  /** `activityByDay` and `activityChartData`: seven day keys computed with
      `dayKey` (the locale date formatting), each set to zero, in order;
      every purchase order and invoice whose creation day is one of them
      counted there, and the others ignored; then the entries in the order
      their keys were first set. */
  method ActivityChart(dayKey: int -> string, now: int, pos: seq<PurchaseOrder>, invoices: seq<Invoice>)
    returns (chart: seq<DayActivity>)
    ensures 1 <= |chart| <= 7 && NoDuplicates(Dates(chart))
    ensures forall d :: d in Dates(chart) <==> d in DayKeys(dayKey, now)
    ensures forall j :: 0 <= j < |chart| ==>
              chart[j].pos == PosOnDay(pos, dayKey, chart[j].date)
              && chart[j].invoices == InvoicesOnDay(invoices, dayKey, chart[j].date)
  {
    var activity, order := InitDays(dayKey, now);
    var withPos := CountPos(activity, dayKey, pos);
    var counted := CountInvoices(withPos, dayKey, invoices);
    chart := Entries(counted, order);
  }
}
