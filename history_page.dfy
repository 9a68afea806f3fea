/** The automation history page: the duration shown for each run, the
    success and failure counts and rate over the listed runs, and the error
    line under a failed run. */
module HistoryPage {
  import opened Base
  import opened Records
  import opened Query
  import opened Dashboard
  import opened Seed

  /** What `getDuration` renders: "In progress...", `${ms}ms`, or the
      milliseconds as seconds with one decimal. */
  datatype Duration = InProgress | Millis(ms: int) | Seconds(ms: int)

  /** `getDuration`: in progress exactly while the run has no completion
      time; otherwise the elapsed milliseconds, shown as such below one
      second (a negative difference included) and in seconds from one second on. */
  function GetDuration(run: AutomationRun): (d: Duration)
    ensures d.InProgress? <==> run.completedAt.None?
    ensures d.Millis? <==> run.completedAt.Some? && run.completedAt.value - run.startedAt < SecondMs
    ensures !d.InProgress? ==> d.ms == run.completedAt.value - run.startedAt
  {
    if run.completedAt.None? then InProgress
    else
      var ms := run.completedAt.value - run.startedAt;
      if ms < SecondMs then Millis(ms) else Seconds(ms)
  }

  /** Every run the seed writes is complete and shows in seconds: one to
      five seconds for a success, two seconds for a failure. */
  lemma SeededRunsInSeconds(inv: Invoice, listed: Option<PurchaseOrder>, isProcessed: bool, d: InvoiceDraws,
                            runId: string)
    requires isProcessed ==> inv.status == Processed
    requires inv.linkedPOId == (if isProcessed && listed.Some? then Some(listed.value.id) else None)
    ensures forall run :: run in SeedRuns(inv, listed, isProcessed, d, runId) ==>
              && GetDuration(run).Seconds?
              && (run.status == Success ==> SecondMs <= GetDuration(run).ms <= 5 * SecondMs)
              && (run.status == Failed ==> GetDuration(run) == Seconds(2 * SecondMs))
  {
    SeedRunsSpec(inv, listed, isProcessed, d, runId);
    var runs := SeedRuns(inv, listed, isProcessed, d, runId);
    forall run | run in runs
      ensures GetDuration(run).Seconds?
    {
      var k :| 0 <= k < |runs| && runs[k] == run;
    }
  }

  /** `successCount`, `failedCount` and `successRate` of the page. */
  datatype Tally = Tally(successCount: nat, failedCount: nat, successRate: int)

  /** The counts of successful and failed runs, which together never exceed
      the number of runs, and the rate: 0 with no run, otherwise the
      percentage of successes rounded to the nearest integer. */
  function CountRuns(runs: seq<AutomationRun>): (t: Tally)
    ensures t.successCount + t.failedCount <= |runs|
    ensures |runs| == 0 ==> t.successRate == 0
    ensures 0 <= t.successRate <= 100
    ensures |runs| > 0 ==>
              2 * |runs| * t.successRate - |runs| <= 200 * t.successCount < 2 * |runs| * t.successRate + |runs|
  {
    var statuses := Map(runs, RunStatus);
    CountTwo(statuses, Success, Failed);
    var success := Occurrences(statuses, Success);
    Tally(success, Occurrences(statuses, Failed), SuccessRate(success, |runs|))
  }

  /** The number of runs with a status is the sum of its indicator. */
  lemma {:induction false} CountIsSum(runs: seq<AutomationRun>, status: string, f: AutomationRun -> int)
    requires forall r :: f(r) == (if r.status == status then 1 else 0)
    ensures Occurrences(Map(runs, RunStatus), status) == SumBy(runs, f)
  {
    if runs != [] {
      CountIsSum(runs[1..], status, f);
      assert Map(runs, RunStatus)[1..] == Map(runs[1..], RunStatus);
    }
  }

  /** The number of runs with a status does not depend on their order. */
  lemma CountPermutation(a: seq<AutomationRun>, b: seq<AutomationRun>, status: string)
    requires multiset(a) == multiset(b)
    ensures Occurrences(Map(a, RunStatus), status) == Occurrences(Map(b, RunStatus), status)
  {
    var f := (r: AutomationRun) => if r.status == status then 1 else 0;
    CountIsSum(a, status, f);
    CountIsSum(b, status, f);
    SumByPermutation(a, b, f);
  }

  /** The history page and the dashboard report the same counts and the
      same rate for the same runs, whatever order each lists them in. */
  lemma HistoryAgreesWithDashboard(pos: seq<PurchaseOrder>, invoices: seq<Invoice>, runs: seq<AutomationRun>,
                                   logs: seq<ActivityLog>)
    ensures var a := ComputeStats(pos, invoices, runs, logs).automation;
            CountRuns(runs) == Tally(a.successful, a.failed, a.successRate)
  {
    var sorted := OrderByDesc(runs, RunStartedAt);
    CountPermutation(runs, sorted, Success);
    CountPermutation(runs, sorted, Failed);
  }

  /** The error line under a run (`run.status === 'failed' && details?.error`):
      the `error` of its parsed details, shown only for a failed run and only
      when that value is truthy. */
  function ErrorLine(run: AutomationRun): (line: Option<Json>)
    ensures line.Some? ==> run.status == Failed && Truthy(line.value)
    ensures line.Some? ==> Member(ParseDetails(run.details), "error") == line
    ensures line.None? ==>
              run.status != Failed || Member(ParseDetails(run.details), "error").None?
              || !Truthy(Member(ParseDetails(run.details), "error").value)
  {
    var error := Member(ParseDetails(run.details), "error");
    if run.status == Failed && error.Some? && Truthy(error.value) then error else None
  }

  /** Where the history shows an error line, the dashboard's failure panel
      and the document view name the same error. */
  lemma ErrorLineAgreesWithParseError(run: AutomationRun)
    ensures ErrorLine(run).Some? ==> ParseError(run.details) == ErrorLine(run).value
  {
  }

  /** A run written with an error message shows that message when it
      failed and the message is not empty; a run that did not fail never
      shows one. */
  lemma ErrorLineOfErrorDetails(run: AutomationRun, error: string)
    requires run.details == Some(ErrorDetails(error))
    ensures ErrorLine(run) == (if run.status == Failed && error != "" then Some(JStr(error)) else None)
  {
  }

  /** The seed's failed runs show the vendor error; its successful runs show none. */
  lemma SeededErrorLines(inv: Invoice, listed: Option<PurchaseOrder>, isProcessed: bool, d: InvoiceDraws,
                         runId: string)
    requires isProcessed ==> inv.status == Processed
    ensures forall run :: run in SeedRuns(inv, listed, isProcessed, d, runId) ==>
              ErrorLine(run) == (if run.status == Failed then Some(JStr(VendorNotApproved)) else None)
  {
    var runs := SeedRuns(inv, listed, isProcessed, d, runId);
    forall run | run in runs
      ensures ErrorLine(run) == (if run.status == Failed then Some(JStr(VendorNotApproved)) else None)
    {
      if run.status == Failed {
        ErrorLineOfErrorDetails(run, VendorNotApproved);
      }
    }
  }
}
