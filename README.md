# AutomatePOS purchase-order and invoice bookkeeping, in Dafny

This project models the bookkeeping core of AutomatePOS, a back-office
application that keeps purchase orders (POs), invoices, an activity log and
automation runs in a record store. The model covers these parts:

- **Status flow and generators** (`Generators`). A PO moves strictly forward
  through pending → ordered → delivered → received (`getNextStatus`). The
  generators build random line items, POs and invoices. Every
  `Math.random()` draw is a parameter in [0, 1).
- **Record store** (`Store`). A class with four tables held as sequences and
  ids assigned by a counter. It has the create and update calls the routes
  and the seed script make.
- **Activity log as an audit trail** (`Audit`). Every created PO has exactly
  one `created` entry, and a PO's newest `status_changed` entry names the
  status it has. Each modelled writer (the PO creation endpoint, the
  simulator and the seed script) is proved to keep both properties; two
  writers outside the model do not (see "Left out").
- **Simulator endpoint** (`Simulator`). It advances one random PO that has
  not been received, logs the change and announces it.
- **Creation and listing endpoints** (`PurchaseOrdersRoute`,
  `InvoicesRoute`). They fill defaults, write the paired `created` entry,
  order the listing, and include the newest logs or the latest run.
- **Event bus** (`Events`). A class that maps each topic to a duplicate-free
  sequence of callbacks, with subscribe, unsubscribe and an emit that
  survives throwing callbacks.
- **Dashboard statistics endpoint** (`Dashboard`). It computes per-status
  counts, sums, the rounded success rate, bounded "recent" slices, recent
  failures and the seven-day activity chart.
- **Seed script** (`Seed`). It writes 15 POs, each with the history that led
  to its status, then 12 invoices with matching automation runs.
- **Client-side helpers** (`PoPage`, `HistoryPage`, `DashboardPage`,
  `InvoicesPage`, `DocumentModal`, `Sidebar`):
  - the live PO-list reducer;
  - run durations and counts;
  - failure ages and the failure panel;
  - the pie charts;
  - the generate-eligibility rule and the item preview;
  - the document view's totals, error section and history;
  - active-link matching.

Representation choices:

- Money is integer cents, so `toFixed(2)` on a product of cents is exact.
- Timestamps are integer milliseconds.
- JSON values are a `Json` datatype. A stored text column is a `Text`: the
  serialization of a value, or text that `JSON.parse` rejects.
- Statuses stay strings, as in the database columns, so unknown statuses
  are part of the model.

The code enforces fewer rules than its data model suggests; the model
follows the code:

- The create endpoints accept any status and any `linkedPOId` in the
  request body. The strictly forward status flow and "linked only after
  successful automation" hold only for the simulator, the generators and
  the seed script.
- The seed script gives a processed invoice the total of its linked PO, but
  draws its own line items. The invoice's items therefore do not in general
  add up to its total (`Seed.DrawInvoice` states only what the code
  guarantees).
- The dashboard's "failed invoices without a run" list checks only the ten
  newest failed runs (`Dashboard.FailedWithoutRunSpec`). An invoice whose
  only runs are older failures, or successes, is listed.

## Model

| member | source | states |
|---|---|---|
| Base.Parse | src/app/purchase-orders/page.tsx:86-92 | `JSON.parse` fails exactly on malformed text, and reading back a serialized value gives that value |
| Base.Member | src/app/page.tsx:357 | property access yields a value exactly when the parsed value is an object holding the key, and then that field |
| Base.OrElse | src/app/page.tsx:357 | `??` keeps a present non-null value and otherwise yields the fallback |
| Base.NatToString | src/app/page.tsx:372 | a count renders as a non-empty string of decimal digits |
| Base.ParseNatToString | src/app/api/purchase-orders/route.ts:37-44 | the decimal text of a count reads back as the count (used to show store ids are fresh) |
| Base.NatToStringInjective | src/app/api/purchase-orders/route.ts:37-44 | two counts with the same decimal text are equal |
| Base.Map | src/app/api/dashboard/stats/route.ts:108 | `map` keeps the length and applies the function to each element in place |
| Base.Prefix | src/app/api/dashboard/stats/route.ts:84 | `slice(0, n)` has min(n, length) elements and is a prefix of the list |
| Base.Occurrences | src/app/api/dashboard/stats/route.ts:26 | a filter-and-count is at most the list length, and 0 exactly when the value does not occur |
| Base.OccurrencesAppend | src/app/api/dashboard/stats/route.ts:26 | the count over two joined lists is the sum of the counts |
| Records.ItemsTotal | src/lib/generators.ts:61 | the item-total `reduce` is not negative when no item total is |
| Records.ItemsTotalAppend | src/lib/generators.ts:61 | the item-total `reduce` over joined lists is the sum of the two totals |
| Records.DecodeEncodeAll | src/lib/generators.ts:65 | line items serialized as JSON decode back to the same items |
| Records.ParseItems | src/app/purchase-orders/page.tsx:86-92 | `parseItems` yields `[]` for malformed text |
| Records.ParseItemsText | src/components/DocumentModal.tsx:26-28 | `parseItems` of the stored `JSON.stringify(items)` gives back the items |
| Records.ParseError | src/app/page.tsx:354-361 | `parseError` is "Unknown error" for null or malformed details; when the details are an object with a non-null `error`, it is that value; any other result is that field |
| Records.ParseDetails | src/app/invoices/history/page.tsx:75-77 | `parseDetails` is null for absent or malformed details, and otherwise the parsed value |
| Records.StoredItems | src/app/api/purchase-orders/route.ts:40 | string items are stored unchanged; any other value is serialized, and parsing the stored text gives it back |
| Records.StatusOr | src/app/api/purchase-orders/route.ts:42 | `status \|\| default` keeps a non-empty status and falls back for an absent or empty one |
| Query.OrderByDesc | src/app/api/purchase-orders/route.ts:10 | `orderBy: 'desc'` gives the same records (as a multiset), sorted newest first |
| Query.Where | src/app/api/simulator/route.ts:10-16 | `where` keeps exactly the records satisfying the condition |
| Query.FirstIsNewest | src/app/api/invoices/route.ts:12-13 | the head of a list sorted newest first is no older than any member |
| Query.TakeNewest | src/app/api/purchase-orders/route.ts:12-14 | `orderBy desc, take n` gives min(n, length) records, sorted, drawn from the input, none left out newer than one kept |
| Generators.IndexOf | src/lib/generators.ts:73 | `indexOf` is -1 exactly for an absent status; otherwise the first position holding it |
| Generators.NextStatus | src/lib/generators.ts:71-80 | `getNextStatus` is defined exactly for the first three flow statuses; the result is in the flow, one index further |
| Generators.FlowIndices | src/lib/generators.ts:72 | the four flow statuses are distinct and each sits at its own index |
| Generators.WalkFromPending | src/lib/generators.ts:71-80 | from "pending", n successor steps reach flow[n] for n ≤ 3; the fourth step yields null |
| Generators.RandomInt | src/lib/generators.ts:34-36 | `randomInt(min, max)` lies in [min, max] for every draw in [0, 1) |
| Generators.RandomChoice | src/lib/generators.ts:30-32 | `randomChoice` returns an element of the array |
| Generators.DrawItem | src/lib/generators.ts:43-53 | a drawn item has total = quantity × unit price, quantity and price in range, and a catalogue name |
| Generators.ItemCount | src/lib/generators.ts:39 | `count ?? randomInt(1, 5)`: a given count is kept; otherwise it is 1 to the maximum |
| Generators.GenerateLineItems | src/lib/generators.ts:38-57 | exactly `count` items when a non-negative count is given, 1 to 5 otherwise; item i comes from draw i, well priced |
| Generators.GeneratePurchaseOrder | src/lib/generators.ts:59-69 | a generated PO is "pending", from a listed vendor, with 1 to 5 well-priced items whose totals sum to its total |
| Generators.GenerateInvoice | src/lib/generators.ts:94-106 | a generated invoice is "processed" exactly when a non-empty linked id is given; the linked id is kept as given; the total is the item sum |
| Store.FindPurchaseOrder | src/app/api/simulator/route.ts:31-32 | `where: { id }` finds a record with that id, or reports -1 exactly when there is none |
| Store.Store.CreatePurchaseOrder | src/app/api/purchase-orders/route.ts:37-44 | appends the new PO with a fresh id and the given data; the other tables are unchanged |
| Store.Store.UpdatePurchaseOrderStatus | src/app/api/simulator/route.ts:31-34 | replaces the status of the PO with that id in place (none found: nothing changes) |
| Store.Store.CreateActivityLog | src/app/api/purchase-orders/route.ts:47-55 | appends the entry with a fresh id; the other tables are unchanged |
| Store.Store.CreateInvoice | src/app/api/invoices/route.ts:34-44 | appends the new invoice with a fresh id and the given data |
| Store.Store.CreateAutomationRun | prisma/seed.ts:143-152 | appends the new run with a fresh id |
| Store.Store.Reset | prisma/seed.ts:54-57 | `deleteMany` empties all four tables |
| Audit.ChangedTo | src/app/api/simulator/route.ts:37-45 | a status an entry moved a PO to comes only from a `status_changed` entry for that PO |
| Audit.StatusLogChangesTo | src/app/api/simulator/route.ts:37-45 | the simulator's entry moves its PO to `to` and says nothing about other POs |
| Audit.LastStatusChangeAppend | src/app/api/simulator/route.ts:37-45 | an appended status change becomes its PO's latest one; any other entry leaves the latest change alone |
| Audit.CreatedCount | src/app/api/purchase-orders/route.ts:47-55 | the number of `created` entries for a PO is bounded by the log length |
| Audit.CreatedCountAppend | src/app/api/purchase-orders/route.ts:47-55 | appending an entry adds one `created` entry for a PO exactly when it is that PO's `created` entry |
| Audit.CreatedCountNone | src/app/api/purchase-orders/route.ts:47-55 | a log with no entry for a PO has no `created` entry and no status change for it |
| Audit.CreatePreservesAudit | src/app/api/purchase-orders/route.ts:37-55 | creating a PO with its `created` entry keeps "one `created` entry each" and "latest change = status" |
| Audit.ChangePreservesAudit | src/app/api/simulator/route.ts:31-45 | moving one PO and logging the change keeps both audit properties |
| Audit.AppendChanges | prisma/seed.ts:97-109 | appended status changes of one PO add no `created` entry and make the last one that PO's latest change |
| Audit.HistoryPreservesAudit | prisma/seed.ts:94-109 | a status history ending at the PO's status keeps both audit properties |
| Audit.CreateWithHistoryPreservesAudit | prisma/seed.ts:71-109 | a new PO with its `created` entry and its history keeps both audit properties |
| Events.Add | src/lib/events.ts:11 | `set.add` adds the callback once; an existing member leaves the set as it is |
| Events.Delete | src/lib/events.ts:15 | `set.delete` removes exactly that callback and keeps the set duplicate-free |
| Events.DeleteAbsent | src/lib/events.ts:15 | deleting a callback that is not subscribed changes nothing |
| Events.DeleteIdempotent | src/lib/events.ts:14-16 | calling the returned unsubscribe twice is the same as calling it once |
| Events.AddIdempotent | src/lib/events.ts:11 | subscribing the same callback twice registers it once |
| Events.DeleteAdd | src/lib/events.ts:11-15 | unsubscribing undoes a subscription of a new callback |
| Events.EventBus.constructor | src/lib/events.ts:5 | a new bus has no topics |
| Events.EventBus.Subscribe | src/lib/events.ts:7-17 | the topic's set (created if missing) gains the callback; other topics are unchanged; the unsubscribe handle names the pair |
| Events.EventBus.Unsubscribe | src/lib/events.ts:14-16 | removes only that callback from that topic; a missing topic is left alone |
| Events.EventBus.Emit | src/lib/events.ts:19-27 | invokes exactly the topic's callbacks in order, once each, with the data; throwing ones are recorded and the loop goes on; no topic means no call |
| Events.EmitOnce | src/lib/events.ts:19-20 | every subscribed callback is invoked, and no two invocations are of the same callback |
| Simulator.Step | src/app/api/simulator/route.ts:7-59 | the PO table keeps its size; a call that does not advance changes neither table; an advance appends exactly one log entry after the old ones |
| Simulator.Eligible | src/app/api/simulator/route.ts:10-16 | the eligible POs are exactly those not "received" |
| Simulator.StepNoneAvailable | src/app/api/simulator/route.ts:18-20 | "No POs available" exactly when every PO is received, with nothing changed |
| Simulator.StepCannotAdvance | src/app/api/simulator/route.ts:24-28 | "cannot be advanced" changes nothing and needs a PO whose status is outside the flow |
| Simulator.AdvancedIndex | src/app/api/simulator/route.ts:23-34 | an advance updates in place the one PO picked, which was not received |
| Simulator.StepUpdatesOne | src/app/api/simulator/route.ts:31-34 | on success the POs with the chosen id move from the answered `from` (never "received") to `to`, stamped with the current time; every other PO is unchanged |
| Simulator.StepFollowsFlow | src/app/api/simulator/route.ts:24 | the new status is `getNextStatus` of the old one, one flow index further |
| Simulator.StepLogsChange | src/app/api/simulator/route.ts:37-45 | an advance appends exactly one `status_changed` entry for that PO with the answer's from/to |
| Simulator.StepPreservesAudit | src/app/api/simulator/route.ts:31-45 | a simulator call keeps both audit properties |
| Simulator.ProgressBound | src/app/api/simulator/route.ts:10-16 | the total flow progress of n POs is at most 3n |
| Simulator.StepProgress | src/app/api/simulator/route.ts:24-34 | every advance raises the total progress by exactly one, so at most 3n advances are possible |
| Simulator.Advance | src/app/api/simulator/route.ts:7-67 | the POST changes the store as the step function says (invoices and runs untouched), emits the status change exactly on success, and keeps the audit properties |
| PurchaseOrdersRoute.LogsOf | src/app/api/purchase-orders/route.ts:11-12 | a PO's included logs are exactly the entries referring to it |
| PurchaseOrdersRoute.RecentLogs | src/app/api/purchase-orders/route.ts:12-15 | at most five of the PO's entries, newest first, none left out newer than one kept |
| PurchaseOrdersRoute.List | src/app/api/purchase-orders/route.ts:9-17 | GET lists every PO once, by creation time descending, each with its recent logs |
| PurchaseOrdersRoute.PoDataFromBody | src/app/api/purchase-orders/route.ts:37-44 | a body is stored exactly when it has vendor, items and total; the status is never empty |
| PurchaseOrdersRoute.BodyRoundTrip | src/app/api/purchase-orders/route.ts:39-42 | posting a PO's own data stores that data; an empty status becomes "pending" |
| PurchaseOrdersRoute.PostedItemsRoundTrip | src/app/api/purchase-orders/route.ts:40 | items posted as a JSON array are read back unchanged |
| PurchaseOrdersRoute.Create | src/app/api/purchase-orders/route.ts:37-55 | the PO is stored under a fresh id, stamped now, with exactly one `created` entry carrying its vendor and total; both audit properties carry over |
| PurchaseOrdersRoute.Post | src/app/api/purchase-orders/route.ts:30-68 | POST stores the body's data (or a generated PO), appends exactly one `created` entry for it, emits the created PO, keeps the audit properties; a body lacking a required field changes nothing and answers 500 |
| InvoicesRoute.RunsOf | src/app/api/invoices/route.ts:11 | an invoice's runs are exactly those naming it |
| InvoicesRoute.LatestRun | src/app/api/invoices/route.ts:11-14 | the included run list is empty exactly when the invoice has no run; otherwise it is one of its runs started no earlier than any other |
| InvoicesRoute.LatestOfTake | src/app/api/invoices/route.ts:11-14 | `take: 1` of an invoice's runs sorted newest first is its newest run |
| InvoicesRoute.List | src/app/api/invoices/route.ts:8-16 | GET lists every invoice once, by creation time descending, each with its latest run |
| InvoicesRoute.InvoiceDataFromBody | src/app/api/invoices/route.ts:34-43 | a body is stored exactly when it has vendor, line items and total; the status is never empty and defaults to "unprocessed"; `linkedPOId` is kept as sent (null when absent) |
| InvoicesRoute.BodyRoundTrip | src/app/api/invoices/route.ts:36-42 | posting an invoice's own data stores that data; an empty status becomes "unprocessed" |
| InvoicesRoute.Post | src/app/api/invoices/route.ts:29-54 | POST stores the body's data (or a generated unlinked, unprocessed invoice) with a fresh id and touches no other table; a body lacking a required field answers 500 |
| Dashboard.FailedRuns | src/app/api/dashboard/stats/route.ts:16-21 | at most ten runs, each a failed run of the store |
| Dashboard.FindInvoice | src/app/api/dashboard/stats/route.ts:20 | the included invoice is absent exactly when no invoice has the run's id, and otherwise is the id, vendor and total of an invoice with that id |
| Dashboard.FindVendor | src/app/api/dashboard/stats/route.ts:14 | the included vendor is absent exactly when the entry names no PO or no stored PO has that id, and otherwise is the vendor of a PO with that id |
| Dashboard.WithVendors | src/app/api/dashboard/stats/route.ts:11-15 | one recent entry per fetched entry, in order, each carrying the vendor of the PO it names |
| Dashboard.FailedWithoutRun | src/app/api/dashboard/stats/route.ts:104-108 | at most five invoices, each a failed invoice of the list with no listed failed run |
| Dashboard.ComputeStats | src/app/api/dashboard/stats/route.ts:4-110 | the PO, invoice and run totals are the table sizes; min(10, n) recent logs, each with the vendor of the PO it names; at most ten failed runs and five failed invoices |
| Dashboard.CountFour | src/app/api/dashboard/stats/route.ts:25-30 | four per-status counts never exceed the list length and add up to it when every status is one of them |
| Dashboard.CountTwo | src/app/api/dashboard/stats/route.ts:41-42 | successes plus failures never exceed the number of runs |
| Dashboard.SumByRemove | src/app/api/dashboard/stats/route.ts:83 | a sum is one element plus the sum of the rest |
| Dashboard.SumByPermutation | src/app/api/dashboard/stats/route.ts:83 | a summed value does not depend on the order of the records |
| Dashboard.SuccessRate | src/app/api/dashboard/stats/route.ts:43-46 | 0 with no runs; otherwise 100·success/total rounded to the nearest integer (halves up), and 0 to 100 |
| Dashboard.Summaries | src/app/api/dashboard/stats/route.ts:108 | each failed invoice is reported by its id, vendor, total and creation time, in order |
| Dashboard.SameElements | src/app/api/dashboard/stats/route.ts:8-10 | a sorted table holds the same records as the store |
| Dashboard.PoPartSpec | src/app/api/dashboard/stats/route.ts:80-85 | PO total is the count; status counts bounded (exact over flow statuses); `recentActivity` is the first five |
| Dashboard.InvoicePartSpec | src/app/api/dashboard/stats/route.ts:86-91 | likewise for invoices and their four statuses |
| Dashboard.AutomationPartSpec | src/app/api/dashboard/stats/route.ts:92-98 | run count, successes + failures ≤ runs, rate in [0, 100] (0 with no run), first five runs |
| Dashboard.StatsOverStore | src/app/api/dashboard/stats/route.ts:79-98 | over the store the totals are the table sizes and the values are the table sums, whatever the order |
| Dashboard.PoCountsComplete | src/app/api/dashboard/stats/route.ts:25-30 | with every PO status in the flow the four counts add up to the number of POs |
| Dashboard.RecentSpec | src/app/api/dashboard/stats/route.ts:11-21 | `recentLogs` is min(10, n) entries newest first; the failed runs are at most ten failed runs of the store, newest first |
| Dashboard.FailedWithoutRunSpec | src/app/api/dashboard/stats/route.ts:104-108 | at most five failed invoices, none with a listed failed run; with fewer than five, every failed invoice left out has one |
| Dashboard.Failures | src/app/api/dashboard/stats/route.ts:101-110 | the `recentFailures` part holds at most ten failed runs and five failed invoices |
| Dashboard.FailuresListed | src/app/api/dashboard/stats/route.ts:104-109 | each listed failed invoice summarises a failed store invoice with no listed failed run |
| Dashboard.StatsFailures | src/app/api/dashboard/stats/route.ts:100-109 | slice bounds 10/10/5, and each listed failure summarises a failed store invoice with no listed failed run |
| Dashboard.InitDays | src/app/api/dashboard/stats/route.ts:52-56 | the map holds exactly the distinct keys of the seven days, each at zero; the key order lists each of them once |
| Dashboard.CountPos | src/app/api/dashboard/stats/route.ts:58-64 | each present day's PO count rises by the POs created that day; days outside are ignored and no key is added |
| Dashboard.CountInvoices | src/app/api/dashboard/stats/route.ts:66-72 | likewise for invoices |
| Dashboard.Entries | src/app/api/dashboard/stats/route.ts:74-77 | one chart entry per key, in key order, with that day's counts |
| Dashboard.ActivityChart | src/app/api/dashboard/stats/route.ts:48-77 | the chart lists the distinct seven-day keys, each with the number of POs and invoices created on that day |
| PoPage.Step | src/app/purchase-orders/page.tsx:34-60 | an error clears the connection flag, `connected` sets it, and the list grows by one exactly on `po_created` |
| PoPage.Replay | src/app/purchase-orders/page.tsx:34-60 | replaying events never shrinks the list |
| PoPage.Ids | src/app/purchase-orders/page.tsx:50 | the ids of the listed POs, in order |
| PoPage.ReplaceById | src/app/purchase-orders/page.tsx:49-51 | same length; every PO with the updated id becomes the update; every other is unchanged |
| PoPage.MergeSelected | src/app/purchase-orders/page.tsx:53 | the open PO takes the update's fields only when ids match, keeping its own logs |
| PoPage.OnMessage | src/app/purchase-orders/page.tsx:34-56 | `connected` sets the flag; only that message touches it; `connected`/other types change no list; creation leaves the selection |
| PoPage.OnError | src/app/purchase-orders/page.tsx:58-60 | an error clears the flag and nothing else |
| PoPage.CreatedPrepends | src/app/purchase-orders/page.tsx:41-42 | `po_created` puts the PO in front and keeps the rest |
| PoPage.UpdateReplacesById | src/app/purchase-orders/page.tsx:44-51 | an update keeps the ids in place, and changes exactly the POs with the updated id (status change: `data.purchaseOrder`; update: `data`) |
| PoPage.UpdateOfUnlisted | src/app/purchase-orders/page.tsx:49-51 | an update of an unlisted PO leaves the list unchanged |
| PoPage.StatusChangeShown | src/app/purchase-orders/page.tsx:46-53 | after a status change every row and the open PO with that id show the new status |
| PoPage.UpdateIdempotent | src/app/purchase-orders/page.tsx:44-53 | a repeated update leaves the page as one update does |
| PoPage.SelectedInSync | src/app/purchase-orders/page.tsx:49-53 | after an update of the open PO, the detail view and the list rows show the same record |
| PoPage.ReplayConnection | src/app/purchase-orders/page.tsx:38-60 | after any event sequence the indicator shows whether the last connection event was `connected` rather than an error |
| PoPage.ReplayLength | src/app/purchase-orders/page.tsx:41-51 | the list grows by exactly the number of `po_created` messages |
| HistoryPage.GetDuration | src/app/invoices/history/page.tsx:69-73 | "In progress" exactly without `completedAt`; milliseconds exactly below one second; the shown amount is the elapsed time |
| HistoryPage.SeededRunsInSeconds | prisma/seed.ts:139-168 | every seeded run is complete and shows in seconds: 1–5 s for a success, 2 s for a failure |
| HistoryPage.CountRuns | src/app/invoices/history/page.tsx:79-81 | successes + failures ≤ runs; the rate is 0 with no run and otherwise the rounded percentage, within [0, 100] |
| HistoryPage.CountIsSum | src/app/invoices/history/page.tsx:79-80 | a status count is the sum of its indicator over the runs |
| HistoryPage.CountPermutation | src/app/invoices/history/page.tsx:79-80 | a status count does not depend on the order of the runs |
| HistoryPage.HistoryAgreesWithDashboard | src/app/invoices/history/page.tsx:79-81 | the history page and the dashboard report the same counts and rate for the same runs |
| HistoryPage.ErrorLine | src/app/invoices/history/page.tsx:180 | an error line appears only for a failed run whose parsed details carry a truthy `error`, and shows that value |
| HistoryPage.ErrorLineAgreesWithParseError | src/app/invoices/history/page.tsx:180 | where the history shows an error, `parseError` yields the same value |
| HistoryPage.ErrorLineOfErrorDetails | src/app/invoices/history/page.tsx:180 | a run written with `{error}` shows it exactly when it failed and the message is non-empty |
| HistoryPage.SeededErrorLines | prisma/seed.ts:164 | seeded failed runs show the vendor error; successful ones show none |
| DashboardPage.FormatAge | src/app/page.tsx:345-352 | days from 24 h, hours from 1 h, minutes below, each the floor of the age in that unit |
| DashboardPage.HeaderPlural | src/app/page.tsx:372 | the header starts with the count and says "failures" exactly when the count is not 1 |
| DashboardPage.Panel | src/app/page.tsx:342-429 | no panel exactly with no failure; otherwise a header for the total, one row per failed run then per failed invoice, each with its included invoice or the failed invoice's vendor and total, its error, age and Review target |
| DashboardPage.FailedRunsEmpty | src/app/api/dashboard/stats/route.ts:16-21 | the failed-runs query is empty exactly when no run failed |
| DashboardPage.RunRowsShowInvoice | src/app/page.tsx:380-398 | when every run's invoice exists, each failed-run row shows the id, vendor and total of the invoice its Review button opens |
| DashboardPage.PanelHiddenIffNoFailure | src/app/page.tsx:342-343 | over the store's recent failures the panel is hidden exactly when no run and no invoice has failed |
| DashboardPage.ReviewTargets | src/app/page.tsx:380-422 | every Review button opens a failed store invoice, or the invoice of a failed run |
| DashboardPage.Positive | src/app/page.tsx:129 | `filter(d => d.value > 0)` keeps exactly the positive slices, in order, with the same sum |
| DashboardPage.PoPieSum | src/app/page.tsx:124-129 | the PO pie's slices add up to the four counts |
| DashboardPage.InvoicePieSum | src/app/page.tsx:131-136 | the invoice pie's slices add up to the four counts |
| DashboardPage.PoPieOverStore | src/app/page.tsx:124-129 | with every status in the flow, the PO pie covers every PO |
| DashboardPage.RateColor | src/app/page.tsx:180 | green exactly when the rate is at least 80 |
| DashboardPage.GreenThreshold | src/app/page.tsx:180 | red with no runs; otherwise green exactly when at least 79.5% of runs succeeded |
| InvoicesPage.Action | src/app/invoices/page.tsx:162-173 | the button exactly for unprocessed or failed, busy exactly for the invoice being automated; otherwise "PO created" when processed, else the raw status |
| InvoicesPage.OneBusyRow | src/app/invoices/page.tsx:120 | with distinct ids at most one row shows a busy button |
| InvoicesPage.ShortId | src/app/invoices/page.tsx:129 | the first eight characters followed by "..." |
| InvoicesPage.ShortIdDistinguishes | src/app/invoices/page.tsx:129 | ids of at most eight characters stay apart; longer ids sharing eight characters collide |
| InvoicesPage.LinkedCell | src/app/invoices/page.tsx:150-156 | a dash exactly for a null or empty linked id, otherwise its short form |
| InvoicesPage.GeneratedInvoiceRow | src/app/invoices/page.tsx:150-173 | for a generated invoice "PO created" shows exactly when a linked PO shows, and the button otherwise |
| InvoicesPage.ItemsPreview | src/app/invoices/page.tsx:137-138 | at most the first two names, in order, and "..." exactly for more than two items |
| InvoicesPage.PreviewComplete | src/app/invoices/page.tsx:137-138 | a preview without "..." names every item |
| InvoicesPage.PreviewOfStored | src/app/invoices/page.tsx:61-63 | malformed items preview as nothing; stored items preview as the items written |
| DocumentModal.ParseItemsTextAll | src/components/DocumentModal.tsx:26-28 | every item list stored as JSON is read back unchanged |
| DocumentModal.GrandTotal | src/components/DocumentModal.tsx:103 | 0 for malformed items; the sum of the item totals for stored items |
| DocumentModal.LatestRun | src/components/DocumentModal.tsx:127 | the first included run, none exactly when there is no list or it is empty |
| DocumentModal.ModalShowsNewestRun | src/components/DocumentModal.tsx:127 | opened from the listing, the latest run is the invoice's newest run, absent exactly when it has none |
| DocumentModal.Took | src/components/DocumentModal.tsx:177-181 | shown exactly when completed; never negative; the elapsed time when that is not negative, else 0 |
| DocumentModal.TookAgreesWithHistory | src/components/DocumentModal.tsx:177-181 | agrees with the history page's duration except for a negative one, which it clamps to 0 |
| DocumentModal.ErrorSection | src/components/DocumentModal.tsx:164-185 | shown exactly for a failed invoice; holds the latest run's parsed error, start and elapsed time exactly when there is a run |
| DocumentModal.ErrorSectionOfErrorRun | src/components/DocumentModal.tsx:170-181 | a failed invoice whose newest run carries an error shows that message and the elapsed time |
| DocumentModal.ActionLabel | src/components/DocumentModal.tsx:60-64 | the three known actions get their captions; any other shows as itself |
| DocumentModal.FromTo | src/components/DocumentModal.tsx:231-241 | "from → to" exactly when both parsed values are present and truthy |
| DocumentModal.StatusHistory | src/components/DocumentModal.tsx:230 | at most the first six entries, in order (none without logs) |
| DocumentModal.StatusChangeEntry | src/components/DocumentModal.tsx:239-244 | a simulator or seed status change shows "Status changed" with both statuses |
| DocumentModal.CreatedEntry | src/components/DocumentModal.tsx:239-241 | a `created` entry shows "Created" without statuses |
| DocumentModal.ListedHistoryComplete | src/components/DocumentModal.tsx:230 | opened from the listing (≤ 5 logs), the six-line cut never hides an entry |
| Sidebar.IsActive | src/components/Sidebar.tsx:25-26 | active on the exact path; "/" only on itself; any other link exactly when the path starts with it |
| Sidebar.ActiveHrefs | src/components/Sidebar.tsx:24-26 | the highlighted links are exactly the active ones |
| Sidebar.ActiveBelow | src/components/Sidebar.tsx:26 | a link stays active on paths below it, and prefix activation is transitive |
| Sidebar.ActiveOnPath | src/components/Sidebar.tsx:6-26 | the highlighted links, in sidebar order, are those the path activates |
| Sidebar.HistoryPathActive | src/components/Sidebar.tsx:9-10 | "/invoices/history" highlights both Invoices and Automation History |
| Sidebar.RawPrefixActive | src/components/Sidebar.tsx:26 | "/invoicesX" highlights Invoices: the prefix is raw text, not a path segment |
| Sidebar.RootPathActive | src/components/Sidebar.tsx:25 | "/" highlights only the Dashboard; "/purchase-orders" only Purchase Orders |
| Seed.SeedHistory | prisma/seed.ts:97-109 | k status changes of the PO, each later than its creation and each an hour after the previous |
| Seed.SeedHistoryFollowsFlow | prisma/seed.ts:94-109 | entry j moves the PO to flow[j+1], so the history ends at its status |
| Seed.FreshIdUnused | prisma/seed.ts:71-79 | the next id belongs to no stored PO and no log entry |
| Seed.WriteHistory | prisma/seed.ts:97-109 | the inner loop appends exactly the PO's status history and nothing else |
| Seed.CreateLogged | prisma/seed.ts:71-91 | the seeded PO is stored with the counter's id and its `created` entry is stamped with the PO's creation time |
| Seed.CreateWithHistory | prisma/seed.ts:71-109 | the PO, its `created` entry and its history are appended, keeping the audit properties |
| Seed.SeedPurchaseOrder | prisma/seed.ts:62-112 | a seeded PO has a flow status, a seed vendor, 1–4 items summing to its total, an age of 0–7 days, and its logs |
| Seed.SeedRuns | prisma/seed.ts:139-169 | a seeded invoice gets at most one run |
| Seed.SeedRunsSpec | prisma/seed.ts:139-168 | a run exactly for processed-and-linked or failed invoices, fitting its invoice, starting 1–30 min later, taking 1–5 s (success) or 2 s (failure) |
| Seed.WriteRun | prisma/seed.ts:139-169 | appends exactly the seeded runs of the invoice |
| Seed.DrawInvoice | prisma/seed.ts:118-135 | processed invoices copy vendor, total and id of the linked PO; the others are unlinked, "unprocessed" or "failed", with their items' total; 1–4 items; 0–10 days old |
| Seed.SeedInvoice | prisma/seed.ts:117-172 | one loop iteration stores the drawn invoice and its runs |
| Seed.RunsMatchAppend | prisma/seed.ts:138-169 | adding an invoice with fitting runs keeps every run matched to an invoice and every non-unprocessed invoice matched to a run |
| Seed.SeedRunsMatch | prisma/seed.ts:138-169 | adding a seeded invoice with its runs keeps that matching |
| Seed.SeedOrders | prisma/seed.ts:62-112 | fifteen POs with flow statuses, each with one `created` entry and a latest change equal to its status |
| Seed.SeedInvoiceAt | prisma/seed.ts:123-136 | iteration i writes invoice i as described, keeping runs matched |
| Seed.SeedInvoices | prisma/seed.ts:117-172 | twelve invoices, the first six processed and linked to the first six POs, runs matched |
| Seed.SeedAll | prisma/seed.ts:50-175 | `main` leaves 15 audited POs and 12 invoices with matching runs |

## Left out

- Persistence, HTTP and JSON text: the store is in memory, HTTP status codes are kept only as a result tag, and JSON text is an abstract `Text`.
- The Prisma client assigns opaque unique ids; the model's store assigns decimal counter ids, which are just as unique.
- The invoice-to-PO `generate-po` endpoint and the retry flow that calls it: src/app/api/invoices/[id]/generate-po/route.ts is not part of this model. Its PO creation (lines 46-68) logs only a `created_from_invoice` entry, so it does not keep the one-`created`-entry audit property.
- The server-sent-event stream route and the reconnecting `useEventStream` hook: timers and stream I/O.
- The global event-bus singleton (src/lib/events.ts:31-39): environment wiring.
- The automation-runs listing endpoint, which the history page reads: a bare query.
- Rendering: JSX, styles, charts, `StatusBadge` and the status colour tables.
- Floating point: money is integer cents, so `toFixed`/`parseFloat` rounding is exact; the unit price draw is rounded to the nearest cent, halves up.
- Dates and locale: `toLocaleDateString` is the parameter `dayKey` of `Dashboard.ActivityChart`; `Date.now()` is a parameter.
- HistoryPage.GetDuration: the seconds branch records the milliseconds but not its one-decimal text.
- Records.ParseItems: well-formed JSON that is not an array of line items yields `[]` here, whereas the page passes the parsed value through unchecked.
- Dashboard.FindInvoice: a run whose invoice is missing gets no invoice here; the database's foreign key rules that case out, and the page would then fail on `run.invoice.vendor`.
- Dashboard.SuccessRate: uses exact halves-up rounding of 100·success/total; the source rounds a double, which on some exact halves (23 of 40, 57 of 200, 29 of 200) lands just below .5 and gives one less.
- HistoryPage.CountRuns: the same exact halves-up rounding as Dashboard.SuccessRate, so on those exact halves the page's double arithmetic shows one less. The green/red threshold (DashboardPage.GreenThreshold) is not affected for up to 2000 runs.
- The PO update endpoint (src/app/api/purchase-orders/[id]/route.ts:55-76) stores `body.status ?? current` but logs only when `body.status` is truthy and differs, so an empty-string status changes the PO without a `status_changed` entry; it is not part of this model and does not keep the audit properties.
- Query.OrderByDesc: records with equal keys come out in one fixed order; the database's order among ties is not specified.
- Seed.SeedAll: `findMany({ take: 6 })` is modelled as the first six POs in insertion order.
- Seed.SeedRuns: its own contract only bounds the count; what each run is is stated by Seed.SeedRunsSpec.
- Seed.DrawInvoice: a processed invoice copies the total of its linked PO while its line items are drawn on their own, so its items need not add up to its total.
- DocumentModal.ErrorSection: the retry button and its `retrying`/`retryError` state are UI state around the left-out endpoint.
- The document view's PO header and the linked-PO link text are formatting only.
