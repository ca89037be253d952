# EOD report tool — a verified model of its core

The application is a small browser tool for a real-estate sales team. Telecallers fill in an
end-of-day (EOD) report each evening. A report holds:

- the CP firm they dialled for;
- the calls dialled and connected, and the projects explained;
- three editable lists: site visits scheduled, site visits completed (each with a status), and new leads.

Managers see a dashboard over everyone's reports. This project models the core of that tool in Dafny
and proves what it promises:

- **The user directory** (`services/userService.ts`), in module `UserService`. It holds the three
  built-in users and the lookup by email, which ignores case. An empty email finds nobody. Otherwise
  the result is the first user in directory order whose email matches. The directory's emails are
  distinct, so every user is found by their own email.
- **The report form** (`components/StoryPromptForm.tsx`), in module `ReportForm`:
  - the generic list editors `addItem`, `removeItem` and `updateItem`, as functions on sequences
    with their laws;
  - the form itself, as the class `EodReportForm` whose fields are the form's state. Every handler is
    a method stating the form's whole new state. `HandleSubmit` hands over exactly the fields.
- **The application shell** (`App.tsx`), in module `App`, as the class `EodApp`:
  - the fields are the view, the report store, the current report and the logged-in user, plus the
    two browser-storage entries;
  - `Mount` is the start-up load. `Login`, `Logout`, `SubmitReport`, `ShowForm` and
    `ShowDashboard` are the handlers;
  - the persist effect is folded into every method that changes the reports. The invariant `Valid`
    says that storage always holds the reports, and that the summary view always has a report to
    show;
  - `ReportsForDashboard` is the visibility rule: a manager sees everything, a telecaller only
    their own reports, in store order.
- **The dashboard** (`components/Dashboard.tsx`), in module `Dashboard`:
  - the time-window filter (today, this week, this month, all), sorted newest first;
  - the six-counter summary;
  - the manager-only per-telecaller leaderboard, sorted by calls dialled;
  - the per-day chart series, oldest day first.

  The `reduce` loops that build the summary, the leaderboard and the chart are methods with loop
  invariants. Each is proved equal to a specification function: the summary to a sum over the
  reports, the leaderboard and the chart to a grouping of the reports by telecaller or by day. Properties such as "the leaderboard's columns add up to the summary" and
  "every report is counted once" are then proved about those functions.
- **The CSV export** (`handleExport`, `Dashboard.tsx:142-159`), in module `CsvExport`. It covers the
  header line, one row per report in input order, the join by newlines and the data-URI prefix.
  Rows are read back with a lenient RFC 4180-style reader, which keeps any text between a closing
  quote and the next comma. See "## Findings".

Modules `Seqs` and `Grouping` hold what these share:

- `Seqs` models `Array.prototype.filter`, a sum `reduce`, and the stable `Array.prototype.sort` as an
  insertion sort;
- `Grouping` models a `reduce` into a keyed record followed by `Object.entries` or `Object.values`:
  one group per distinct key, keys in the order they first appear.

`Types` holds the records of `types.ts`.

Modelling choices:

- A report's `date` is an ISO-8601 string in the source. Every use of it in the logic goes through
  `new Date(...)`; the one raw use is as a list key when rendering (`Dashboard.tsx:257`). The model keeps the timestamp it denotes, as an `int` of milliseconds.
- The clock and the locale are parameters:
  - the filter's window bounds;
  - the submission time `now`;
  - `dayKey`, which stands for `toLocaleDateString`;
  - `parseDay`, the chart's re-parse of a day string;
  - `fmt`, which stands for `toLocaleString`.
- The number inputs are `nat`.

On start-up (`App.tsx:25-42`) the user whose email is stored is restored before the reports are
parsed. On a parse failure the code clears all storage, including the remembered email, while the
user restored just before stays logged in for the session. `App.EodApp.Mount` states exactly that.

## Model

| member | source | states |
|---|---|---|
| Types.Stamp | App.tsx:82-86 | a submitted report carries the given time and the telecaller's name, and exactly the form's data |
| Types.StampDataOf | App.tsx:82-86 | stamping a report's own data with its own date and name gives the report back (inverse of `DataOf`) |
| UserService.FindIn | services/userService.ts:17 | `find`: a result is a directory member whose email matches; none is found exactly when no member matches |
| UserService.FindUserByEmail | services/userService.ts:15-18 | an empty email finds nobody; otherwise a found user is in the directory with a case-insensitively equal email, and nobody is found exactly when no user matches |
| UserService.FindInFirstMatch | services/userService.ts:17 | the user found is the first in directory order whose email matches |
| UserService.FindInCaseInsensitive | services/userService.ts:17 | the search gives the same answer for an email and its lower-cased form |
| UserService.FindUserCaseInsensitive | services/userService.ts:15-18 | looking up an email and its lower-cased form gives the same user |
| UserService.ToLowerIdempotent | services/userService.ts:17 | lower-casing twice is lower-casing once |
| UserService.DirectoryEmailsDistinct | services/userService.ts:4-8 | no two directory entries have case-insensitively equal emails |
| UserService.AtMostOneMatch | services/userService.ts:4-8 | at most one directory user matches any email |
| UserService.FindsEveryUser | services/userService.ts:4-18 | every directory user is found by any email equal to theirs up to case |
| Seqs.Filter | App.tsx:107 | `filter`: the result is no longer than the input and every element satisfies the predicate |
| Seqs.FilterMultiset | components/Dashboard.tsx:56-68 | a filter keeps each satisfying element exactly as often as the input holds it, and nothing else |
| Seqs.FilterIsSubsequence | App.tsx:107 | a filter keeps the input's order |
| Seqs.SortDescBy | components/Dashboard.tsx:69 | the comparator sort yields a permutation of its input, ordered by the key, largest first |
| Seqs.SortDescByStable | components/Dashboard.tsx:69 | the sort is stable: for every key, the elements carrying it keep their input order (ties in the leaderboard and equal timestamps stay as they came) |
| Seqs.SortDescByTags | components/Dashboard.tsx:121 | sorting does not change the set of names (or days) the elements carry |
| Seqs.SumOfPermutation | components/Dashboard.tsx:73-88 | a sum over a reordered sequence is the same sum |
| Grouping.KeysInOrder | components/Dashboard.tsx:119 | `Object.entries` keys: each key once, and every element's key is listed |
| Grouping.GroupedSumPartition | components/Dashboard.tsx:96-117 | per-key groups partition the input: the group sums add up to the total |
| Grouping.AccumulateStep | components/Dashboard.tsx:96-117 | one `reduce` step into a keyed record keeps "each entry is its key's group, keys in first-seen order" |
| ReportForm.AddItem | components/StoryPromptForm.tsx:20-22 | the new item is appended and the old items stay, in order |
| ReportForm.RemoveItem | components/StoryPromptForm.tsx:24-26 | no item with the id remains; every other item stays exactly as often as before |
| ReportForm.RemoveItemKeepsOrder | components/StoryPromptForm.tsx:25 | the items kept stay in their order |
| ReportForm.RemoveAbsentId | components/StoryPromptForm.tsx:25 | removing an id no item has changes nothing |
| ReportForm.RemoveUndoesAdd | components/StoryPromptForm.tsx:20-26 | removing the id of a freshly added item (with a new id) restores the list |
| ReportForm.UpdateItem | components/StoryPromptForm.tsx:28-30 | the list keeps its length; items with the id are patched, every other item is unchanged |
| ReportForm.UpdateAbsentId | components/StoryPromptForm.tsx:29 | updating an id no item has changes nothing |
| ReportForm.UpdateKeepsIds | components/StoryPromptForm.tsx:29 | a field update keeps every item's id |
| ReportForm.UpdateIdempotent | components/StoryPromptForm.tsx:29 | setting a field to a value twice is setting it once |
| ReportForm.RemoveAfterUpdate | components/StoryPromptForm.tsx:24-30 | removing an item after editing it leaves the same list as removing it unedited |
| ReportForm.SetVisitField | components/StoryPromptForm.tsx:67-69 | `{ ...item, [field]: value }` on a scheduled visit: that field takes the value, the id and the other fields stay |
| ReportForm.SetCompletedField | components/StoryPromptForm.tsx:85-87 | the same for a completed visit, whose status also stays |
| ReportForm.SetCompletedStatus | components/StoryPromptForm.tsx:90 | the status select sets the status and keeps the id and every text field |
| ReportForm.SetLeadField | components/StoryPromptForm.tsx:109-111 | the same for a lead's three fields |
| ReportForm.EodReportForm.constructor | components/StoryPromptForm.tsx:11-17 | the form starts with an empty firm, zero counts and empty lists |
| ReportForm.EodReportForm.SetCpFirmDialingFor | components/StoryPromptForm.tsx:50 | only the firm changes |
| ReportForm.EodReportForm.SetCallsDialed | components/StoryPromptForm.tsx:52 | only the calls dialled change |
| ReportForm.EodReportForm.SetCallsConnected | components/StoryPromptForm.tsx:53 | only the calls connected change |
| ReportForm.EodReportForm.SetProjectsExplained | components/StoryPromptForm.tsx:54 | only the projects explained change |
| ReportForm.EodReportForm.AddScheduledVisit | components/StoryPromptForm.tsx:62 | a blank visit with the given id is appended to the scheduled visits; nothing else changes |
| ReportForm.EodReportForm.RemoveScheduledVisit | components/StoryPromptForm.tsx:70 | the scheduled visits lose the id; nothing else changes |
| ReportForm.EodReportForm.UpdateScheduledVisit | components/StoryPromptForm.tsx:67-69 | the visit with the id gets the field set; nothing else changes |
| ReportForm.EodReportForm.AddCompletedVisit | components/StoryPromptForm.tsx:80 | a blank completed visit with status Follow-up is appended; nothing else changes |
| ReportForm.EodReportForm.RemoveCompletedVisit | components/StoryPromptForm.tsx:94 | the completed visits lose the id; nothing else changes |
| ReportForm.EodReportForm.UpdateCompletedVisit | components/StoryPromptForm.tsx:85-87 | the completed visit with the id gets the field set; nothing else changes |
| ReportForm.EodReportForm.UpdateCompletedVisitStatus | components/StoryPromptForm.tsx:90 | the completed visit with the id gets the status; nothing else changes |
| ReportForm.EodReportForm.AddLead | components/StoryPromptForm.tsx:104 | a blank lead with the given id is appended; nothing else changes |
| ReportForm.EodReportForm.RemoveLead | components/StoryPromptForm.tsx:112 | the leads lose the id; nothing else changes |
| ReportForm.EodReportForm.UpdateLead | components/StoryPromptForm.tsx:109-111 | the lead with the id gets the field set; nothing else changes |
| ReportForm.NewSiteVisit | components/StoryPromptForm.tsx:62 | a new scheduled visit has the given id and every text field empty |
| ReportForm.NewCompletedVisit | components/StoryPromptForm.tsx:80 | a new completed visit has the given id, status Follow-up and every text field empty |
| ReportForm.NewLead | components/StoryPromptForm.tsx:104 | a new lead has the given id and every text field empty |
| ReportForm.EodReportForm.HandleSubmit | components/StoryPromptForm.tsx:33-50 | nothing is submitted while the required firm field is empty; otherwise the submitted data is exactly the form's seven fields, with no date or author |
| Dashboard.BoundsAt | components/Dashboard.tsx:48-54 | today is the given midnight; the week starts `weekday` days earlier (Sunday first), the month `dayOfMonth - 1` days earlier, both no later than today |
| Dashboard.InWindow | components/Dashboard.tsx:58-68 | the window predicate: on or after today's midnight, the week's start or the month's start; `'all'` admits every report |
| Dashboard.FilteredReports | components/Dashboard.tsx:47-70 | newest first; only reports inside the window; each report of the window kept as often as the input holds it |
| Dashboard.AllKeepsEveryReport | components/Dashboard.tsx:65-69 | under `'all'` the list is the whole input, only reordered |
| Dashboard.TodayWithinWeekAndMonth | components/Dashboard.tsx:56-68 | whatever `'today'` shows, `'week'` and `'month'` show too |
| Dashboard.TotalSnoc | components/Dashboard.tsx:73-80 | one more report adds its count to the running total |
| Dashboard.Summarize | components/Dashboard.tsx:72-89 | each of the six summary counters is the total of that quantity over the filtered reports; all zero for none |
| Dashboard.TotalOfFiltered | components/Dashboard.tsx:69-89 | the summary does not depend on the newest-first ordering |
| Dashboard.TotalOfAll | components/Dashboard.tsx:65-89 | under `'all'` the summary totals every report |
| Dashboard.FilterTotalAtMost | components/Dashboard.tsx:56-89 | filtering never raises a total |
| Dashboard.FilterNarrower | components/Dashboard.tsx:56-68 | filtering by a wider window and then a narrower one is filtering by the narrower one |
| Dashboard.TodayTotalsAtMost | components/Dashboard.tsx:56-89 | today's totals are at most the week's and the month's |
| Dashboard.Leaderboard | components/Dashboard.tsx:96-121 | the per-name grouping of the filtered reports in first-seen order, sorted by calls dialled, largest first |
| Dashboard.StatOfSnoc | components/Dashboard.tsx:109-115 | a telecaller's entry after one more report is the entry before, grown by that report |
| Dashboard.TelecallerStats | components/Dashboard.tsx:91-122 | no leaderboard unless the role is manager; for a manager exactly `Leaderboard`, the per-name grouping sorted by calls dialled |
| Dashboard.StatStep | components/Dashboard.tsx:96-117 | one step of the per-name `reduce` keeps each entry equal to the totals of its name's reports |
| Dashboard.AccumulateStats | components/Dashboard.tsx:96-117 | after the `reduce`, the record holds one entry per name, in first-seen order, each the totals of that name's reports |
| Dashboard.EntriesAreRows | components/Dashboard.tsx:119-121 | `Object.entries`, spread and sort of that record give the leaderboard |
| Dashboard.LeaderboardSorted | components/Dashboard.tsx:121 | rows are ordered by calls dialled, largest first |
| Dashboard.LeaderboardNamesDistinct | components/Dashboard.tsx:96-120 | each telecaller appears in one row only |
| Dashboard.LeaderboardRowsAreGroups | components/Dashboard.tsx:96-120 | each row holds the totals of exactly that telecaller's reports |
| Dashboard.LeaderboardNames | components/Dashboard.tsx:96-120 | the rows' names are exactly the names on the filtered reports |
| Dashboard.LeaderboardTotals | components/Dashboard.tsx:91-122 | each leaderboard column adds up to the matching summary total |
| Dashboard.LeaderboardCountsEveryReport | components/Dashboard.tsx:115 | the report counts add up to the number of filtered reports |
| Dashboard.Chart | components/Dashboard.tsx:128-139 | the per-day grouping of the filtered reports, sorted by the re-parsed day, earliest first |
| Dashboard.PointOfSnoc | components/Dashboard.tsx:133-135 | a day's point after one more report is the point before, grown by that report |
| Dashboard.ChartData | components/Dashboard.tsx:124-140 | the series is exactly `Chart`, the per-day grouping sorted by day |
| Dashboard.PointStep | components/Dashboard.tsx:128-137 | one step of the per-day `reduce` keeps each point equal to the totals of its day's reports |
| Dashboard.AccumulatePoints | components/Dashboard.tsx:128-137 | after the `reduce`, one point per day, in first-seen order, each the totals of that day's reports |
| Dashboard.ValuesAreRows | components/Dashboard.tsx:139 | `Object.values` sorted by day gives the chart |
| Dashboard.ChartAscending | components/Dashboard.tsx:139 | points go from the earliest day to the latest |
| Dashboard.ChartOnePointPerDay | components/Dashboard.tsx:128-137 | one point per day, each holding the totals of that day's reports |
| Dashboard.ChartDays | components/Dashboard.tsx:128-139 | the chart's days are exactly the days of the filtered reports |
| Dashboard.ChartTotals | components/Dashboard.tsx:124-140 | each charted column adds up to the matching summary total |
| CsvExport.SplitJoin | components/Dashboard.tsx:157-159 | splitting a join at its separator gives the parts back when no part holds the separator |
| CsvExport.NatToString | components/Dashboard.tsx:151-156 | a count is written as decimal digits without leading zero |
| CsvExport.ParseNatToString | components/Dashboard.tsx:151-156 | reading a written count gives the count back |
| CsvExport.HeadersNoComma | components/Dashboard.tsx:143-146 | nine column headers, none containing a comma |
| CsvExport.HeaderCells | components/Dashboard.tsx:143-146 | the header line splits, and parses as a CSV record, into the nine headers |
| CsvExport.RowCounts | components/Dashboard.tsx:151-156 | the six count cells read back as the three counters and the three list lengths |
| CsvExport.Quoted | components/Dashboard.tsx:149-150 | a quoted cell is the text, unchanged and with no quote doubled, between an opening and a closing `"` |
| CsvExport.Cells | components/Dashboard.tsx:147-157 | the nine cells of a row: the formatted date first, then the name and the firm each `Quoted` verbatim, then the six counts as decimal digits |
| CsvExport.Row | components/Dashboard.tsx:147-157 | one row as written: the cells joined by commas |
| CsvExport.Csv | components/Dashboard.tsx:143-159 | the file as written: the header line, then one row per report of the unfiltered list, joined by newlines |
| CsvExport.RowReadsBack | components/Dashboard.tsx:147-157 | a row as written parses into its nine values when the date holds no comma or quote and the name and firm hold no quote (commas in them are protected by the quotes) |
| CsvExport.DateCommaBreaksRow | components/Dashboard.tsx:148 | a row as written whose formatted date holds a comma does not read back: the first field is not the date |
| CsvExport.FirmQuoteBreaksRow | components/Dashboard.tsx:150 | a row as written whose firm holds a quote does not read back: the undoubled quote ends the field early and the third field is not the firm |
| CsvExport.EscapedRowReadsBack | components/Dashboard.tsx:147-157 | every escaped row parses into its nine values, whatever the text |
| CsvExport.CsvLines | components/Dashboard.tsx:159 | the CSV text splits into the header line followed by one row per report, in input order |
| CsvExport.ExportLines | components/Dashboard.tsx:159 | the exported content is the data-URI prefix followed by the header line and one escaped row per report |
| UserService.Users | services/userService.ts:4-8 | the directory holds three users, none with an empty email, at least one manager and one telecaller |
| App.ReportsForDashboard | App.tsx:105-107 | the reports a viewer's dashboard is given: never more than the store, and for a telecaller only reports with their name |
| App.Content | App.tsx:102-126 | the screen shown: the login screen exactly when nobody is logged in, nothing on the summary view without a current report, the managers' notice exactly for a manager on the form view |
| App.ManagerSeesAll | App.tsx:105-106 | a manager's dashboard gets the whole store |
| App.TelecallerSeesOwn | App.tsx:105-107 | a telecaller's dashboard gets exactly the reports with their name, each as often as stored, in store order |
| App.SubmittedReportShown | App.tsx:87 | a report a telecaller submits appears at the end of their dashboard list |
| App.FormOnlyForTelecallers | App.tsx:102-126 | the report form is rendered exactly when a telecaller is logged in on the form view |
| App.DashboardGetsVisibleReports | App.tsx:105-113 | the dashboard is only rendered on the dashboard view, given the viewer's visible reports and role |
| App.EodApp.Mount | App.tsx:13-60 | start-up: the stored email's user is restored, the stored reports loaded (dashboard view if any), and malformed reports clear storage while the restored user stays |
| App.EodApp.Login | App.tsx:62-70 | the user is logged in and remembered; a manager lands on the dashboard, a telecaller on the form; reports untouched |
| App.EodApp.Logout | App.tsx:72-75 | user and remembered email dropped; everything else unchanged; the login screen shows |
| App.EodApp.SubmitReport | App.tsx:77-90 | accepted exactly when a telecaller is logged in; then the stamped report is appended, stored, current and summarised; otherwise nothing changes |
| App.EodApp.ShowForm | App.tsx:92-95 | form view, no current report; nothing else changes |
| App.EodApp.ShowDashboard | App.tsx:97-100 | dashboard view, no current report; nothing else changes |
| App.EodApp.NeverBlank | App.tsx:109-111 | in a valid state the summary view always shows the last submitted report, never an empty screen |

## Left out

- Browser storage and JSON are abstract. A stored report list is `Parsed(reports)` or `Malformed`.
  - An empty stored string counts as absent, as the source's truthiness test treats it.
  - JSON that parses but is not an array of reports is not modelled.
  - The persist effect's write failures are not modelled.
- `App.EodApp.Mount` does not model React's ordering of the mount effects. The persist effect's
  first run (`App.tsx:54-60`) comes in the same commit as the load and still sees the initial empty
  list, so it writes `[]`. That transient write is not modelled. `Mount` states the storage content
  after the re-render, when the persist effect has written the loaded reports back.
- The splash-screen timer, the `Login` component, `alert` and `console.error` are not modelled. The
  refused submit's notice is the `false` result of `SubmitReport`.
- Rendering is not modelled beyond `App.Content`, which names the screen: the JSX, the charts, the
  stat cards, the summary card and the dashboard's "No Reports Yet" message.
- The clock and the locale are parameters, not computed: `new Date()`, `toLocaleDateString`,
  `toLocaleString`, `toISOString`, and the chart's re-parse of a day string.
  - `Dashboard.BoundsAt` counts days as 24 hours, so a daylight-saving change inside the week or the
    month is not modelled.
  - A day string that the chart's `new Date` cannot parse (NaN in the comparator) is not modelled.
- The browser's constraint validation is modelled only for the `required` firm field, as
  `ReportForm.EodReportForm.HandleSubmit` returning `None`. The `min="0"` of the number inputs is
  covered by counts being `nat`.
- JavaScript numbers are not modelled. Counts are `nat`, so `Number("")`, negative, fractional and
  NaN inputs to the number fields are not covered.
- `toLowerCase` is modelled on ASCII letters only.
- In `Object.entries` and `Object.values` the model lists keys in first-insertion order.
  - JavaScript lists integer-like keys (a telecaller named "42") before the others; that is not
    modelled.
  - A name equal to an inherited property (`constructor`, `__proto__`) is treated like any other name.
- `crypto.randomUUID` is not modelled. Item ids are parameters, and `ReportForm.RemoveUndoesAdd`
  assumes the new id is fresh.
- `encodeURI`, the download link and the file name are not modelled. `CsvExport.WrittenExportContent`
  (as the code builds it) and `CsvExport.ExportContent` (corrected) are the text before URI encoding.
- The Gemini calls (`services/geminiService.ts`, `components/AIFeature.tsx`, `components/StoryDisplay.tsx`), the quote service and the presentational
  components are not part of this model.

## Findings

| source | as written | input that shows it | evidently intended | confidence | as-written member | corrected member |
|---|---|---|---|---|---|---|
| components/Dashboard.tsx:148 | the date cell is `toLocaleString()` unquoted | a report dated 2 January 2026 09:00 in the en-US locale: the date cell `1/2/2026, 9:00:00 AM` holds a comma, so the row reads back as ten fields and the first is `1/2/2026` | every row reads back as the nine values under the nine headers | not executed | CsvExport.DateCommaBreaksRow | CsvExport.EscapedRowReadsBack |
| components/Dashboard.tsx:149-150 | the name and firm are wrapped in quotes without doubling inner quotes | a firm `Acme "Gold`: the cell `"Acme "Gold"` reads back as `Acme Gold"`, so the third field is not the firm | every row reads back as the nine values under the nine headers | not executed | CsvExport.FirmQuoteBreaksRow | CsvExport.EscapedRowReadsBack |

The corrected row, `CsvExport.EscapedRow`, quotes every cell and doubles every quote inside it, as
section 2 of RFC 4180 prescribes. `CsvExport.ExportContent` is built from the corrected rows.
`CsvExport.Row` keeps the code as written, and `CsvExport.RowReadsBack` states when it is still
read back correctly.
