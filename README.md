# ExpensO core, modelled in Dafny

ExpensO is a small expense tracker. This project models its business layer
and its store:

- **Aggregation and filtering** (`utils/expenseUtils.ts`):
  - range summaries and the dashboard's three summaries;
  - the per-category breakdown, with percentage shares and fallback icon and colour;
  - the category filter, the case-insensitive search and the stable sort by date or amount;
  - the chart projection.
- **Date helpers** (`utils/dateUtils.ts`): the inclusive range test, the today / this-week / this-month ranges around an injected `now`, and the day bucketing `groupExpensesByDate`.
- **Monthly report** (`utils/exportUtils.ts`): the month filter and its totals (`getExportData`), the CSV text (`generateCSVContent`), the file name, and the outcome of `exportExpensesToExcel`.
- **Device store** (`storage/asyncStorage.ts`): two JSON lists under the keys `expenses` and `categories`, with their read, save, upsert, delete, clear and seeding operations.

## Modules

| module | role |
|---|---|
| `Collections` | Generic sequence functions: `Filter`, `SumOf`, `FindIndex`/`Find`, `DistinctKeys` (first-occurrence key order), `WithKey` (one key's bucket), `Accumulate` (a dictionary filled by a loop). |
| `Sorting` | The result of a stable `Array.prototype.sort` (ECMAScript 2019, section 22.1.3.27) with a subtracting comparator, plus an in-place insertion sort proved to produce it. |
| `Types` | The records of `types.ts`. |
| `Platform` | date-fns, `Date` and `toFixed` as parameters. |
| `DateUtils`, `ExpenseUtils`, `ExportUtils`, `Storage` | One module per core file. |

## Model choices

- **Pure code and loops.**
  - Code the source writes as pure `filter`/`reduce`/`map` becomes functions.
  - Code it writes as a loop that fills a dictionary or appends to a string becomes a method with a `for` loop. This covers the `breakdown` dictionary, `grouped`, the CSV `+=` and the tally `reduce`.
  - Each method is proved against a specification function.
  - The in-place `sort` is a method on an array.
  - The store is a class with one field per key; `None` means the key holds no item.
- **Numbers and instants.**
  - Amounts are exact reals.
  - Instants are integer milliseconds, and an expense's ISO date is the instant it parses to.
  - `Math.round(x * 100) / 100` is modelled on reals: the nearest hundredth, halves rounded up.
- **Outside code.**
  - date-fns (`format`, `startOfDay`, `endOfWeek`, ...), `new Date(y, m, d)` and `toFixed` are function-valued fields of `Platform.Calendar` and `Platform.NumberFormat`.
  - Lemmas that need calendar facts require `Platform.CalendarLaws` at one instant. `Platform.CalendarLawsSatisfiable` shows these laws can be met together.
- **Clock and outcomes.**
  - Each of the three range getters calls `new Date()` for itself (`utils/dateUtils.ts:12`, `:20`, `:28`). So `getExpenseSummaries` takes three clock readings, `nowToday`, `nowWeek` and `nowMonth`, and the nesting of its summaries is stated only for readings that fall on the same day (`ExpenseUtils.SummariesNest`, with `ExpenseUtils.SummariesAcrossDays` for readings on either side of a midnight).
  - The report's "Generated on" line takes the clock reading `generatedAt`.
  - Store reads, writes and removals are given as boolean failure flags.
  - The file write and the share sheet in `exportExpensesToExcel` are given the same way.
- **Key order.** `Object.entries` is modelled as first-insertion order (`DistinctKeys`). ECMAScript 2019 (section 9.1.11.1, OrdinaryOwnPropertyKeys) lists integer-like keys first, in ascending order. The model assumes category names are not canonical integers.

## Behaviours of the code that the model records

- **Export month end.** The report's month ends at 00:00 of the month's last day, so expenses later on that day are dropped. This is listed under Findings.
- **Unsorted CSV breakdown.** The report's breakdown rows come out in first-met category order, unsorted. The dashboard breakdown is sorted by total (`ExportUtils.BreakdownRowsUnsorted`).
- **No cascade on category delete.**
  - Deleting a category does not touch the expenses. The settings screen's dialog says it does (`screens/SettingsScreen.tsx:77`).
  - The orphaned expenses then show the fallback icon and colour (`Storage.DeletedCategoryFallsBack`).
  - The precondition that category names are distinct reflects the screen's case-insensitive duplicate-name check (`screens/SettingsScreen.tsx:46`).
- **Chart labels.** `generateChartData` adds no label suffix; only the home screen appends `-idx` to bar labels (`screens/HomeScreen.tsx:110-114`). The labels are distinct anyway, because each category has one entry (`ExpenseUtils.ChartLabelsDistinct`).
- **Zero-total percentages.** The report divides by the month's total without a guard, so a zero total prints `NaN%` for a zero category sum, `Infinity%` for a positive one and `-Infinity%` for a negative one, not `0%`. The model follows the code (`ExportUtils.PercentText`). It proves that with positive amounts only numbers appear (`ExportUtils.BreakdownPercentNumeric`). The dashboard breakdown does guard, and gives 0.
- **Rounded shares.** The rounded breakdown percentages sum to 100 within 0.005 per entry (`ExpenseUtils.BreakdownRoundedSum`). They are not within a fixed 0.1. With twenty-one or fewer categories the rounded sum, a multiple of 0.01 within 0.105 of 100, is within 0.1 of 100. With twenty-two or more it can miss by more: twenty-one shares of 0.995 and one of 79.105 round to a sum of 100.11.
- **Swallowed read errors.**
  - `getExpenses` and `getCategories` swallow read errors and return `[]`.
  - So a `saveExpense` whose read fails but whose write succeeds replaces the stored list with the single new expense.
  - A `saveCategory` or `deleteExpense` in the same situation overwrites the stored list the same way.
  - `Storage.Store.SaveExpense` and its siblings state this in their postconditions.
- **Amount check.** Expenses with a positive amount are the ones the add screen lets through (`screens/AddExpenseScreen.tsx:47-56`). Lemmas that need it take it as a precondition (`ExpenseUtils.SummariesNest`, `ExportUtils.BreakdownPercentNumeric`).
- **Search example.** The search scenario uses the demo note "Lunch at Subway" (`utils/demoData.ts:17`).

## Model

| member | source | states |
|---|---|---|
| DateUtils.AdjacentRangesAdd | utils/dateUtils.ts:35-37 | For `DateUtils.IsDateInRange`, both bounds inclusive: adjacent ranges `[a, b]` and `[b + 1, c]` share no date, and the expenses of `[a, c]` number and add up to those of the two parts together. |
| DateUtils.AdjacentRangesSplit | utils/dateUtils.ts:35-37 | On expenses in date order, filtering by `[a, c]` gives the expenses of `[a, b]` followed by those of `[b + 1, c]`. |
| DateUtils.RangesAroundNow | utils/dateUtils.ts:11-33 | For `DateUtils.GetTodayRange`, `GetThisWeekRange` and `GetThisMonthRange`: the date-fns laws that `Platform.CalendarLaws` assumes, read back through the three getters. It checks the wiring (`weekStartsOn` 1, each start and end in its own slot): each range contains its reading, and at one reading today's range lies inside the week's and the month's. |
| DateUtils.GroupExpensesByDate | utils/dateUtils.ts:39-51 | Bucketing loop: the keys are the distinct day keys in first-met order, the buckets are exactly those keys, and each bucket is the sub-list of expenses with that day key in input order. |
| DateUtils.GroupingPartitions | utils/dateUtils.ts:42-48 | Every expense's day key is a key, and the expense lies in that bucket and in no other. |
| DateUtils.GroupingSizesSum | utils/dateUtils.ts:42-48 | The bucket sizes add up to the number of expenses. |
| DateUtils.SameDaySameBucket | utils/dateUtils.ts:43-47 | Two expenses with the same formatted day share a bucket. |
| DateUtils.GroupingKeepsOrder | utils/dateUtils.ts:42-47 | A bucket reads its expenses off at strictly increasing input positions and takes every position of its day, so it never re-sorts. |
| DateUtils.GroupingKeyCount | utils/dateUtils.ts:40-50 | No expenses give no keys; the number of keys is the number of distinct day keys, each listed once. |
| DateUtils.OneDayOneBucket | utils/dateUtils.ts:43-47 | Two expenses of one day at different times give a single key whose bucket holds both, in input order. |
| ExpenseUtils.CalculateExpenseSummary | utils/expenseUtils.ts:4-14 | The count never exceeds the input length, and an empty input gives total 0, count 0. |
| ExpenseUtils.SummaryIsRangeSum | utils/expenseUtils.ts:4-14 | The summary equals an independent recursive definition: the sum of amounts and the number of exactly the expenses dated in the inclusive range. |
| ExpenseUtils.SummaryOfConcat | utils/expenseUtils.ts:4-14 | The summary of two joined lists is the sum of their summaries, for total and count. |
| ExpenseUtils.SummaryMonotone | utils/expenseUtils.ts:4-14 | With non-negative amounts, a sub-range never has a larger count or total. |
| ExpenseUtils.SummariesNest | utils/expenseUtils.ts:16-26 | For `ExpenseUtils.GetExpenseSummaries`, which reads the clock once per getter: each dashboard summary is the range summary of its own reading's range; when the three readings fall on the same day and amounts are positive, today's count and total never exceed this week's or this month's. |
| ExpenseUtils.SummariesAcrossDays | utils/expenseUtils.ts:16-26 | On a calendar meeting the laws, readings on different days can put an expense in today's summary and not in this week's, so the same-day condition is needed. |
| ExpenseUtils.RoundTo2 | utils/expenseUtils.ts:48 | Rounding to hundredths moves a value by at most 0.005 and keeps non-negative values non-negative. |
| ExpenseUtils.TotalsByCategory | utils/expenseUtils.ts:36-39 | The dictionary loop: its keys are the in-range category names in first-met order, and each key's value is the sum of that category's amounts. |
| ExpenseUtils.ToEntries | utils/expenseUtils.ts:41-51 | The entries are the map callback applied to each key and its dictionary total, in key order. |
| ExpenseUtils.GetCategoryBreakdown | utils/expenseUtils.ts:28-53 | Filter, dictionary loop, map and in-place sort together produce the specification breakdown: the entries stably sorted by descending total. |
| ExpenseUtils.BreakdownOnePerCategory | utils/expenseUtils.ts:29-41 | The breakdown holds exactly one entry for each category name used by an in-range expense, and none for any other name. |
| ExpenseUtils.BreakdownTotalsSum | utils/expenseUtils.ts:29-41 | The entry totals add up to the in-range grand total. |
| ExpenseUtils.BreakdownEntries | utils/expenseUtils.ts:41-51 | Every entry is the entry its category name maps to, and that name is used by some in-range expense. |
| ExpenseUtils.BreakdownEntryOf | utils/expenseUtils.ts:41-52 | The sorted breakdown has one entry per in-range category, and the k-th first-met category's entry appears in it. |
| ExpenseUtils.BreakdownPercentages | utils/expenseUtils.ts:43-48 | An entry's total is its category's in-range sum; with a positive grand total, its percentage is the rounded share and lies within 0.005 of the exact share; otherwise the percentage is 0. |
| ExpenseUtils.RoundedSharesClose | utils/expenseUtils.ts:43-48 | Rounding each share moves their sum by at most 0.005 per entry. |
| ExpenseUtils.BreakdownSharesSumTo100 | utils/expenseUtils.ts:43-48 | With a positive grand total, the unrounded shares of the entries sum to exactly 100. |
| ExpenseUtils.BreakdownRoundedSum | utils/expenseUtils.ts:43-48 | With a positive grand total, the rounded percentages sum to 100 within 0.005 per entry. |
| ExpenseUtils.BreakdownOrder | utils/expenseUtils.ts:52 | The breakdown is non-increasing by total, and entries of equal total keep the first-met order of their categories. |
| ExpenseUtils.BreakdownDecoration | utils/expenseUtils.ts:42-50 | Icon and colour come from the first category of exactly that name, an empty value falling back to the pin and `#FFEAA7`; with no such category both are the fallbacks. |
| ExpenseUtils.BreakdownScenario | utils/expenseUtils.ts:28-53 | Food 10, Food 20, Transport 70 with no categories give Transport (70, 70%) then Food (30, 30%), both with the fallback icon and colour. |
| ExpenseUtils.ScenarioUnsorted | utils/expenseUtils.ts:36-51 | Before sorting, the same scenario's entries come in first-met order: Food, then Transport. |
| ExpenseUtils.GenerateChartData | utils/expenseUtils.ts:88-98 | One chart point per breakdown entry, in the same order, carrying its category, total and colour, with legend colour `#7F7F7F` and size 12. |
| ExpenseUtils.ChartLabelsDistinct | utils/expenseUtils.ts:88-98 | Within one chart no two points have the same name. |
| ExpenseUtils.IncludesIffOccurs | utils/expenseUtils.ts:67-68 | `includes` holds exactly when the query occurs at some position of the text. |
| ExpenseUtils.MatchesQueryIff | utils/expenseUtils.ts:64-70 | The search callback holds exactly when the lower-cased note (if any) or the lower-cased category contains the lower-cased query. |
| ExpenseUtils.FilterAndSortExpenses | utils/expenseUtils.ts:55-86 | Copy, optional filters and in-place sort together produce the filtered list stably sorted by the chosen key and order. |
| ExpenseUtils.FilterAndSortMembers | utils/expenseUtils.ts:56-70 | An expense is in the result exactly when it is in the input, has the chosen category (case-sensitive) if one is set, and passes the search if a query is set; an absent or empty option filters nothing. |
| ExpenseUtils.FilterAndSortPermutes | utils/expenseUtils.ts:56-70 | The result is a permutation of the filtered list, and of the whole input when no option is set. |
| ExpenseUtils.FilterAndSortOrder | utils/expenseUtils.ts:73-83 | The result is ascending or descending by date or amount as chosen, and expenses with equal keys keep their input order. |
| ExpenseUtils.FilterAndSortIdempotent | utils/expenseUtils.ts:55-86 | Applying the same options to the result changes nothing. |
| ExpenseUtils.FilterAndSortReverse | utils/expenseUtils.ts:73-83 | When no two kept expenses share a sort key, the descending result is the ascending result reversed. |
| ExpenseUtils.SearchIsCaseInsensitive | utils/expenseUtils.ts:64-70 | Searching "lunch" or "LUNCH" finds an expense noted "Lunch at Subway". |
| Sorting.StableSortedPermutes | utils/expenseUtils.ts:73-83 | Sorting neither adds, drops nor duplicates an element. |
| Sorting.StableSortedIsSorted | utils/expenseUtils.ts:73-83 | The sorted sequence has no element followed by one the comparator puts before it. |
| Sorting.StableSortedKeepsTies | utils/expenseUtils.ts:73-83 | For every key value, the elements carrying it come out in their input order. |
| Sorting.StableSortedUnique | utils/expenseUtils.ts:73-83 | Any ordered sequence whose elements of each key value are those of the input, in input order, is the model's sort: every stable sort gives the same result. |
| Sorting.StableSortedIdempotent | utils/expenseUtils.ts:73-83 | Sorting an already sorted sequence again changes nothing. |
| Sorting.StableSortedReverse | utils/expenseUtils.ts:73-83 | Without exact ties, the descending sort is the ascending sort reversed. |
| Sorting.StableSortedSum | utils/expenseUtils.ts:52 | Sorting does not change a sum over the elements. |
| Sorting.SortInPlace | utils/expenseUtils.ts:73-83 | The in-place insertion sort leaves the array holding the stable sort of its old contents. |
| Sorting.InsertInPlace | utils/expenseUtils.ts:73-83 | One pass moves `a[i]` into the sorted prefix where insertion puts it and leaves the rest of the array alone. |
| ExportUtils.ExportDataContents | utils/exportUtils.ts:114-138 | For `ExportUtils.GetExportData`: the export data keeps exactly the expenses dated from the month's first midnight to its last day's midnight, in input order; its totals are that interval's summary; its month name, year and categories are passed through. |
| ExportUtils.ExportDropsLastDay | utils/exportUtils.ts:22-28 | As written, an expense at the month's last millisecond is in the dashboard's month range but is not exported. |
| ExportUtils.CorrectedExportMatchesMonth | utils/exportUtils.ts:22-28 | With the month end one millisecond before the next month, the exported expenses are exactly the dashboard month's, and their totals are this month's summary. |
| ExportUtils.NatToString | utils/exportUtils.ts:75 | A count prints as a non-empty string of decimal digits with no leading zero. |
| ExportUtils.ParseNatToString | utils/exportUtils.ts:75 | The printed count reads back as the count. |
| ExportUtils.EscapeQuotesPaired | utils/exportUtils.ts:87 | Doubling the quotes leaves every quote in a pair, and collapsing the pairs gives back the note. |
| ExportUtils.QuoteFieldRoundTrip | utils/exportUtils.ts:87 | A note quoted as in section 2, rule 7, of RFC 4180 reads back as the note. |
| ExportUtils.NoteFieldRoundTrip | utils/exportUtils.ts:87 | A present, non-empty note reads back from its column; an absent or empty note leaves the column empty. |
| ExportUtils.ReplaceFirstSpaceOnlyFirst | utils/exportUtils.ts:39 | Replacing with a string pattern turns only the first space into an underscore; a name without spaces is unchanged. |
| ExportUtils.ExportFileNameShape | utils/exportUtils.ts:38-39 | A month name "January 2024" (a word, a space, the year) gives the file name "ExpensO_January_2024.csv". |
| ExportUtils.GenerateCSVContent | utils/exportUtils.ts:63-112 | The accumulated text is the report's lines, each followed by a newline: header block, expense rows, breakdown header, breakdown rows. |
| ExportUtils.WriteHeader | utils/exportUtils.ts:70-79 | The header text is the title, "Generated on", "Total Expenses", "Total Amount", a blank line and the column header, each on its own line. |
| ExportUtils.WriteExpenseRows | utils/exportUtils.ts:82-91 | The row loop writes one line per expense, in input order. |
| ExportUtils.FormatExpenseRow | utils/exportUtils.ts:83-90 | One row is date, icon-and-category, dollar amount, quoted note and timestamp, comma-separated. |
| ExportUtils.WriteBreakdownHeader | utils/exportUtils.ts:94-95 | The breakdown section opens with a blank line, "Category Breakdown:" and its column header. |
| ExportUtils.TallyByCategory | utils/exportUtils.ts:97-104 | The tally loop: its keys are the categories in first-met order, and each key holds that category's total and count. |
| ExportUtils.TallyMeaning | utils/exportUtils.ts:97-104 | The accumulated tally holds, for exactly the categories present, each one's sum of amounts and number of expenses. |
| ExportUtils.WriteBreakdownRows | utils/exportUtils.ts:106-109 | The breakdown loop writes one line per tallied category, in first-met order. |
| ExportUtils.FormatBreakdownRow | utils/exportUtils.ts:107-108 | One breakdown line is the name, dollar total, count and percentage with a percent sign. |
| ExportUtils.SplitTerminatedRoundTrip | utils/exportUtils.ts:73-109 | Lines without newlines are recovered exactly from the report text. |
| ExportUtils.CsvLayout | utils/exportUtils.ts:73-109 | The report has 9 + (expenses) + (categories) lines: the six header lines first, the three breakdown header lines after the expense rows. |
| ExportUtils.CsvExpenseLine | utils/exportUtils.ts:82-91 | Line 6 + i is the row of the i-th expense. |
| ExportUtils.CsvBreakdownLine | utils/exportUtils.ts:97-109 | Line 9 + (expenses) + j is the breakdown row of the j-th first-met category, with its tally. |
| ExportUtils.CategoryFieldCases | utils/exportUtils.ts:83-90 | With no category of that name the column is a space and the name; otherwise the first such category's icon, a space and the name. |
| ExportUtils.BreakdownTalliesPartition | utils/exportUtils.ts:97-109 | The rows' counts add up to the number of expenses and their totals to the sum of amounts; every row counts at least one expense. |
| ExportUtils.BreakdownPercentNumeric | utils/exportUtils.ts:107 | With positive amounts and the total as the sum, each percentage is printed from a share in (0, 100], never NaN or Infinity. |
| ExportUtils.BreakdownRowsUnsorted | utils/exportUtils.ts:106-109 | The report's first breakdown row is the first-met category, while the dashboard's first entry is not once a later category has a larger total. |
| ExportUtils.ExportExpensesToExcel | utils/exportUtils.ts:15-61 | When write and share succeed, the outcome shares the report of exactly the export data's expenses and totals under `ExpensO_<month>.csv` in the documents directory; any failure, including sharing being unavailable, becomes "Failed to export expenses". |
| Storage.WithoutCategoryMembers | storage/asyncStorage.ts:104-108 | For `Storage.WithoutCategory`: deleting removes exactly the categories with that id, keeps the rest, and deleting again changes nothing. |
| Storage.WithoutExpenseMembers | storage/asyncStorage.ts:55-59 | For `Storage.WithoutExpense`: deleting removes exactly the expenses with that id, keeps the rest, and deleting again changes nothing. |
| Storage.SaveThenDeleteExpense | storage/asyncStorage.ts:34-59 | Saving an expense with a fresh id and deleting that id gives back the earlier list. |
| Storage.UpsertShape | storage/asyncStorage.ts:79-85 | For `Storage.Upsert`: saving a category replaces the first one with its id at that index, keeping every other position, or appends when none has its id. |
| Storage.UpsertIdempotent | storage/asyncStorage.ts:76-87 | Saving the same category twice is saving it once. |
| Storage.EditsKeepIdsDistinct | storage/asyncStorage.ts:76-113 | Saving and deleting categories keep category ids distinct. |
| Storage.DeletedCategoryFallsBack | storage/asyncStorage.ts:104-113 | After a category is deleted, breakdown entries of expenses still using its name show the fallback icon and colour. |
| Storage.DefaultCategoriesWellFormed | storage/asyncStorage.ts:10-16 | The five defaults have distinct ids and names, and every icon and colour is set. |
| Storage.DefaultOtherIsFallback | storage/asyncStorage.ts:10-16 | The default "Other" category carries exactly the breakdown's fallback icon and colour. |
| Storage.Store.constructor | storage/asyncStorage.ts:4-7 | A fresh store holds neither key. |
| Storage.Store.GetExpenses | storage/asyncStorage.ts:45-53 | The stored expenses, `[]` when the key is absent or the read fails. |
| Storage.Store.GetCategories | storage/asyncStorage.ts:94-102 | The stored categories, `[]` when the key is absent or the read fails. |
| Storage.Store.SaveExpense | storage/asyncStorage.ts:34-43 | A good write stores what was read plus the new expense at the end (no id check), with `[]` read on failure; a failed write keeps the item and reports failure; categories are untouched. |
| Storage.Store.DeleteExpense | storage/asyncStorage.ts:55-64 | A good write stores what was read without that id's expenses; a failed write keeps the item and reports failure; categories are untouched. |
| Storage.Store.ClearAllExpenses | storage/asyncStorage.ts:66-73 | Removes only the expenses item, or reports failure with nothing changed. |
| Storage.Store.SaveCategory | storage/asyncStorage.ts:76-92 | A good write stores the upsert of the category into what was read; a failed write keeps the item and reports failure; expenses are untouched. |
| Storage.Store.DeleteCategory | storage/asyncStorage.ts:104-113 | A good write stores what was read without that id's categories; a failed write keeps the item and reports failure; expenses are not touched. |
| Storage.Store.ClearAllData | storage/asyncStorage.ts:115-122 | Removes both items together, or reports failure with nothing changed. |
| Storage.Store.InitializeDefaultCategories | storage/asyncStorage.ts:19-31 | An empty read stores the defaults (unless the write fails) and returns them either way; otherwise the read list is returned and nothing changes. |

## Left out

- Storage I/O: the AsyncStorage backend, JSON encoding (taken as the identity on stored values), `async`/`await` interleaving and `console.error` logging are not modelled; each store call runs to completion before the next.
- Storage.Store.ClearAllData: `multiRemove` is modelled as all-or-nothing; a backend that removes one key and then fails is not modelled.
- Calendar and formatting: date-fns and `Date` are parameters, not implementations; `formatDate`, `formatTime` and `getRelativeDateLabel` are not part of this model; time zones are whatever the injected functions do.
- Number formatting: `toFixed(2)` and `toFixed(1)` are an injected function; JavaScript's binary floating point is modelled as exact reals, so rounding drift in sums and in the sort comparator's subtraction is not captured.
- ExpenseUtils.ToLower: lower-cases ASCII letters only, because Unicode case mapping is not modelled.
- Plain-object keys: category names that are integer-like, which `Object.entries` would list first, and any name that `Object.prototype` already has (`__proto__`, `constructor`, `toString`, `valueOf`, `hasOwnProperty`, ...) are outside the model. For the inherited names, `breakdown[c] || 0` (`utils/expenseUtils.ts:38`) reads the inherited function, and `!acc[c]` (`utils/exportUtils.ts:98-102`) is false, so the update lands on the prototype and the row is missing from `Object.entries`. So the sums of `ExpenseUtils.TotalsByCategory` and `ExportUtils.BreakdownTalliesPartition` hold for the program only when no category has such a name.
- The file write and `Sharing` calls in `exportExpensesToExcel` are outcomes passed in as booleans, and the documents directory is a parameter.
- ExportUtils.GetExportData and ExportUtils.ExportExpensesToExcel keep the month end as the code writes it (see Findings); the corrected filter is `ExportUtils.CorrectedMonthExpenses`.
- Screen-level rules (amount > 0, case-insensitive duplicate names, the `-idx` bar suffix, the sort-order toggle) are used only as lemma preconditions or notes; the screens, components and demo data are not modelled.
- Random colours and generated ids are not modelled; ids are given strings.

## Findings

| source | as written | input that shows it | evidently intended | confidence | as-written member | corrected member |
|---|---|---|---|---|---|---|
| utils/exportUtils.ts:23 | The month end is `new Date(y, m + 1, 0)`, which is 00:00 on the month's last day, and the filter keeps `date <= monthEnd` (the same bound again at line 120). | An expense dated 31 January at 23:59:59.999, or any time on the last day after midnight. | The whole last day belongs to the month, as for the dashboard's month range: the end is the millisecond before day 1 of the next month. | not executed | ExportUtils.ExportDropsLastDay | ExportUtils.CorrectedExportMatchesMonth |
