/**
 * The monthly report builder (utils/exportUtils.ts): the month filter and
 * totals, the CSV text, the file name, and the export outcome. Writing and
 * sharing the file are outcomes passed in as booleans.
 */
module ExportUtils {
  import opened Collections
  import opened Types
  import opened Platform
  import opened DateUtils
  import opened Sorting
  import opened ExpenseUtils

  const MONTH_FORMAT: string := "MMMM yyyy"
  const GENERATED_FORMAT: string := "MMMM dd, yyyy HH:mm"
  const ROW_DATE_FORMAT: string := "MM/dd/yyyy"
  const ROW_TIMESTAMP_FORMAT: string := "MM/dd/yyyy HH:mm"
  const EXPORT_ERROR: string := "Failed to export expenses"

  // ---------------------------------------------------------------------
  // The month filter
  // ---------------------------------------------------------------------

  /** `new Date(year, month, 1)`: midnight starting the month of `month`. */
  function ExportMonthStart(cal: Calendar, month: int): int
  {
    cal.makeDate(cal.fullYear(month), cal.month(month), 1)
  }

  /** `new Date(year, month + 1, 0)`: midnight starting the LAST DAY of the month, as the source writes it. */
  function ExportMonthEnd(cal: Calendar, month: int): int
  {
    cal.makeDate(cal.fullYear(month), cal.month(month) + 1, 0)
  }

  /** The expenses with `monthStart <= date <= monthEnd`, in input order. */
  function MonthExpenses(cal: Calendar, expenses: seq<Expense>, month: int): seq<Expense>
  {
    Filter(expenses, InRangeOf(ExportMonthStart(cal, month), ExportMonthEnd(cal, month)))
  }

  datatype ExportData = ExportData(
    month: string,
    year: int,
    totalExpenses: nat,
    totalAmount: real,
    expenses: seq<Expense>,
    categories: seq<Category>)

  function GetExportData(cal: Calendar, expenses: seq<Expense>, categories: seq<Category>, month: int): ExportData
  {
    var monthExpenses := MonthExpenses(cal, expenses, month);
    ExportData(
      cal.format(month, MONTH_FORMAT),
      cal.fullYear(month),
      |monthExpenses|,
      SumOf(monthExpenses, AmountOf),
      monthExpenses,
      categories)
  }

  /**
   * The export keeps exactly the expenses dated from the month's first
   * midnight to its last day's midnight, in input order; its totals are the
   * range summary of that interval; the name, year and categories are passed
   * through.
   */
  lemma ExportDataContents(cal: Calendar, expenses: seq<Expense>, categories: seq<Category>, month: int)
    returns (idx: seq<nat>)
    requires CalendarLaws(cal, month)
    ensures var d := GetExportData(cal, expenses, categories, month);
      && (forall e :: e in d.expenses <==>
           e in expenses && cal.startOfMonth(month) <= e.date <= cal.startOfDay(cal.endOfMonth(month)))
      && |idx| == |d.expenses|
      && (forall j :: 0 <= j < |idx| ==> idx[j] < |expenses| && d.expenses[j] == expenses[idx[j]])
      && (forall j, k :: 0 <= j < k < |idx| ==> idx[j] < idx[k])
      && ExpenseSummary(d.totalAmount, d.totalExpenses) ==
         CalculateExpenseSummary(expenses, ExportMonthStart(cal, month), ExportMonthEnd(cal, month))
      && d.month == cal.format(month, "MMMM yyyy")
      && d.year == cal.fullYear(month)
      && d.categories == categories
  {
    var p := InRangeOf(ExportMonthStart(cal, month), ExportMonthEnd(cal, month));
    FilterMembers(expenses, p);
    idx := FilterIndices(expenses, p);
  }

  /**
   * As written, the month end drops the last day after midnight: the month's
   * final millisecond lies in the dashboard's month range but an expense
   * dated then is not exported.
   */
  lemma ExportDropsLastDay(cal: Calendar, month: int, e: Expense)
    requires CalendarLaws(cal, month)
    requires e.date == cal.endOfMonth(month)
    ensures IsDateInRange(e.date, GetThisMonthRange(cal, month).start, GetThisMonthRange(cal, month).end)
    ensures ExportMonthEnd(cal, month) < e.date
    ensures MonthExpenses(cal, [e], month) == []
    ensures CalculateExpenseSummary([e], cal.startOfMonth(month), cal.endOfMonth(month)).count == 1
  {
    assert [e][..0] == [];
  }

  /** The intended month end: one millisecond before day 1 of the next month. */
  function CorrectedMonthEnd(cal: Calendar, month: int): int
  {
    cal.makeDate(cal.fullYear(month), cal.month(month) + 1, 1) - 1
  }

  function CorrectedMonthExpenses(cal: Calendar, expenses: seq<Expense>, month: int): seq<Expense>
  {
    Filter(expenses, InRangeOf(ExportMonthStart(cal, month), CorrectedMonthEnd(cal, month)))
  }

  /**
   * With the corrected end the export's month is exactly the dashboard's
   * month range, so its totals equal this month's summary.
   */
  lemma CorrectedExportMatchesMonth(cal: Calendar, expenses: seq<Expense>, month: int)
    requires CalendarLaws(cal, month)
    ensures CorrectedMonthExpenses(cal, expenses, month) ==
      InRange(expenses, GetThisMonthRange(cal, month).start, GetThisMonthRange(cal, month).end)
    ensures var m := CorrectedMonthExpenses(cal, expenses, month);
      ExpenseSummary(SumOf(m, AmountOf), |m|) == GetExpenseSummaries(cal, month, month, month, expenses).thisMonth
  {
    assert ExportMonthStart(cal, month) == cal.startOfMonth(month);
    assert CorrectedMonthEnd(cal, month) == cal.endOfMonth(month);
  }

  // ---------------------------------------------------------------------
  // Text helpers
  // ---------------------------------------------------------------------

  function DigitChar(d: nat): char
    requires d < 10
  {
    ('0' as int + d) as char
  }

  /** A count in decimal, as template interpolation prints a non-negative integer. */
  function NatToString(n: nat): (s: string)
    ensures |s| >= 1
    ensures forall i :: 0 <= i < |s| ==> '0' <= s[i] <= '9'
    ensures s[0] == '0' ==> n == 0
    decreases n
  {
    if n < 10 then [DigitChar(n)] else NatToString(n / 10) + [DigitChar(n % 10)]
  }

  /** Reads a string of decimal digits. */
  function ParseDigits(s: string): int
  {
    if s == [] then 0 else 10 * ParseDigits(s[..|s| - 1]) + (s[|s| - 1] as int - '0' as int)
  }

  /** The printed count reads back as the count. */
  lemma {:induction false} ParseNatToString(n: nat)
    ensures ParseDigits(NatToString(n)) == n
    decreases n
  {
    if n >= 10 {
      ParseNatToString(n / 10);
      var s := NatToString(n);
      assert s[..|s| - 1] == NatToString(n / 10);
    }
  }

  /** `s.replace(/"/g, '""')`: every double quote doubled. */
  function EscapeQuotes(s: string): (r: string)
    ensures |r| >= |s|
  {
    if s == [] then []
    else (if s[0] == '"' then "\"\"" else [s[0]]) + EscapeQuotes(s[1..])
  }

  /** Every double quote in `r` is one of an adjacent pair. */
  predicate QuotesPaired(r: string)
  {
    if r == [] then true
    else if r[0] == '"' then |r| >= 2 && r[1] == '"' && QuotesPaired(r[2..])
    else QuotesPaired(r[1..])
  }

  /** Collapses each pair of double quotes to one. */
  function UnescapeQuotes(r: string): string
  {
    if r == [] then []
    else if |r| >= 2 && r[0] == '"' && r[1] == '"' then "\"" + UnescapeQuotes(r[2..])
    else [r[0]] + UnescapeQuotes(r[1..])
  }

  /** A field enclosed in double quotes with inner quotes doubled (section 2, rule 7, of RFC 4180). */
  function QuoteField(s: string): string
  {
    "\"" + EscapeQuotes(s) + "\""
  }

  /** Reads an RFC 4180 quoted field back, if it is one. */
  function ParseQuotedField(f: string): Option<string>
  {
    if |f| >= 2 && f[0] == '"' && f[|f| - 1] == '"' && QuotesPaired(f[1..|f| - 1]) then
      Some(UnescapeQuotes(f[1..|f| - 1]))
    else None
  }

  lemma {:induction false} EscapeQuotesPaired(s: string)
    ensures QuotesPaired(EscapeQuotes(s))
    ensures UnescapeQuotes(EscapeQuotes(s)) == s
  {
    if s != [] {
      EscapeQuotesPaired(s[1..]);
      var rest := EscapeQuotes(s[1..]);
      if s[0] == '"' {
        assert ("\"\"" + rest)[2..] == rest;
      } else {
        assert ([s[0]] + rest)[1..] == rest;
      }
    }
  }

  /** Quoting a note and reading the field back gives the note. */
  lemma QuoteFieldRoundTrip(s: string)
    ensures ParseQuotedField(QuoteField(s)) == Some(s)
  {
    EscapeQuotesPaired(s);
    var f := QuoteField(s);
    assert f[1..|f| - 1] == EscapeQuotes(s);
  }

  /** `s.replace(' ', '_')` with a string pattern: only the first space. */
  function ReplaceFirstSpace(s: string): (r: string)
    ensures |r| == |s|
  {
    if s == [] then []
    else if s[0] == ' ' then "_" + s[1..]
    else [s[0]] + ReplaceFirstSpace(s[1..])
  }

  function IsSpace(c: char): bool { c == ' ' }

  /** Only the first space becomes an underscore; a name without spaces is unchanged. */
  lemma ReplaceFirstSpaceOnlyFirst(s: string)
    ensures var i, r := FindIndex(s, IsSpace), ReplaceFirstSpace(s);
      if i == -1 then r == s else r == s[..i] + "_" + s[i + 1..]
  {
    if FindIndex(s, IsSpace) == -1 {
      ReplaceFirstSpaceNone(s);
    } else {
      ReplaceFirstSpaceFirst(s);
    }
  }

  lemma {:induction false} ReplaceFirstSpaceNone(s: string)
    requires FindIndex(s, IsSpace) == -1
    ensures ReplaceFirstSpace(s) == s
  {
    if s != [] {
      assert s[0] != ' ';
      ReplaceFirstSpaceNone(s[1..]);
    }
  }

  lemma {:induction false} ReplaceFirstSpaceFirst(s: string)
    requires FindIndex(s, IsSpace) != -1
    ensures var i := FindIndex(s, IsSpace); ReplaceFirstSpace(s) == s[..i] + "_" + s[i + 1..]
  {
    if s[0] == ' ' {
      assert s[..0] == [];
    } else {
      var t := s[1..];
      assert !IsSpace(s[0]);
      ReplaceFirstSpaceFirst(t);
      var i := FindIndex(t, IsSpace);
      assert FindIndex(s, IsSpace) == i + 1;
      assert ReplaceFirstSpace(s) == [s[0]] + ReplaceFirstSpace(t);
      assert s[..i + 1] == [s[0]] + t[..i];
      assert s[i + 2..] == t[i + 1..];
    }
  }


  /** `ExpensO_${monthName.replace(' ', '_')}.csv` */
  function ExportFileName(cal: Calendar, month: int): string
  {
    "ExpensO_" + ReplaceFirstSpace(cal.format(month, MONTH_FORMAT)) + ".csv"
  }

  lemma {:induction false} ReplaceFirstSpaceAt(a: string, b: string)
    requires forall k :: 0 <= k < |a| ==> a[k] != ' '
    ensures ReplaceFirstSpace(a + " " + b) == a + "_" + b
  {
    if a != [] {
      ReplaceFirstSpaceAt(a[1..], b);
      assert (a + " " + b)[1..] == a[1..] + " " + b;
    }
  }

  /**
   * A month name such as "January 2024" (a word, a space, the year) gives
   * the file name "ExpensO_January_2024.csv": the first space becomes an
   * underscore, the rest is kept.
   */
  lemma ExportFileNameShape(cal: Calendar, month: int, name: string, year: string)
    requires forall k :: 0 <= k < |name| ==> name[k] != ' '
    requires cal.format(month, "MMMM yyyy") == name + " " + year
    ensures ExportFileName(cal, month) == "ExpensO_" + name + "_" + year + ".csv"
  {
    ReplaceFirstSpaceAt(name, year);
  }

  // ---------------------------------------------------------------------
  // The CSV text
  // ---------------------------------------------------------------------

  /** Each line followed by a newline, all joined. */
  function Terminated(lines: seq<string>): string
  {
    if lines == [] then "" else Terminated(lines[..|lines| - 1]) + lines[|lines| - 1] + "\n"
  }

  lemma TerminatedSnoc(lines: seq<string>, line: string)
    ensures Terminated(lines + [line]) == Terminated(lines) + line + "\n"
  {
    assert (lines + [line])[..|lines|] == lines;
  }

  lemma TerminatedConcat4(a: seq<string>, b: seq<string>, c: seq<string>, d: seq<string>)
    ensures Terminated(a + b + c + d) == Terminated(a) + Terminated(b) + Terminated(c) + Terminated(d)
  {
    TerminatedConcat(a, b);
    TerminatedConcat(a + b, c);
    TerminatedConcat(a + b + c, d);
  }

  lemma {:induction false} TerminatedConcat(a: seq<string>, b: seq<string>)
    ensures Terminated(a + b) == Terminated(a) + Terminated(b)
    decreases |b|
  {
    if b == [] {
      assert a + b == a;
    } else {
      var b' := b[..|b| - 1];
      assert (a + b)[..|a + b| - 1] == a + b';
      TerminatedConcat(a, b');
    }
  }

  /** The category column: the matching category's icon (empty when none matches), a space, the name. */
  function CategoryField(categories: seq<Category>, e: Expense): string
  {
    var category := Find(categories, NameIs(e.category));
    var categoryIcon := if category.Some? then category.value.icon else "";
    categoryIcon + " " + e.category
  }

  /** The note column: a present, non-empty note quoted, otherwise empty. */
  function NoteField(e: Expense): string
  {
    if Truthy(e.note) then QuoteField(e.note.value) else ""
  }

  function ExpenseRow(fmt: NumberFormat, cal: Calendar, categories: seq<Category>, e: Expense): string
  {
    cal.format(e.date, ROW_DATE_FORMAT) + "," + CategoryField(categories, e) + ",$" + fmt.toFixed(e.amount, 2)
      + "," + NoteField(e) + "," + cal.format(e.timestamp, ROW_TIMESTAMP_FORMAT)
  }

  function ExpenseRows(fmt: NumberFormat, cal: Calendar, categories: seq<Category>, expenses: seq<Expense>): (r: seq<string>)
    ensures |r| == |expenses|
  {
    seq(|expenses|, i requires 0 <= i < |expenses| => ExpenseRow(fmt, cal, categories, expenses[i]))
  }

  /** One category's line of the report's breakdown: its total and its number of expenses. */
  datatype Tally = Tally(total: real, count: nat)

  /**
   * `((total / totalAmount) * 100).toFixed(1)`; dividing by a zero total
   * gives JavaScript's `NaN` or `Infinity`, which print as such.
   */
  function PercentText(fmt: NumberFormat, total: real, totalAmount: real): string
  {
    if totalAmount != 0.0 then fmt.toFixed((total / totalAmount) * 100.0, 1)
    else if total == 0.0 then "NaN"
    else if total > 0.0 then "Infinity"
    else "-Infinity"
  }

  function BreakdownRow(fmt: NumberFormat, category: string, data: Tally, totalAmount: real): string
  {
    category + ",$" + fmt.toFixed(data.total, 2) + "," + NatToString(data.count) + "," + PercentText(fmt, data.total, totalAmount) + "%"
  }

  /** The tally of one category name over the report's expenses. */
  function TallyOf(expenses: seq<Expense>, name: string): Tally
  {
    var bucket := WithKey(expenses, CategoryOf, name);
    Tally(SumOf(bucket, AmountOf), |bucket|)
  }

  /** The breakdown lines, one per category in the order first met; they are not sorted. */
  function BreakdownRows(fmt: NumberFormat, expenses: seq<Expense>, totalAmount: real): (r: seq<string>)
    ensures |r| == |DistinctKeys(expenses, CategoryOf)|
  {
    var names := DistinctKeys(expenses, CategoryOf);
    seq(|names|, i requires 0 <= i < |names| => BreakdownRow(fmt, names[i], TallyOf(expenses, names[i]), totalAmount))
  }

  /** The six lines before the expense rows. */
  function HeaderLines(fmt: NumberFormat, cal: Calendar, generatedAt: int, month: int, totalAmount: real, totalExpenses: nat): seq<string>
  {
    var monthName := cal.format(month, MONTH_FORMAT);
    [ "ExpensO - " + monthName + " Expense Report",
      "Generated on: " + cal.format(generatedAt, GENERATED_FORMAT),
      "Total Expenses: " + NatToString(totalExpenses),
      "Total Amount: $" + fmt.toFixed(totalAmount, 2),
      "",
      "Date,Category,Amount,Note,Timestamp" ]
  }

  /** The three lines between the expense rows and the breakdown rows. */
  const BREAKDOWN_HEADER: seq<string> := ["", "Category Breakdown:", "Category,Total Amount,Count,Percentage"]

  /** The report, line by line. `generatedAt` is the clock reading `new Date()` takes. */
  function CsvLines(fmt: NumberFormat, cal: Calendar, generatedAt: int, expenses: seq<Expense>, categories: seq<Category>,
                    month: int, totalAmount: real, totalExpenses: nat): seq<string>
  {
    HeaderLines(fmt, cal, generatedAt, month, totalAmount, totalExpenses)
      + ExpenseRows(fmt, cal, categories, expenses)
      + BREAKDOWN_HEADER
      + BreakdownRows(fmt, expenses, totalAmount)
  }

  /**
   * Builds the report with `+=`: the header block, one row per expense, the
   * breakdown header, and one row per category of the tally.
   */
  method GenerateCSVContent(fmt: NumberFormat, cal: Calendar, generatedAt: int, expenses: seq<Expense>,
                            categories: seq<Category>, month: int, totalAmount: real, totalExpenses: nat)
    returns (csv: string)
    ensures csv == Terminated(CsvLines(fmt, cal, generatedAt, expenses, categories, month, totalAmount, totalExpenses))
  {
    csv := WriteHeader(fmt, cal, generatedAt, month, totalAmount, totalExpenses);
    var rows := WriteExpenseRows(fmt, cal, categories, expenses);
    csv := csv + rows;
    var breakdownHeader := WriteBreakdownHeader();
    csv := csv + breakdownHeader;
    var breakdown := WriteBreakdownRows(fmt, expenses, totalAmount);
    csv := csv + breakdown;
    CsvLinesText(fmt, cal, generatedAt, expenses, categories, month, totalAmount, totalExpenses);
  }

  /** The report's text is its four blocks' texts, one after another. */
  lemma CsvLinesText(fmt: NumberFormat, cal: Calendar, generatedAt: int, expenses: seq<Expense>, categories: seq<Category>,
                     month: int, totalAmount: real, totalExpenses: nat)
    ensures Terminated(CsvLines(fmt, cal, generatedAt, expenses, categories, month, totalAmount, totalExpenses))
         == Terminated(HeaderLines(fmt, cal, generatedAt, month, totalAmount, totalExpenses))
          + Terminated(ExpenseRows(fmt, cal, categories, expenses))
          + Terminated(BREAKDOWN_HEADER)
          + Terminated(BreakdownRows(fmt, expenses, totalAmount))
  {
    TerminatedConcat4(HeaderLines(fmt, cal, generatedAt, month, totalAmount, totalExpenses),
      ExpenseRows(fmt, cal, categories, expenses), BREAKDOWN_HEADER, BreakdownRows(fmt, expenses, totalAmount));
  }

  /** The blank line and the two header lines before the breakdown rows. */
  method WriteBreakdownHeader() returns (csv: string)
    ensures csv == Terminated(BREAKDOWN_HEADER)
  {
    csv := "\n";
    csv := csv + "Category Breakdown:" + "\n";
    csv := csv + "Category,Total Amount,Count,Percentage" + "\n";
    TerminatedThree(BREAKDOWN_HEADER[0], BREAKDOWN_HEADER[1], BREAKDOWN_HEADER[2]);
    assert BREAKDOWN_HEADER == [BREAKDOWN_HEADER[0], BREAKDOWN_HEADER[1], BREAKDOWN_HEADER[2]];
  }

  lemma TerminatedThree(a: string, b: string, c: string)
    ensures Terminated([a, b, c]) == a + "\n" + b + "\n" + c + "\n"
  {
    TerminatedSnoc([], a);
    TerminatedSnoc([a], b);
    TerminatedSnoc([a, b], c);
    assert [] + [a] == [a];
    assert [a] + [b] == [a, b];
    assert [a, b] + [c] == [a, b, c];
  }

  lemma TerminatedSix(a: string, b: string, c: string, d: string, e: string, f: string)
    ensures Terminated([a, b, c, d, e, f]) == a + "\n" + b + "\n" + c + "\n" + d + "\n" + e + "\n" + f + "\n"
  {
    TerminatedThree(a, b, c);
    TerminatedSnoc([a, b, c], d);
    TerminatedSnoc([a, b, c, d], e);
    TerminatedSnoc([a, b, c, d, e], f);
    assert [a, b, c] + [d] == [a, b, c, d];
    assert [a, b, c, d] + [e] == [a, b, c, d, e];
    assert [a, b, c, d, e] + [f] == [a, b, c, d, e, f];
  }

  lemma ExpenseRowsSnoc(fmt: NumberFormat, cal: Calendar, categories: seq<Category>, expenses: seq<Expense>, i: nat)
    requires i < |expenses|
    ensures ExpenseRows(fmt, cal, categories, expenses[..i + 1])
         == ExpenseRows(fmt, cal, categories, expenses[..i]) + [ExpenseRow(fmt, cal, categories, expenses[i])]
  {
  }

  /** The six header lines, each with its line break. */
  method WriteHeader(fmt: NumberFormat, cal: Calendar, generatedAt: int, month: int, totalAmount: real, totalExpenses: nat)
    returns (csv: string)
    ensures csv == Terminated(HeaderLines(fmt, cal, generatedAt, month, totalAmount, totalExpenses))
  {
    var monthName := cal.format(month, MONTH_FORMAT);
    var title := "ExpensO - " + monthName + " Expense Report";
    var generated := "Generated on: " + cal.format(generatedAt, GENERATED_FORMAT);
    var count := "Total Expenses: " + NatToString(totalExpenses);
    var amount := "Total Amount: $" + fmt.toFixed(totalAmount, 2);
    var columns := "Date,Category,Amount,Note,Timestamp";
    csv := title + "\n";
    csv := csv + generated + "\n";
    csv := csv + count + "\n";
    csv := csv + amount + "\n" + "" + "\n";
    csv := csv + columns + "\n";
    TerminatedSix(title, generated, count, amount, "", columns);
  }


  /** The `forEach` over the expenses: one row each, in the order given. */
  method WriteExpenseRows(fmt: NumberFormat, cal: Calendar, categories: seq<Category>, expenses: seq<Expense>)
    returns (csv: string)
    ensures csv == Terminated(ExpenseRows(fmt, cal, categories, expenses))
  {
    csv := "";
    for i := 0 to |expenses|
      invariant csv == Terminated(ExpenseRows(fmt, cal, categories, expenses[..i]))
    {
      var row := FormatExpenseRow(fmt, cal, categories, expenses[i]);
      ExpenseRowsSnoc(fmt, cal, categories, expenses, i);
      TerminatedSnoc(ExpenseRows(fmt, cal, categories, expenses[..i]), row);
      csv := csv + row + "\n";
    }
    assert expenses[..|expenses|] == expenses;
  }

  /** The row of one expense: date, category icon and name, amount, quoted note, timestamp. */
  method FormatExpenseRow(fmt: NumberFormat, cal: Calendar, categories: seq<Category>, expense: Expense) returns (row: string)
    ensures row == ExpenseRow(fmt, cal, categories, expense)
  {
    var category := Find(categories, NameIs(expense.category));
    var categoryIcon := if category.Some? then category.value.icon else "";
    var date := cal.format(expense.date, ROW_DATE_FORMAT);
    var amount := fmt.toFixed(expense.amount, 2);
    var note := if Truthy(expense.note) then "\"" + EscapeQuotes(expense.note.value) + "\"" else "";
    var timestamp := cal.format(expense.timestamp, ROW_TIMESTAMP_FORMAT);
    var categoryField := categoryIcon + " " + expense.category;
    assert categoryField == CategoryField(categories, expense);
    assert note == NoteField(expense);
    row := date + "," + categoryField + ",$" + amount + "," + note + "," + timestamp;
  }

  /** The `Object.entries(categoryBreakdown).forEach` of the report: one row per tallied category. */
  method WriteBreakdownRows(fmt: NumberFormat, expenses: seq<Expense>, totalAmount: real) returns (csv: string)
    ensures csv == Terminated(BreakdownRows(fmt, expenses, totalAmount))
  {
    var names, categoryBreakdown := TallyByCategory(expenses);
    ghost var rows := BreakdownRows(fmt, expenses, totalAmount);
    csv := "";
    for j := 0 to |names|
      invariant csv == Terminated(rows[..j])
    {
      var category := names[j];
      var row := FormatBreakdownRow(fmt, category, categoryBreakdown[category], totalAmount);
      BreakdownRowAt(fmt, expenses, totalAmount, j);
      TerminatedPrefixStep(rows, j);
      csv := csv + row + "\n";
    }
    assert rows[..|names|] == rows;
  }

  /** One line of the breakdown section, as the template literal builds it. */
  method FormatBreakdownRow(fmt: NumberFormat, category: string, data: Tally, totalAmount: real) returns (row: string)
    ensures row == BreakdownRow(fmt, category, data, totalAmount)
  {
    var percentage := PercentText(fmt, data.total, totalAmount);
    row := category + ",$" + fmt.toFixed(data.total, 2) + "," + NatToString(data.count) + "," + percentage + "%";
  }

  lemma BreakdownRowAt(fmt: NumberFormat, expenses: seq<Expense>, totalAmount: real, j: nat)
    requires j < |DistinctKeys(expenses, CategoryOf)|
    ensures var names := DistinctKeys(expenses, CategoryOf);
      BreakdownRows(fmt, expenses, totalAmount)[j] == BreakdownRow(fmt, names[j], TallyOf(expenses, names[j]), totalAmount)
  {
  }

  lemma TerminatedPrefixStep(lines: seq<string>, j: nat)
    requires j < |lines|
    ensures Terminated(lines[..j + 1]) == Terminated(lines[..j]) + lines[j] + "\n"
  {
    assert lines[..j + 1][..j] == lines[..j];
  }


  /** The tally's step: the amount added and the count incremented. */
  function CountIn(): (Tally, Expense) -> Tally
  {
    (t: Tally, e: Expense) => Tally(t.total + e.amount, t.count + 1)
  }

  /** Applies the `CountIn()` closure, so that callers have a term to trigger on. */
  lemma CountInApply(t: Tally, e: Expense)
    ensures CountIn()(t, e) == Tally(t.total + e.amount, t.count + 1)
  {
  }

  /** Counting a bucket from `{total: 0, count: 0}` gives its sum and its size. */
  lemma {:induction false} FoldCountIn(bucket: seq<Expense>)
    ensures Fold(bucket, Tally(0.0, 0), CountIn()) == Tally(SumOf(bucket, AmountOf), |bucket|)
  {
    if bucket != [] {
      FoldCountIn(bucket[..|bucket| - 1]);
    }
  }

  /**
   * The `reduce` that builds the category tally: a fresh `{total: 0, count: 0}`
   * for a category met for the first time, then the amount added and the
   * count incremented. `names` is the tally's key order.
   */
  method TallyByCategory(expenses: seq<Expense>) returns (names: seq<string>, acc: map<string, Tally>)
    ensures names == DistinctKeys(expenses, CategoryOf)
    ensures forall k :: k in acc <==> k in names
    ensures forall k :: k in acc ==> acc[k] == TallyOf(expenses, k)
  {
    names := [];
    acc := map[];
    for i := 0 to |expenses|
      invariant names == DistinctKeys(expenses[..i], CategoryOf)
      invariant acc == Accumulate(expenses[..i], CategoryOf, Tally(0.0, 0), CountIn())
    {
      var expense := expenses[i];
      var c := expense.category;
      AccumulateStep(expenses, i, CategoryOf, Tally(0.0, 0), CountIn());
      var t := Tally(0.0, 0);
      if c in acc {
        t := acc[c];
      } else {
        names := names + [c];
      }
      CountInApply(t, expense);
      acc := acc[c := Tally(t.total + expense.amount, t.count + 1)];
    }
    assert expenses[..|expenses|] == expenses;
    TallyMeaning(expenses, acc);
  }

  /** The tally holds, for exactly the categories present, each category's sum and count. */
  lemma TallyMeaning(expenses: seq<Expense>, acc: map<string, Tally>)
    requires acc == Accumulate(expenses, CategoryOf, Tally(0.0, 0), CountIn())
    ensures forall k :: k in acc <==> k in DistinctKeys(expenses, CategoryOf)
    ensures forall k :: k in acc ==> acc[k] == TallyOf(expenses, k)
  {
    forall k
      ensures k in acc <==> k in DistinctKeys(expenses, CategoryOf)
    {
      AccumulateDomain(expenses, CategoryOf, Tally(0.0, 0), CountIn(), k);
    }
    forall k | k in acc
      ensures acc[k] == TallyOf(expenses, k)
    {
      AccumulateValue(expenses, CategoryOf, Tally(0.0, 0), CountIn(), k);
      FoldCountIn(WithKey(expenses, CategoryOf, k));
    }
  }

  // ---------------------------------------------------------------------
  // What the report says
  // ---------------------------------------------------------------------

  /** Splits a text of newline-terminated lines back into its lines. */
  function SplitTerminated(s: string): seq<string>
    decreases |s|
  {
    var i := FindIndex(s, IsNewline);
    if i < 0 then (if s == [] then [] else [s]) else [s[..i]] + SplitTerminated(s[i + 1..])
  }

  predicate IsNewline(c: char) { c == '\n' }

  lemma TerminatedCons(line: string, rest: seq<string>)
    ensures Terminated([line] + rest) == line + "\n" + Terminated(rest)
  {
    TerminatedConcat([line], rest);
    TerminatedSnoc([], line);
    assert [] + [line] == [line];
  }

  /** Lines free of newlines are read back exactly from their joined text. */
  lemma {:induction false} SplitTerminatedRoundTrip(lines: seq<string>)
    requires forall j, k :: 0 <= j < |lines| && 0 <= k < |lines[j]| ==> lines[j][k] != '\n'
    ensures SplitTerminated(Terminated(lines)) == lines
    decreases |lines|
  {
    if lines != [] {
      var line := lines[0];
      var rest := lines[1..];
      assert lines == [line] + rest;
      TerminatedCons(line, rest);
      var s := Terminated(lines);
      assert s[|line|] == '\n';
      assert forall k :: 0 <= k < |line| ==> s[k] == line[k];
      var i := FindIndex(s, IsNewline);
      assert i == |line|;
      assert s[..i] == line;
      assert s[i + 1..] == Terminated(rest);
      SplitTerminatedRoundTrip(rest);
    }
  }

  /** The first and the third of four joined blocks can be cut back out. */
  lemma BlocksOf<X>(a: seq<X>, b: seq<X>, c: seq<X>, d: seq<X>)
    ensures var all := a + b + c + d;
      && |all| == |a| + |b| + |c| + |d|
      && all[..|a|] == a
      && all[|a| + |b|..|a| + |b| + |c|] == c
  {
    var all := a + b + c + d;
    assert all[..|a|] == a;
    assert all[|a| + |b|..|a| + |b| + |c|] == c;
  }

  /**
   * Where each part of the report sits: six header lines, one line per
   * expense, the three breakdown header lines, one line per category.
   */
  lemma CsvLayout(fmt: NumberFormat, cal: Calendar, generatedAt: int, expenses: seq<Expense>, categories: seq<Category>,
                  month: int, totalAmount: real, totalExpenses: nat)
    ensures var lines := CsvLines(fmt, cal, generatedAt, expenses, categories, month, totalAmount, totalExpenses);
      && |lines| == 9 + |expenses| + |DistinctKeys(expenses, CategoryOf)|
      && lines[..6] == HeaderLines(fmt, cal, generatedAt, month, totalAmount, totalExpenses)
      && lines[6 + |expenses|..9 + |expenses|] == BREAKDOWN_HEADER
  {
    BlocksOf(HeaderLines(fmt, cal, generatedAt, month, totalAmount, totalExpenses), ExpenseRows(fmt, cal, categories, expenses),
      BREAKDOWN_HEADER, BreakdownRows(fmt, expenses, totalAmount));
  }

  /** Line 6 + i of the report is the row of the i-th expense, in input order. */
  lemma CsvExpenseLine(fmt: NumberFormat, cal: Calendar, generatedAt: int, expenses: seq<Expense>, categories: seq<Category>,
                       month: int, totalAmount: real, totalExpenses: nat, i: nat)
    requires i < |expenses|
    ensures var lines := CsvLines(fmt, cal, generatedAt, expenses, categories, month, totalAmount, totalExpenses);
      6 + i < |lines| && lines[6 + i] == ExpenseRow(fmt, cal, categories, expenses[i])
  {
  }

  /**
   * Line 9 + |expenses| + j of the report is the breakdown row of the j-th
   * category in the order the categories first occur, with its tally.
   */
  lemma CsvBreakdownLine(fmt: NumberFormat, cal: Calendar, generatedAt: int, expenses: seq<Expense>, categories: seq<Category>,
                         month: int, totalAmount: real, totalExpenses: nat, j: nat)
    requires j < |DistinctKeys(expenses, CategoryOf)|
    ensures var lines, names := CsvLines(fmt, cal, generatedAt, expenses, categories, month, totalAmount, totalExpenses), DistinctKeys(expenses, CategoryOf);
      9 + |expenses| + j < |lines| && lines[9 + |expenses| + j] == BreakdownRow(fmt, names[j], TallyOf(expenses, names[j]), totalAmount)
  {
    BreakdownRowAt(fmt, expenses, totalAmount, j);
  }

  /**
   * The category column: with no category of that name the icon is empty,
   * leaving a space before the name; otherwise it is the icon of the first
   * category of that name.
   */
  lemma CategoryFieldCases(categories: seq<Category>, e: Expense)
    ensures (forall c :: c in categories ==> c.name != e.category) ==> CategoryField(categories, e) == " " + e.category
    ensures forall i :: (0 <= i < |categories| && categories[i].name == e.category
      && (forall j :: 0 <= j < i ==> categories[j].name != e.category)) ==>
      CategoryField(categories, e) == categories[i].icon + " " + e.category
  {
    var r := Find(categories, NameIs(e.category));
    if r.Some? {
      var i :| 0 <= i < |categories| && categories[i] == r.value && NameIs(e.category)(categories[i])
        && forall j :: 0 <= j < i ==> !NameIs(e.category)(categories[j]);
      forall i' | 0 <= i' < |categories| && categories[i'].name == e.category
        && (forall j :: 0 <= j < i' ==> categories[j].name != e.category)
        ensures r.value == categories[i']
      {
      }
    } else {
      forall i | 0 <= i < |categories| ensures categories[i].name != e.category {
        assert !NameIs(e.category)(categories[i]);
      }
    }
  }

  /** A present, non-empty note is read back from its column; no note leaves the column empty. */
  lemma NoteFieldRoundTrip(e: Expense)
    ensures Truthy(e.note) ==> ParseQuotedField(NoteField(e)) == Some(e.note.value)
    ensures !Truthy(e.note) ==> NoteField(e) == ""
  {
    if Truthy(e.note) {
      QuoteFieldRoundTrip(e.note.value);
    }
  }

  /** Adds up a list of tallies. */
  function TallySum(ts: seq<Tally>): Tally
  {
    if ts == [] then Tally(0.0, 0)
    else var r := TallySum(ts[..|ts| - 1]); Tally(r.total + ts[|ts| - 1].total, r.count + ts[|ts| - 1].count)
  }

  /** The tallies of a list of category names, in that order. */
  function TalliesOf(expenses: seq<Expense>, names: seq<string>): (r: seq<Tally>)
    ensures |r| == |names|
  {
    seq(|names|, j requires 0 <= j < |names| => TallyOf(expenses, names[j]))
  }

  lemma {:induction false} TallySumKeyed(expenses: seq<Expense>, names: seq<string>)
    ensures TallySum(TalliesOf(expenses, names))
         == Tally(KeyedSum(names, expenses, CategoryOf, AmountOf), KeyedCount(names, expenses, CategoryOf))
    decreases |names|
  {
    if names != [] {
      var n := |names| - 1;
      TallySumKeyed(expenses, names[..n]);
      assert TalliesOf(expenses, names)[..n] == TalliesOf(expenses, names[..n]);
    }
  }

  /**
   * The breakdown rows split the report's expenses: their counts add up to
   * the number of expenses and their totals to the report's amount; every
   * row counts at least one expense.
   */
  lemma BreakdownTalliesPartition(expenses: seq<Expense>)
    ensures var names := DistinctKeys(expenses, CategoryOf);
      && TallySum(TalliesOf(expenses, names)) == Tally(SumOf(expenses, AmountOf), |expenses|)
      && forall j :: 0 <= j < |names| ==> TallyOf(expenses, names[j]).count >= 1
  {
    var names := DistinctKeys(expenses, CategoryOf);
    TallySumKeyed(expenses, names);
    PartitionSum(expenses, CategoryOf, AmountOf);
    PartitionCount(expenses, CategoryOf);
    forall j | 0 <= j < |names| ensures TallyOf(expenses, names[j]).count >= 1 {
      assert HasKey(expenses, CategoryOf, names[j]);
      var x :| x in expenses && CategoryOf(x) == names[j];
      WithKeyMembers(expenses, CategoryOf, names[j]);
      assert x in WithKey(expenses, CategoryOf, names[j]);
    }
  }

  lemma ShareAtMostHundred(part: real, whole: real)
    requires 0.0 < part <= whole
    ensures 0.0 < (part / whole) * 100.0 <= 100.0
  {
    assert part / whole <= 1.0;
  }

  /** With positive amounts, a category that occurs has a positive total no larger than the whole. */
  lemma BucketWithinTotal(expenses: seq<Expense>, name: string)
    requires forall e :: e in expenses ==> e.amount > 0.0
    requires name in DistinctKeys(expenses, CategoryOf)
    ensures 0.0 < TallyOf(expenses, name).total <= SumOf(expenses, AmountOf)
  {
    var bucket := WithKey(expenses, CategoryOf, name);
    assert HasKey(expenses, CategoryOf, name);
    var x :| x in expenses && CategoryOf(x) == name;
    WithKeyMembers(expenses, CategoryOf, name);
    assert x in bucket;
    SumOfFilterAtMost(expenses, KeyIs(CategoryOf, name), AmountOf);
    SumOfPositive(bucket, AmountOf);
  }

  /**
   * When every amount is positive and the report's amount is the sum of its
   * expenses, each breakdown percentage is a number printed from a share in
   * (0, 100]; `NaN` or `Infinity` cannot appear.
   */
  lemma BreakdownPercentNumeric(fmt: NumberFormat, expenses: seq<Expense>, name: string)
    requires forall e :: e in expenses ==> e.amount > 0.0
    requires name in DistinctKeys(expenses, CategoryOf)
    ensures var t, totalAmount := TallyOf(expenses, name), SumOf(expenses, AmountOf);
      && 0.0 < totalAmount
      && 0.0 < (t.total / totalAmount) * 100.0 <= 100.0
      && PercentText(fmt, t.total, totalAmount) == fmt.toFixed((t.total / totalAmount) * 100.0, 1)
  {
    BucketWithinTotal(expenses, name);
    ShareAtMostHundred(TallyOf(expenses, name).total, SumOf(expenses, AmountOf));
  }

  /**
   * The report's breakdown is not sorted by amount, unlike the dashboard's:
   * its first row is the first category met, while the dashboard's first
   * entry is never that category once a later one has a larger total.
   */
  lemma BreakdownRowsUnsorted(fmt: NumberFormat, expenses: seq<Expense>, categories: seq<Category>, start: int, end: int, k: nat)
    requires forall e :: e in expenses ==> IsDateInRange(e.date, start, end)
    requires 0 < k < |DistinctKeys(expenses, CategoryOf)|
    requires TallyOf(expenses, DistinctKeys(expenses, CategoryOf)[0]).total
           < TallyOf(expenses, DistinctKeys(expenses, CategoryOf)[k]).total
    ensures var names, totalAmount := DistinctKeys(expenses, CategoryOf), SumOf(expenses, AmountOf);
      BreakdownRows(fmt, expenses, totalAmount)[0] == BreakdownRow(fmt, names[0], TallyOf(expenses, names[0]), totalAmount)
    ensures var names, r := DistinctKeys(expenses, CategoryOf), CategoryBreakdownOf(expenses, categories, start, end);
      |r| == |names| && r[0].category != names[0]
  {
    var names := DistinctKeys(expenses, CategoryOf);
    FilterAllPass(expenses, InRangeOf(start, end));
    assert InRange(expenses, start, end) == expenses;
    var r := CategoryBreakdownOf(expenses, categories, start, end);
    var p := BreakdownEntryOf(expenses, categories, start, end, k);
    BreakdownOrder(expenses, categories, start, end);
    BreakdownEntries(expenses, categories, start, end);
    BreakdownRowAt(fmt, expenses, SumOf(expenses, AmountOf), 0);
  }

  // ---------------------------------------------------------------------
  // The export
  // ---------------------------------------------------------------------

  const SHARING_UNAVAILABLE: string := "Sharing is not available on this device"

  datatype ExportOutcome =
    | Shared(fileUri: string, csv: string, dialogTitle: string)
    | ExportFailed(message: string)

  /**
   * `exportExpensesToExcel`: filters the month, builds the report, writes it
   * under the documents directory and opens the share sheet. Writing,
   * sharing's availability and sharing itself are outcomes passed in. Any
   * failure, including sharing being unavailable, is caught and replaced by
   * the one message "Failed to export expenses".
   */
  method ExportExpensesToExcel(fmt: NumberFormat, cal: Calendar, generatedAt: int, documentDirectory: string,
                               expenses: seq<Expense>, categories: seq<Category>, month: int,
                               writeSucceeds: bool, sharingAvailable: bool, shareSucceeds: bool)
    returns (r: ExportOutcome)
    ensures var d := GetExportData(cal, expenses, categories, month);
      writeSucceeds && sharingAvailable && shareSucceeds ==>
      r == Shared(documentDirectory + ExportFileName(cal, month),
                  Terminated(CsvLines(fmt, cal, generatedAt, d.expenses, d.categories, month, d.totalAmount, d.totalExpenses)),
                  "Export " + cal.format(month, MONTH_FORMAT) + " Expenses")
    ensures !(writeSucceeds && sharingAvailable && shareSucceeds) ==> r == ExportFailed(EXPORT_ERROR)
  {
    var monthStart := ExportMonthStart(cal, month);
    var monthEnd := ExportMonthEnd(cal, month);
    var monthExpenses := Filter(expenses, InRangeOf(monthStart, monthEnd));
    var totalAmount := SumOf(monthExpenses, AmountOf);
    var totalExpenses := |monthExpenses|;
    var csvContent := GenerateCSVContent(fmt, cal, generatedAt, monthExpenses, categories, month, totalAmount, totalExpenses);
    var monthName := cal.format(month, MONTH_FORMAT);
    var filename := "ExpensO_" + ReplaceFirstSpace(monthName) + ".csv";
    var fileUri := documentDirectory + filename;
    var thrown: Option<string> := None;
    if !writeSucceeds {
      thrown := Some(EXPORT_ERROR);
    } else if !sharingAvailable {
      thrown := Some(SHARING_UNAVAILABLE);
    } else if !shareSucceeds {
      thrown := Some(EXPORT_ERROR);
    }
    if thrown.Some? {
      r := ExportFailed(EXPORT_ERROR);
    } else {
      r := Shared(fileUri, csvContent, "Export " + monthName + " Expenses");
    }
  }
}
