/**
 * The records the app passes around (types.ts). Amounts are exact reals and
 * instants are milliseconds; an expense's ISO date string is represented by
 * the instant it parses to.
 */
module Types {
  import opened Collections

  /** One spending record. `note` is optional. */
  datatype Expense = Expense(
    id: string,
    amount: real,
    category: string,
    note: Option<string>,
    date: int,
    timestamp: int)

  /** A user-visible category; expenses refer to it by `name`. */
  datatype Category = Category(id: string, name: string, icon: string, color: string)

  datatype ExpenseSummary = ExpenseSummary(total: real, count: nat)

  datatype CategoryBreakdown = CategoryBreakdown(
    category: string,
    total: real,
    percentage: real,
    icon: string,
    color: string)

  /** An inclusive interval of instants. */
  datatype DateRange = DateRange(start: int, end: int)

  datatype SortBy = ByDate | ByAmount
  datatype SortOrder = Asc | Desc

  datatype FilterOptions = FilterOptions(
    category: Option<string>,
    searchQuery: Option<string>,
    sortBy: SortBy,
    sortOrder: SortOrder)

  /** JavaScript truthiness of an optional string: present and non-empty. */
  predicate Truthy(o: Option<string>)
  {
    o.Some? && o.value != ""
  }

  // Field accessors, passed to the generic sequence functions.

  function CategoryOf(e: Expense): string { e.category }
  function AmountOf(e: Expense): real { e.amount }
  function DateOf(e: Expense): real { e.date as real }
  function IdOf(e: Expense): string { e.id }
  function CategoryIdOf(c: Category): string { c.id }
  function NameOf(c: Category): string { c.name }
}
