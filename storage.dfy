/**
 * The device store (storage/asyncStorage.ts): two JSON-encoded lists kept
 * under the keys "expenses" and "categories". An absent key reads as the
 * empty list. Whether a read, write or removal of the underlying key-value
 * store fails is passed in as a boolean; JSON encoding followed by decoding
 * is the identity on what the app stores.
 */
module Storage {
  import opened Collections
  import opened Types
  import opened ExpenseUtils

  const EXPENSES_KEY: string := "expenses"
  const CATEGORIES_KEY: string := "categories"

  /** The five categories a fresh install starts with. */
  const DEFAULT_CATEGORIES: seq<Category> := [
    Category("1", "Food", "\U{1F355}", "#FF6B6B"),
    Category("2", "Transport", "\U{1F697}", "#4ECDC4"),
    Category("3", "Shopping", "\U{1F6CD}\U{FE0F}", "#45B7D1"),
    Category("4", "Bills", "\U{1F4C4}", "#96CEB4"),
    Category("5", "Other", "\U{1F4CC}", "#FFEAA7")
  ]

  /** A write or removal that the store rejected is thrown on to the caller. */
  datatype Outcome = Success | Failure

  // ---------------------------------------------------------------------
  // The list edits, as functions
  // ---------------------------------------------------------------------

  /** The `filter` callback of `deleteExpense`: keep expenses with another id. */
  function ExpenseIdIsNot(id: string): Expense -> bool
  {
    (e: Expense) => e.id != id
  }

  /** The `filter` callback of `deleteCategory`: keep categories with another id. */
  function CategoryIdIsNot(id: string): Category -> bool
  {
    (c: Category) => c.id != id
  }

  /** The `findIndex` callback of `saveCategory`: a category with the same id. */
  function CategoryIdIs(id: string): Category -> bool
  {
    (c: Category) => c.id == id
  }

  function WithoutExpense(expenses: seq<Expense>, id: string): seq<Expense>
  {
    Filter(expenses, ExpenseIdIsNot(id))
  }

  function WithoutCategory(categories: seq<Category>, id: string): seq<Category>
  {
    Filter(categories, CategoryIdIsNot(id))
  }

  /** `saveCategory`'s edit: replace the first category with the same id, or append. */
  function Upsert(categories: seq<Category>, category: Category): seq<Category>
  {
    var i := FindIndex(categories, CategoryIdIs(category.id));
    if i >= 0 then categories[i := category] else categories + [category]
  }

  ghost predicate DistinctCategoryIds(categories: seq<Category>)
  {
    forall i, j :: 0 <= i < j < |categories| ==> categories[i].id != categories[j].id
  }

  // ---------------------------------------------------------------------
  // Properties of the edits
  // ---------------------------------------------------------------------

  /**
   * Deleting an expense removes every expense with that id and keeps every
   * other one; deleting it again changes nothing.
   */
  lemma WithoutExpenseMembers(expenses: seq<Expense>, id: string)
    ensures forall e :: e in WithoutExpense(expenses, id) <==> e in expenses && e.id != id
    ensures WithoutExpense(WithoutExpense(expenses, id), id) == WithoutExpense(expenses, id)
    ensures |WithoutExpense(expenses, id)| <= |expenses|
  {
    FilterMembers(expenses, ExpenseIdIsNot(id));
    FilterIdempotent(expenses, ExpenseIdIsNot(id));
  }

  /**
   * Deleting a category removes every category with that id and keeps every
   * other one in order; deleting it again changes nothing.
   */
  lemma WithoutCategoryMembers(categories: seq<Category>, id: string)
    ensures forall c :: c in WithoutCategory(categories, id) <==> c in categories && c.id != id
    ensures WithoutCategory(WithoutCategory(categories, id), id) == WithoutCategory(categories, id)
    ensures |WithoutCategory(categories, id)| <= |categories|
  {
    FilterMembers(categories, CategoryIdIsNot(id));
    FilterIdempotent(categories, CategoryIdIsNot(id));
  }

  /** Saving an expense with a fresh id and then deleting that id gives back the list saved to. */
  lemma {:induction false} SaveThenDeleteExpense(expenses: seq<Expense>, expense: Expense)
    requires forall e :: e in expenses ==> e.id != expense.id
    ensures WithoutExpense(expenses + [expense], expense.id) == expenses
  {
    FilterConcat(expenses, [expense], ExpenseIdIsNot(expense.id));
    FilterAllPass(expenses, ExpenseIdIsNot(expense.id));
    assert [expense][..0] == [];
  }

  /**
   * `saveCategory` replaces the first category with the new one's id in
   * place, keeping every other position, or appends when no category has
   * that id.
   */
  lemma UpsertShape(categories: seq<Category>, category: Category)
    ensures var r := Upsert(categories, category);
      (exists i :: 0 <= i < |categories| && categories[i].id == category.id) ==>
        && |r| == |categories|
        && exists i :: 0 <= i < |categories| && categories[i].id == category.id
             && (forall j :: 0 <= j < i ==> categories[j].id != category.id)
             && r[i] == category
             && (forall j :: 0 <= j < |r| && j != i ==> r[j] == categories[j])
    ensures (forall c :: c in categories ==> c.id != category.id) ==>
      Upsert(categories, category) == categories + [category]
  {
    var i := FindIndex(categories, CategoryIdIs(category.id));
    if exists k :: 0 <= k < |categories| && categories[k].id == category.id {
      var k :| 0 <= k < |categories| && categories[k].id == category.id;
      assert CategoryIdIs(category.id)(categories[k]);
      assert i >= 0;
    }
    if forall c :: c in categories ==> c.id != category.id {
      forall j | 0 <= j < |categories| ensures !CategoryIdIs(category.id)(categories[j]) {
        assert categories[j] in categories;
      }
    }
  }

  /** Saving the same category twice is saving it once. */
  lemma UpsertIdempotent(categories: seq<Category>, category: Category)
    ensures Upsert(Upsert(categories, category), category) == Upsert(categories, category)
  {
    var p := CategoryIdIs(category.id);
    var i := FindIndex(categories, p);
    var once := Upsert(categories, category);
    if i >= 0 {
      forall j | 0 <= j < i ensures !p(once[j]) {
        assert once[j] == categories[j];
      }
      assert p(once[i]);
      assert FindIndex(once, p) == i;
      assert once[i := category] == once;
    } else {
      assert p(once[|categories|]);
      forall j | 0 <= j < |categories| ensures !p(once[j]) {
        assert once[j] == categories[j];
      }
      assert FindIndex(once, p) == |categories|;
      assert once[|categories| := category] == once;
    }
  }

  /** Saving and deleting categories keep the ids distinct. */
  lemma EditsKeepIdsDistinct(categories: seq<Category>, category: Category, id: string)
    requires DistinctCategoryIds(categories)
    ensures DistinctCategoryIds(Upsert(categories, category))
    ensures DistinctCategoryIds(WithoutCategory(categories, id))
  {
    var r := Upsert(categories, category);
    var i := FindIndex(categories, CategoryIdIs(category.id));
    forall a, b | 0 <= a < b < |r| ensures r[a].id != r[b].id {
      if i >= 0 {
        if a == i {
          assert r[b] == categories[b];
        } else if b == i {
          assert r[a] == categories[a];
          assert !CategoryIdIs(category.id)(categories[a]);
        } else {
          assert r[a] == categories[a] && r[b] == categories[b];
        }
      } else if b == |categories| {
        assert r[a] == categories[a];
        assert !CategoryIdIs(category.id)(categories[a]);
      }
    }
    var idx := FilterIndices(categories, CategoryIdIsNot(id));
    var w := WithoutCategory(categories, id);
    forall a, b | 0 <= a < b < |w| ensures w[a].id != w[b].id {
      assert w[a] == categories[idx[a]] && w[b] == categories[idx[b]];
      assert idx[a] < idx[b];
    }
  }

  /**
   * Deleting a category leaves expenses that used its name in place; with
   * category names distinct, their breakdown entries then fall back to the
   * default icon and colour.
   */
  lemma DeletedCategoryFallsBack(expenses: seq<Expense>, categories: seq<Category>, k: nat, start: int, end: int)
    requires k < |categories|
    requires forall i, j :: 0 <= i < j < |categories| ==> categories[i].name != categories[j].name
    ensures var remaining := WithoutCategory(categories, categories[k].id);
      forall b :: b in CategoryBreakdownOf(expenses, remaining, start, end) && b.category == categories[k].name ==>
        b.icon == DEFAULT_ICON && b.color == DEFAULT_COLOR
  {
    var remaining := WithoutCategory(categories, categories[k].id);
    FilterMembers(categories, CategoryIdIsNot(categories[k].id));
    forall c | c in remaining ensures c.name != categories[k].name {
      var j :| 0 <= j < |categories| && categories[j] == c;
      assert j != k;
    }
    BreakdownDecoration(expenses, remaining, start, end);
  }

  // ---------------------------------------------------------------------
  // The store
  // ---------------------------------------------------------------------

  /** The two stored items; `None` is a key with no item. */
  class Store {
    var expensesItem: Option<seq<Expense>>
    var categoriesItem: Option<seq<Category>>

    /** A store with nothing saved. */
    constructor()
      ensures expensesItem == None && categoriesItem == None
    {
      expensesItem := None;
      categoriesItem := None;
    }

    /** What a successful read of "expenses" yields: the stored list, or `[]` when absent. */
    function StoredExpenses(): seq<Expense>
      reads this
    {
      if expensesItem.Some? then expensesItem.value else []
    }

    function StoredCategories(): seq<Category>
      reads this
    {
      if categoriesItem.Some? then categoriesItem.value else []
    }

    /** `getExpenses`: the stored list; a failed read is logged and yields `[]`. */
    method GetExpenses(readFails: bool) returns (r: seq<Expense>)
      ensures r == if readFails then [] else StoredExpenses()
    {
      if readFails {
        r := [];
      } else if expensesItem.Some? {
        r := expensesItem.value;
      } else {
        r := [];
      }
    }

    /** `getCategories`: the stored list; a failed read is logged and yields `[]`. */
    method GetCategories(readFails: bool) returns (r: seq<Category>)
      ensures r == if readFails then [] else StoredCategories()
    {
      if readFails {
        r := [];
      } else if categoriesItem.Some? {
        r := categoriesItem.value;
      } else {
        r := [];
      }
    }

    /**
     * `saveExpense`: reads the list, appends, writes it back. The read's
     * failure is swallowed, so a failed read followed by a good write
     * replaces the stored list by the one new expense.
     */
    method SaveExpense(expense: Expense, readFails: bool, writeFails: bool) returns (outcome: Outcome)
      modifies this
      ensures var read := if readFails then [] else old(StoredExpenses());
        && outcome == (if writeFails then Failure else Success)
        && expensesItem == (if writeFails then old(expensesItem) else Some(read + [expense]))
      ensures categoriesItem == old(categoriesItem)
    {
      var expenses := GetExpenses(readFails);
      expenses := expenses + [expense];
      if writeFails {
        outcome := Failure;
      } else {
        expensesItem := Some(expenses);
        outcome := Success;
      }
    }

    /** `deleteExpense`: reads the list, drops every expense with the id, writes it back. */
    method DeleteExpense(expenseId: string, readFails: bool, writeFails: bool) returns (outcome: Outcome)
      modifies this
      ensures var read := if readFails then [] else old(StoredExpenses());
        && outcome == (if writeFails then Failure else Success)
        && expensesItem == (if writeFails then old(expensesItem) else Some(WithoutExpense(read, expenseId)))
      ensures categoriesItem == old(categoriesItem)
    {
      var expenses := GetExpenses(readFails);
      var filteredExpenses := Filter(expenses, ExpenseIdIsNot(expenseId));
      if writeFails {
        outcome := Failure;
      } else {
        expensesItem := Some(filteredExpenses);
        outcome := Success;
      }
    }

    /** `clearAllExpenses`: removes the "expenses" item. */
    method ClearAllExpenses(removeFails: bool) returns (outcome: Outcome)
      modifies this
      ensures outcome == (if removeFails then Failure else Success)
      ensures expensesItem == (if removeFails then old(expensesItem) else None)
      ensures categoriesItem == old(categoriesItem)
    {
      if removeFails {
        outcome := Failure;
      } else {
        expensesItem := None;
        outcome := Success;
      }
    }

    /** `saveCategory`: reads the list, replaces the category with the same id or appends, writes it back. */
    method SaveCategory(category: Category, readFails: bool, writeFails: bool) returns (outcome: Outcome)
      modifies this
      ensures var read := if readFails then [] else old(StoredCategories());
        && outcome == (if writeFails then Failure else Success)
        && categoriesItem == (if writeFails then old(categoriesItem) else Some(Upsert(read, category)))
      ensures expensesItem == old(expensesItem)
    {
      var categories := GetCategories(readFails);
      var existingIndex := FindIndex(categories, CategoryIdIs(category.id));
      if existingIndex >= 0 {
        categories := categories[existingIndex := category];
      } else {
        categories := categories + [category];
      }
      if writeFails {
        outcome := Failure;
      } else {
        categoriesItem := Some(categories);
        outcome := Success;
      }
    }

    /**
     * `deleteCategory`: reads the list, drops every category with the id,
     * writes it back. Expenses are not touched, whatever their category.
     */
    method DeleteCategory(categoryId: string, readFails: bool, writeFails: bool) returns (outcome: Outcome)
      modifies this
      ensures var read := if readFails then [] else old(StoredCategories());
        && outcome == (if writeFails then Failure else Success)
        && categoriesItem == (if writeFails then old(categoriesItem) else Some(WithoutCategory(read, categoryId)))
      ensures expensesItem == old(expensesItem)
    {
      var categories := GetCategories(readFails);
      var filteredCategories := Filter(categories, CategoryIdIsNot(categoryId));
      if writeFails {
        outcome := Failure;
      } else {
        categoriesItem := Some(filteredCategories);
        outcome := Success;
      }
    }

    /** `clearAllData`: removes both items in one `multiRemove`. */
    method ClearAllData(removeFails: bool) returns (outcome: Outcome)
      modifies this
      ensures outcome == (if removeFails then Failure else Success)
      ensures expensesItem == (if removeFails then old(expensesItem) else None)
      ensures categoriesItem == (if removeFails then old(categoriesItem) else None)
    {
      if removeFails {
        outcome := Failure;
      } else {
        expensesItem := None;
        categoriesItem := None;
        outcome := Success;
      }
    }

    /**
     * `initializeDefaultCategories`: when the read yields no categories, the
     * defaults are written and returned; a failed write is logged and the
     * defaults are still returned. Otherwise the stored list is returned.
     */
    method InitializeDefaultCategories(readFails: bool, writeFails: bool) returns (r: seq<Category>)
      modifies this
      ensures var read := if readFails then [] else old(StoredCategories());
        && r == (if read == [] then DEFAULT_CATEGORIES else read)
        && categoriesItem == (if read == [] && !writeFails then Some(DEFAULT_CATEGORIES) else old(categoriesItem))
      ensures expensesItem == old(expensesItem)
    {
      var existingCategories := GetCategories(readFails);
      if |existingCategories| == 0 {
        if !writeFails {
          categoriesItem := Some(DEFAULT_CATEGORIES);
        }
        r := DEFAULT_CATEGORIES;
      } else {
        r := existingCategories;
      }
    }
  }

  /** The default categories have distinct ids and distinct names, and every icon and colour is set. */
  lemma DefaultCategoriesWellFormed()
    ensures DistinctCategoryIds(DEFAULT_CATEGORIES)
    ensures forall i, j :: 0 <= i < j < |DEFAULT_CATEGORIES| ==> DEFAULT_CATEGORIES[i].name != DEFAULT_CATEGORIES[j].name
    ensures forall c :: c in DEFAULT_CATEGORIES ==> c.icon != "" && c.color != ""
  {
  }

  /**
   * The default "Other" category carries exactly the breakdown's fallback
   * icon and colour.
   */
  lemma DefaultOtherIsFallback()
    ensures DEFAULT_CATEGORIES[4].name == "Other"
    ensures DEFAULT_CATEGORIES[4].icon == DEFAULT_ICON && DEFAULT_CATEGORIES[4].color == DEFAULT_COLOR
  {
  }
}
