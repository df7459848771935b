/** The home screen's list logic: the category-and-search filter over the
    expenses loaded from the server, the running total of what is shown, and
    the badge colour of a category. */
module HomeScreen {
  import opened Seqs
  import opened Text
  import opened Records
  import opened Ledger
  import AddExpenseScreen

  /** The category chip that disables the category filter. */
  const AllCategories: string := "Tous"

  /** `expense.category.toLowerCase() === selectedCategory.toLowerCase()`. */
  function SameCategory(selected: string): Expense -> bool
  {
    (e: Expense) => Lower(e.category) == Lower(selected)
  }

  /** `expense.description?.toLowerCase().includes(searchQuery.toLowerCase()) ||
      expense.amount.toString().includes(searchQuery)`; `show` is `Number.prototype.toString`. */
  function MatchesSearch(query: string, show: real -> string): Expense -> bool
  {
    (e: Expense) =>
      (e.description.Some? && Includes(Lower(e.description.value), Lower(query)))
      || Includes(show(e.amount), query)
  }

  /** `filterExpenses`: the category filter unless `'Tous'` is selected, then
      the search filter unless the query is empty. */
  function FilterExpenses(expenses: seq<Expense>, selected: string, query: string, show: real -> string): (r: seq<Expense>)
    ensures |r| <= |expenses|
    ensures forall i :: 0 <= i < |r| ==> r[i] in expenses
  {
    var byCategory := if selected != AllCategories then Filter(expenses, SameCategory(selected)) else expenses;
    if query != "" then Filter(byCategory, MatchesSearch(query, show)) else byCategory
  }

  /** Reference definition: whether one expense is shown. */
  predicate Shown(e: Expense, selected: string, query: string, show: real -> string)
  {
    && (selected == AllCategories || Lower(e.category) == Lower(selected))
    && (query == "" || MatchesSearch(query, show)(e))
  }

  function ShownBy(selected: string, query: string, show: real -> string): Expense -> bool
  {
    (e: Expense) => Shown(e, selected, query, show)
  }

  /** The two chained filters are one filter by `Shown`. */
  lemma FilterExpensesIsFilter(expenses: seq<Expense>, selected: string, query: string, show: real -> string)
    ensures FilterExpenses(expenses, selected, query, show) == Filter(expenses, ShownBy(selected, query, show))
  {
    var keep := ShownBy(selected, query, show);
    if selected != AllCategories && query != "" {
      FilterFilter(expenses, SameCategory(selected), MatchesSearch(query, show), keep);
    } else if selected != AllCategories {
      FilterFilter(expenses, SameCategory(selected), (e: Expense) => true, keep);
      FilterAll(Filter(expenses, SameCategory(selected)), (e: Expense) => true);
    } else if query != "" {
      FilterFilter(expenses, (e: Expense) => true, MatchesSearch(query, show), keep);
      FilterAll(expenses, (e: Expense) => true);
    } else {
      FilterAll(expenses, keep);
    }
  }

  /** With `'Tous'` and an empty query the list is shown unchanged. */
  lemma UnfilteredShowsAll(expenses: seq<Expense>, show: real -> string)
    ensures FilterExpenses(expenses, AllCategories, "", show) == expenses
  {
  }

  /** Filtering only drops items: the result is an order-preserving subsequence. */
  lemma FilterExpensesSubsequence(expenses: seq<Expense>, selected: string, query: string, show: real -> string)
    ensures IsSubsequence(FilterExpenses(expenses, selected, query, show), expenses)
  {
    FilterExpensesIsFilter(expenses, selected, query, show);
    FilterIsSubsequence(expenses, ShownBy(selected, query, show));
  }

  /** An expense is shown iff it was loaded and passes both filters. */
  lemma FilterExpensesMembers(expenses: seq<Expense>, selected: string, query: string, show: real -> string)
    ensures var r := FilterExpenses(expenses, selected, query, show);
      && (forall i :: 0 <= i < |r| ==> r[i] in expenses && Shown(r[i], selected, query, show))
      && (forall i :: 0 <= i < |expenses| && Shown(expenses[i], selected, query, show) ==> expenses[i] in r)
  {
    FilterExpensesIsFilter(expenses, selected, query, show);
  }

  /** `totalExpenses`: the sum over the shown list, which with the sum over
      the hidden items makes up the sum over everything loaded, and so never
      exceeds it when no amount is negative. */
  lemma ShownTotalSplit(expenses: seq<Expense>, selected: string, query: string, show: real -> string)
    ensures Total(FilterExpenses(expenses, selected, query, show))
          + Total(Filter(expenses, (e: Expense) => !Shown(e, selected, query, show)))
         == Total(expenses)
    ensures (forall i :: 0 <= i < |expenses| ==> expenses[i].amount >= 0.0) ==>
      Total(FilterExpenses(expenses, selected, query, show)) <= Total(expenses)
  {
    var hidden := (e: Expense) => !Shown(e, selected, query, show);
    FilterExpensesIsFilter(expenses, selected, query, show);
    TotalPartition(expenses, ShownBy(selected, query, show), hidden);
    if forall i :: 0 <= i < |expenses| ==> expenses[i].amount >= 0.0 {
      TotalNonNegative(Filter(expenses, hidden));
    }
  }

  const Colors: map<string, string> := map[
    "nourriture" := "#FF6B6B",
    "transport" := "#4ECDC4",
    "loisirs" := "#45B7D1",
    "santé" := "#96CEB4",
    "logement" := "#FFEAA7",
    "autre" := "#DFE6E9"]

  /** `getCategoryColor`: the colour of the lower-cased category, `autre`'s otherwise. */
  function CategoryColor(category: string): (r: string)
    ensures Lower(category) in Colors ==> r == Colors[Lower(category)]
    ensures Lower(category) !in Colors ==> r == Colors["autre"]
    ensures r in Colors.Values
  {
    var key := Lower(category);
    if key in Colors then Colors[key] else Colors["autre"]
  }

  /** Each category the add-expense form offers has a colour of its own. */
  lemma FormCategoriesColoured()
    ensures forall i :: 0 <= i < |AddExpenseScreen.FormCategories| ==>
      Lower(AddExpenseScreen.FormCategories[i]) in Colors
    ensures forall i, j :: 0 <= i < j < |AddExpenseScreen.FormCategories| ==>
      CategoryColor(AddExpenseScreen.FormCategories[i]) != CategoryColor(AddExpenseScreen.FormCategories[j])
  {
    var cs := AddExpenseScreen.FormCategories;
    assert Lower(cs[0]) == "nourriture";
    assert Lower(cs[1]) == "transport";
    assert Lower(cs[2]) == "loisirs";
    assert Lower(cs[3]) == "santé";
    assert Lower(cs[4]) == "logement";
    assert Lower(cs[5]) == "autre";
  }
}
