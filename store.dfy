/**
 * The budget store: the records the planner keeps, with the two stored settings,
 * and the actions that change them — seeding and adding categories, adding
 * income sources, expenses and savings top-ups, depositing to and withdrawing
 * from the accumulated savings, closing a month, and clearing the history.
 */
module Store {
  import opened Seqs
  import opened Records
  import opened Budget

  /** The built-in category names, in insertion order, for each interface language. */
  const EnglishDefaults: seq<string> := ["Food", "Housing", "Transport", "Entertainment", "Health", "Essentials", "Other"]
  const UkrainianDefaults: seq<string> := ["Продукти", "Житло", "Транспорт", "Розваги", "Здоров'я", "Основні", "Інше"]

  /** The default categories of the interface language. */
  function DefaultCategoryNames(isUkrainian: bool): (r: seq<string>)
    ensures |r| == 7 && Distinct(r)
  {
    if isUkrainian then UkrainianDefaults else EnglishDefaults
  }

  /**
   * `MonthHistory.expenses` is the inverse of `ExpenseItem.monthHistory`: an
   * expense names an archived month exactly when that month lists it.
   */
  ghost predicate Linked(expenses: seq<ExpenseItem>, histories: seq<MonthHistory>)
    reads expenses, histories
  {
    && (forall e :: e in expenses && e.monthHistory != null ==> e.monthHistory in histories && e in e.monthHistory.expenses)
    && (forall h, e :: h in histories && e in h.expenses ==> e in expenses && e.monthHistory == h)
  }

  class BudgetStore {
    var incomes: seq<IncomeItem>
    var expenses: seq<ExpenseItem>
    var categories: seq<CategoryItem>
    var histories: seq<MonthHistory>
    /** UAH per USD. */
    var exchangeRate: real
    /** The savings balance, in hryvnias. */
    var totalAccumulatedSavings: real

    /**
     * Every record is stored once, and an archived month's `expenses` are exactly
     * the stored expenses whose `monthHistory` is that month.
     */
    ghost predicate Valid()
      reads this, expenses, histories
    {
      && Distinct(incomes) && Distinct(expenses) && Distinct(categories) && Distinct(histories)
      && Linked(expenses, histories)
    }

    /** A fresh store: no records, the default exchange rate, no savings. */
    constructor ()
      ensures Valid()
      ensures incomes == [] && expenses == [] && categories == [] && histories == []
      ensures exchangeRate == DefaultExchangeRate && totalAccumulatedSavings == 0.0
    {
      incomes, expenses, categories, histories := [], [], [], [];
      exchangeRate := DefaultExchangeRate;
      totalAccumulatedSavings := 0.0;
    }

    // ------------------------------------------------------------ queries and totals

    function ActiveExpenses(): (r: seq<ExpenseItem>)
      reads this, expenses
    {
      ActiveExpensesOf(expenses)
    }

    function SavingsGoals(): (r: seq<ExpenseItem>)
      reads this, expenses
    {
      SavingsGoalsOf(expenses)
    }

    function IncomeSources(): (r: seq<IncomeItem>)
      reads this, incomes
    {
      IncomeSourcesOf(incomes)
    }

    function Categories(): (r: seq<CategoryItem>)
      reads this, categories
    {
      CategoriesOf(categories)
    }

    function History(): (r: seq<MonthHistory>)
      reads this, histories
    {
      HistoryOf(histories)
    }

    function TotalIncomeUAH(): (r: real)
      reads this, incomes
    {
      SumBy(IncomeSources(), IncomeUAH(incomes, exchangeRate))
    }

    function TotalExpensesUAH(): (r: real)
      reads this, expenses
    {
      SumBy(ActiveExpenses(), ExpenseUAH(expenses, exchangeRate))
    }

    function TotalSavings(): (r: real)
      reads this, expenses
    {
      SumBy(SavingsGoals(), ExpenseUAH(expenses, exchangeRate))
    }

    function TotalSpent(): (r: real)
      reads this, expenses
    {
      TotalExpensesUAH() + TotalSavings()
    }

    function RemainingBalance(): (r: real)
      reads this, incomes, expenses
    {
      TotalIncomeUAH() - TotalSpent()
    }

    /** The planner's expense list. */
    function PlannerList(status: FilterStatus, option: SortOption): (r: seq<ExpenseItem>)
      reads this, expenses
    {
      ProcessedExpenses(ActiveExpenses(), status, option, exchangeRate)
    }

    /** The planner's chart. */
    function PlannerChart(f: PriorityFilter): (r: seq<(string, real)>)
      reads this, expenses
    {
      ChartData(ActiveExpenses(), f, exchangeRate)
    }

    // ------------------------------------------------------------ categories

    /**
     * "Restore Default Categories": appends one new category per name, with
     * `order` its position in `names`, whatever categories already exist.
     */
    method RestoreDefaultCategories(names: seq<string>, now: int)
      requires Valid()
      modifies this
      ensures Valid()
      ensures |categories| == |old(categories)| + |names|
      ensures categories[..|old(categories)|] == old(categories)
      ensures forall k :: |old(categories)| <= k < |categories| ==>
        var c := categories[k];
        fresh(c) && c.name == names[k - |old(categories)|] && c.order == k - |old(categories)|
        && c.icon == "circle" && c.dateAdded == now
      ensures incomes == old(incomes) && expenses == old(expenses) && histories == old(histories)
      ensures exchangeRate == old(exchangeRate) && totalAccumulatedSavings == old(totalAccumulatedSavings)
    {
      var n := |categories|;
      for i := 0 to |names|
        invariant Valid()
        invariant |categories| == n + i
        invariant categories[..n] == old(categories)
        invariant forall k :: n <= k < |categories| ==>
          var c := categories[k];
          fresh(c) && c.name == names[k - n] && c.order == k - n && c.icon == "circle" && c.dateAdded == now
        invariant incomes == old(incomes) && expenses == old(expenses) && histories == old(histories)
        invariant exchangeRate == old(exchangeRate) && totalAccumulatedSavings == old(totalAccumulatedSavings)
      {
        var c := new CategoryItem(now, names[i], order := i);
        DistinctSnoc(categories, c);
        categories := categories + [c];
      }
    }

    /** `checkFirstLaunch`: seeds the default categories only when there are none. */
    method CheckFirstLaunch(names: seq<string>, now: int)
      requires Valid()
      modifies this
      ensures Valid()
      ensures old(categories) != [] ==> categories == old(categories)
      ensures old(categories) == [] ==> |categories| == |names| && forall i :: 0 <= i < |names| ==>
        fresh(categories[i]) && categories[i].name == names[i] && categories[i].order == i && categories[i].icon == "circle"
      ensures incomes == old(incomes) && expenses == old(expenses) && histories == old(histories)
      ensures exchangeRate == old(exchangeRate) && totalAccumulatedSavings == old(totalAccumulatedSavings)
    {
      if Categories() == [] {
        RestoreDefaultCategories(names, now);
      }
    }

    /** "+ Add" in the category manager: a new category placed after the existing ones' count. */
    method AddCategory(name: string, now: int) returns (c: CategoryItem)
      requires Valid()
      modifies this
      ensures Valid()
      ensures fresh(c) && categories == old(categories) + [c]
      ensures c.name == name && c.icon == "circle" && c.order == |old(categories)| && c.dateAdded == now
      ensures incomes == old(incomes) && expenses == old(expenses) && histories == old(histories)
      ensures exchangeRate == old(exchangeRate) && totalAccumulatedSavings == old(totalAccumulatedSavings)
    {
      c := new CategoryItem(now, name, order := |categories|);
      DistinctSnoc(categories, c);
      categories := categories + [c];
    }

    // ------------------------------------------------------------ adding records

    /**
     * "+ Add Income": a new dollar source with amount 0 after the others
     * (`IncomeTotalAppendZero`: the income total stays as it was).
     */
    method AddIncome(name: string, now: int) returns (item: IncomeItem)
      requires Valid()
      modifies this
      ensures Valid()
      ensures fresh(item) && incomes == old(incomes) + [item]
      ensures item.name == name && item.amount == 0.0 && item.isUSD && item.dateAdded == now
      ensures expenses == old(expenses) && categories == old(categories) && histories == old(histories)
      ensures exchangeRate == old(exchangeRate) && totalAccumulatedSavings == old(totalAccumulatedSavings)
    {
      item := new IncomeItem(now, name, 0.0, isUSD := true);
      DistinctSnoc(incomes, item);
      incomes := incomes + [item];
    }

    /**
     * "+ Add Expense": a new unpaid, essential hryvnia expense with amount 0 in the
     * first category of the `categories` query (the lowest `order`), or in
     * `otherName` when there are no categories
     * (`ZeroExpenseKeepsTotals`: the totals stay as they were).
     */
    method AddExpense(otherName: string, now: int) returns (e: ExpenseItem)
      requires Valid()
      modifies this
      ensures Valid()
      ensures fresh(e) && expenses == old(expenses) + [e]
      ensures e.name == "" && e.amount == 0.0 && !e.isUSD && e.priority == Essential && !e.isPaid
      ensures e.monthHistory == null && e.dateAdded == now
      ensures categories == [] ==> e.categoryName == otherName
      ensures categories != [] ==>
        exists c :: c in categories && c.name == e.categoryName && forall d :: d in categories ==> c.order <= d.order
      ensures incomes == old(incomes) && categories == old(categories) && histories == old(histories)
      ensures exchangeRate == old(exchangeRate) && totalAccumulatedSavings == old(totalAccumulatedSavings)
    {
      var name := FirstCategoryName(otherName);
      e := new ExpenseItem(now, "", 0.0, name, isUSD := false, priority := Essential);
      AppendExpense(e);
    }

    /** The name of the first category of the `categories` query, or `otherName` when there is none. */
    method FirstCategoryName(otherName: string) returns (name: string)
      ensures categories == [] ==> name == otherName
      ensures categories != [] ==>
        exists c :: c in categories && c.name == name && forall d :: d in categories ==> c.order <= d.order
    {
      if categories == [] {
        name := otherName;
      } else {
        FirstCategoryLowest(categories);
        name := Categories()[0].name;
      }
    }

    /**
     * "+ Add Savings": a new hryvnia savings top-up with amount 0, listed among the
     * savings goals (`ZeroExpenseKeepsTotals`: the totals stay as they were).
     */
    method AddSavingsGoal(now: int) returns (e: ExpenseItem)
      requires Valid()
      modifies this
      ensures Valid()
      ensures fresh(e) && expenses == old(expenses) + [e]
      ensures e.name == "" && e.amount == 0.0 && !e.isUSD && e.priority == Essential && !e.isPaid
      ensures e.categoryName == SavingsCategory && e.monthHistory == null && e.dateAdded == now
      ensures e in SavingsGoals()
      ensures incomes == old(incomes) && categories == old(categories) && histories == old(histories)
      ensures exchangeRate == old(exchangeRate) && totalAccumulatedSavings == old(totalAccumulatedSavings)
    {
      e := new ExpenseItem(now, "", 0.0, SavingsCategory);
      AppendExpense(e);
      SavingsGoalsSpec(expenses);
    }

    /** Stores a new, unarchived expense after the others. */
    method AppendExpense(e: ExpenseItem)
      requires Valid()
      requires e !in expenses && e.monthHistory == null
      requires forall h :: h in histories ==> e !in h.expenses
      modifies this
      ensures Valid()
      ensures expenses == old(expenses) + [e]
      ensures incomes == old(incomes) && categories == old(categories) && histories == old(histories)
      ensures exchangeRate == old(exchangeRate) && totalAccumulatedSavings == old(totalAccumulatedSavings)
    {
      DistinctSnoc(expenses, e);
      expenses := expenses + [e];
    }

    // ------------------------------------------------------------ closing a month

    /**
     * `finishMonth`: records this month's totals in a new archived month dated the
     * 1st of the selected month, moves every active expense and savings top-up into
     * it, adds this month's savings to the balance and deletes every income source.
     * All four totals, and the two lists, are the ones the store showed before the call.
     */
    method FinishMonth(selectedYear: int, selectedMonthIndex: int, today: CalendarDate) returns (record: MonthHistory)
      requires Valid()
      requires 0 <= selectedMonthIndex < 12
      modifies this, expenses
      ensures expenses == old(expenses) && categories == old(categories) && exchangeRate == old(exchangeRate)
      ensures Valid()
      ensures fresh(record) && histories == old(histories) + [record]
      ensures record.date == CalendarDate(selectedYear, selectedMonthIndex + 1, 1)
      ensures record.totalIncomeUAH == old(TotalIncomeUAH()) && record.totalExpenses == old(TotalExpensesUAH())
      ensures record.totalSaved == old(TotalSavings()) && record.remaining == old(RemainingBalance())
      ensures record.expenses == old(ActiveExpenses()) + old(SavingsGoals())
      ensures forall e :: e in old(expenses) ==> e.monthHistory == if old(e.monthHistory) == null then record else old(e.monthHistory)
      ensures forall e :: e in old(expenses) ==> e.Details() == old(e.Details())
      ensures totalAccumulatedSavings == old(totalAccumulatedSavings) + old(TotalSavings())
      ensures incomes == []
      ensures ActiveExpenses() == [] && SavingsGoals() == [] && IncomeSources() == []
      ensures TotalIncomeUAH() == 0.0 && TotalSpent() == 0.0 && RemainingBalance() == 0.0
      ensures ExpenseTotal(record.expenses, exchangeRate) == record.totalExpenses + record.totalSaved
    {
      var active, goals := ActiveExpenses(), SavingsGoals();
      var income, spent, saved, remaining := TotalIncomeUAH(), TotalExpensesUAH(), TotalSavings(), RemainingBalance();
      CurrentMonthSplit();
      ArchivedTotal(this);
      ghost var amounts := ExpenseUAH(active + goals, exchangeRate);
      ExpenseTotalUnfold(active + goals, exchangeRate);
      record := CloseMonth(today, CalendarDate(selectedYear, selectedMonthIndex + 1, 1), income, spent, saved, remaining, active, goals);
      AllArchivedQueriesEmpty(expenses);
      ExpenseTotalUnfold(record.expenses, exchangeRate);
      SumByAgree(record.expenses, ExpenseUAH(record.expenses, exchangeRate), amounts);
    }

    /** The active expenses and the savings top-ups are, between them, each unarchived expense once. */
    lemma CurrentMonthSplit()
      requires Valid()
      ensures Distinct(ActiveExpenses() + SavingsGoals())
      ensures forall e :: e in expenses && e.monthHistory == null <==> e in ActiveExpenses() + SavingsGoals()
    {
      ActiveExpensesSpec(expenses);
      SavingsGoalsSpec(expenses);
      DistinctConcat(ActiveExpenses(), SavingsGoals());
    }

    /**
     * The state change of `finishMonth`, given the snapshot it takes first: adds a new
     * archived month with the given date and totals to the history, archives the
     * given unarchived expenses into it, adds `saved` to the savings balance and
     * deletes every income source.
     */
    method CloseMonth(today: CalendarDate, date: CalendarDate, income: real, spent: real, saved: real, remaining: real,
                        active: seq<ExpenseItem>, goals: seq<ExpenseItem>) returns (record: MonthHistory)
      requires Valid()
      requires Distinct(active + goals)
      requires forall e :: e in expenses && e.monthHistory == null <==> e in active + goals
      modifies this, expenses
      ensures Valid()
      ensures fresh(record) && histories == old(histories) + [record]
      ensures record.date == date && record.expenses == active + goals
      ensures record.totalIncomeUAH == income && record.totalExpenses == spent
      ensures record.totalSaved == saved && record.remaining == remaining
      ensures forall e :: e in old(expenses) ==> e.monthHistory == if old(e.monthHistory) == null then record else old(e.monthHistory)
      ensures forall e :: e in old(expenses) ==> e.Details() == old(e.Details())
      ensures totalAccumulatedSavings == old(totalAccumulatedSavings) + saved && incomes == []
      ensures expenses == old(expenses) && categories == old(categories) && exchangeRate == old(exchangeRate)
    {
      record := ArchiveMonth(today, date, income, spent, saved, remaining, active, goals);
      totalAccumulatedSavings := totalAccumulatedSavings + saved;
      incomes := [];
    }

    /**
     * The archiving half of `CloseMonth`: adds a new archived month with the given
     * date and totals to the history and archives the given unarchived expenses into it.
     */
    method ArchiveMonth(today: CalendarDate, date: CalendarDate, income: real, spent: real, saved: real, remaining: real,
                        active: seq<ExpenseItem>, goals: seq<ExpenseItem>) returns (record: MonthHistory)
      requires Valid()
      requires Distinct(active + goals)
      requires forall e :: e in expenses && e.monthHistory == null <==> e in active + goals
      modifies this, expenses
      ensures Valid()
      ensures fresh(record) && histories == old(histories) + [record]
      ensures record.date == date && record.expenses == active + goals
      ensures record.totalIncomeUAH == income && record.totalExpenses == spent
      ensures record.totalSaved == saved && record.remaining == remaining
      ensures forall e :: e in old(expenses) ==> e.monthHistory == if old(e.monthHistory) == null then record else old(e.monthHistory)
      ensures forall e :: e in old(expenses) ==> e.Details() == old(e.Details())
      ensures incomes == old(incomes) && expenses == old(expenses) && categories == old(categories)
      ensures exchangeRate == old(exchangeRate) && totalAccumulatedSavings == old(totalAccumulatedSavings)
    {
      record := new MonthHistory(today, income, spent, saved, remaining);
      record.date := date;
      LinkedSnoc(expenses, histories, record);
      DistinctSnoc(histories, record);
      histories := histories + [record];
      DistinctSplit(active, goals);
      assert forall e :: e in active || e in goals ==> e in active + goals;
      ArchiveInto(active, record, expenses, histories);
      ArchiveInto(goals, record, expenses, histories);
    }

    // ------------------------------------------------------------ clearing the history

    /**
     * "Clear" on the history tab: deletes every archived month and, by the cascade
     * rule of `MonthHistory.expenses`, every expense archived into one. The current
     * month's expenses stay, in their stored order (`UnarchivedQueries`: so both
     * current-month queries give what they gave before).
     */
    method ClearHistory()
      requires Valid()
      modifies this
      ensures Valid()
      ensures histories == []
      ensures expenses == Filter(old(expenses), UnarchivedSet(old(expenses)))
      ensures forall e :: e in old(expenses) ==> (e in expenses <==> e.monthHistory == null)
      ensures forall e :: e in expenses ==> e in old(expenses)
      ensures incomes == old(incomes) && categories == old(categories)
      ensures exchangeRate == old(exchangeRate) && totalAccumulatedSavings == old(totalAccumulatedSavings)
    {
      var kept := Filter(expenses, UnarchivedSet(expenses));
      FilterDistinct(expenses, UnarchivedSet(expenses));
      expenses := kept;
      histories := [];
    }

    // ------------------------------------------------------------ savings and rate

    /** "Deposit": adds the amount, converted to hryvnias, to the savings balance. */
    method Deposit(amount: real, isUSD: bool)
      requires Valid()
      modifies this
      ensures Valid()
      ensures totalAccumulatedSavings == old(totalAccumulatedSavings) + ToUAH(amount, isUSD, exchangeRate)
      ensures incomes == old(incomes) && expenses == old(expenses) && categories == old(categories)
      ensures histories == old(histories) && exchangeRate == old(exchangeRate)
    {
      totalAccumulatedSavings := totalAccumulatedSavings + ToUAH(amount, isUSD, exchangeRate);
    }

    /** "Withdraw": takes the amount, converted to hryvnias, from the savings balance; nothing stops it going below 0. */
    method Withdraw(amount: real, isUSD: bool)
      requires Valid()
      modifies this
      ensures Valid()
      ensures totalAccumulatedSavings == old(totalAccumulatedSavings) - ToUAH(amount, isUSD, exchangeRate)
      ensures incomes == old(incomes) && expenses == old(expenses) && categories == old(categories)
      ensures histories == old(histories) && exchangeRate == old(exchangeRate)
    {
      totalAccumulatedSavings := totalAccumulatedSavings - ToUAH(amount, isUSD, exchangeRate);
    }

    /**
     * Editing the rate field. The current month's totals follow the new rate, but
     * no archived month changes: their totals were stored when they were closed.
     */
    method SetExchangeRate(rate: real)
      requires Valid()
      modifies this
      ensures Valid()
      ensures exchangeRate == rate
      ensures incomes == old(incomes) && expenses == old(expenses) && categories == old(categories)
      ensures histories == old(histories) && totalAccumulatedSavings == old(totalAccumulatedSavings)
      ensures unchanged(histories) && unchanged(expenses)
    {
      exchangeRate := rate;
    }
  }

  /**
   * The loops of `finishMonth`: points each item at `record`. The store keeps the
   * inverse side, so each item also joins `record.expenses`, in loop order, and the
   * link invariant holds after every step.
   */
  method ArchiveInto(items: seq<ExpenseItem>, record: MonthHistory, expenses: seq<ExpenseItem>, histories: seq<MonthHistory>)
    requires Linked(expenses, histories) && record in histories
    requires Distinct(items)
    requires forall e :: e in items ==> e in expenses && e.monthHistory == null
    modifies (set e | e in items), record
    ensures Linked(expenses, histories)
    ensures record.expenses == old(record.expenses) + items
    ensures forall e :: e in items ==> e.monthHistory == record && e.Details() == old(e.Details())
    ensures record.date == old(record.date) && record.totalIncomeUAH == old(record.totalIncomeUAH)
    ensures record.totalExpenses == old(record.totalExpenses) && record.totalSaved == old(record.totalSaved)
    ensures record.remaining == old(record.remaining)
  {
    for i := 0 to |items|
      invariant Linked(expenses, histories)
      invariant record.expenses == old(record.expenses) + items[..i]
      invariant forall k :: 0 <= k < i ==> items[k].monthHistory == record
      invariant forall k :: i <= k < |items| ==> items[k].monthHistory == null
      invariant forall k :: 0 <= k < |items| ==> items[k].Details() == old(items[k].Details())
      invariant record.date == old(record.date) && record.totalIncomeUAH == old(record.totalIncomeUAH)
      invariant record.totalExpenses == old(record.totalExpenses) && record.totalSaved == old(record.totalSaved)
      invariant record.remaining == old(record.remaining)
    {
      ArchiveOne(items[i], record, expenses, histories);
    }
    assert items[..|items|] == items;
  }

  /** Moves one current-month expense into an archived month. */
  method ArchiveOne(e: ExpenseItem, record: MonthHistory, expenses: seq<ExpenseItem>, histories: seq<MonthHistory>)
    requires Linked(expenses, histories) && record in histories
    requires e in expenses && e.monthHistory == null
    modifies e, record
    ensures Linked(expenses, histories)
    ensures e.monthHistory == record && e.Details() == old(e.Details())
    ensures record.expenses == old(record.expenses) + [e]
    ensures record.date == old(record.date) && record.totalIncomeUAH == old(record.totalIncomeUAH)
    ensures record.totalExpenses == old(record.totalExpenses) && record.totalSaved == old(record.totalSaved)
    ensures record.remaining == old(record.remaining)
  {
    e.monthHistory := record;
    record.expenses := record.expenses + [e];
  }

  // ---------------------------------------------------------------- lemmas about the store

  /** A new archived month that lists nothing and that nothing names keeps the link invariant. */
  lemma LinkedSnoc(expenses: seq<ExpenseItem>, histories: seq<MonthHistory>, record: MonthHistory)
    requires Linked(expenses, histories)
    requires record.expenses == []
    requires forall e :: e in expenses ==> e.monthHistory != record
    ensures Linked(expenses, histories + [record])
  {
  }

  /** The four totals are the `reduce` sums over the queries' results. */
  lemma TotalsAsQueries(st: BudgetStore)
    ensures st.TotalIncomeUAH() == IncomeTotal(st.IncomeSources(), st.exchangeRate)
    ensures st.TotalExpensesUAH() == ExpenseTotal(st.ActiveExpenses(), st.exchangeRate)
    ensures st.TotalSavings() == ExpenseTotal(st.SavingsGoals(), st.exchangeRate)
  {
    IncomeTotalWithin(st.IncomeSources(), st.incomes, st.exchangeRate);
    ExpenseTotalWithin(st.ActiveExpenses(), st.expenses, st.exchangeRate);
    ExpenseTotalWithin(st.SavingsGoals(), st.expenses, st.exchangeRate);
  }

  /**
   * What closing a month archives, the active expenses followed by the savings
   * top-ups, totals what the store shows as spent: the month's expenses plus its savings.
   */
  lemma ArchivedTotal(st: BudgetStore)
    ensures ExpenseTotal(st.ActiveExpenses() + st.SavingsGoals(), st.exchangeRate) == st.TotalExpensesUAH() + st.TotalSavings()
  {
    TotalsAsQueries(st);
    ExpenseTotalConcat(st.ActiveExpenses(), st.SavingsGoals(), st.exchangeRate);
  }

  /** A new income of amount 0 adds nothing to the income total. */
  lemma IncomeTotalAppendZero(s: seq<IncomeItem>, item: IncomeItem, rate: real)
    requires item.amount == 0.0
    ensures IncomeTotal(s + [item], rate) == IncomeTotal(s, rate)
  {
    IncomeTotalConcat(s, [item], rate);
    IncomeTotalSingleton(item, rate);
  }

  /** A new unarchived expense of amount 0 changes neither current-month total. */
  lemma ZeroExpenseKeepsTotals(s: seq<ExpenseItem>, e: ExpenseItem, rate: real)
    requires e !in s && e.monthHistory == null && e.amount == 0.0
    ensures ExpenseTotal(ActiveExpensesOf(s + [e]), rate) == ExpenseTotal(ActiveExpensesOf(s), rate)
    ensures ExpenseTotal(SavingsGoalsOf(s + [e]), rate) == ExpenseTotal(SavingsGoalsOf(s), rate)
  {
    var t := s + [e];
    AppendZeroFilter(s, e, ActiveSet(s), ActiveSet(t), rate);
    AppendZeroFilter(s, e, SavingsSet(s), SavingsSet(t), rate);
    ActiveExpensesSpec(s);
    ActiveExpensesSpec(t);
    SavingsGoalsSpec(s);
    SavingsGoalsSpec(t);
    ExpenseTotalPermutation(ActiveExpensesOf(t), Filter(t, ActiveSet(t)), rate);
    ExpenseTotalPermutation(ActiveExpensesOf(s), Filter(s, ActiveSet(s)), rate);
    ExpenseTotalPermutation(SavingsGoalsOf(t), Filter(t, SavingsSet(t)), rate);
    ExpenseTotalPermutation(SavingsGoalsOf(s), Filter(s, SavingsSet(s)), rate);
  }

  lemma AppendZeroFilter(s: seq<ExpenseItem>, e: ExpenseItem, keep: set<ExpenseItem>, keep': set<ExpenseItem>, rate: real)
    requires e.amount == 0.0
    requires forall x :: x in s ==> (x in keep <==> x in keep')
    ensures ExpenseTotal(Filter(s + [e], keep'), rate) == ExpenseTotal(Filter(s, keep), rate)
  {
    FilterConcat(s, [e], keep');
    FilterAgree(s, keep', keep);
    var single := Filter([e], keep');
    assert [e][1..] == [];
    assert single == (if e in keep' then [e] else []) + Filter([], keep');
    ExpenseTotalConcat(Filter(s, keep), single, rate);
    ExpenseTotalSingleton(e, rate);
    ExpenseTotalUnfold(single, rate);
  }

  /**
   * The remaining balance is the income minus every expense of the current month,
   * savings top-ups included, whatever order the queries list them in.
   */
  lemma BalanceSpec(st: BudgetStore)
    ensures st.TotalIncomeUAH() == IncomeTotal(st.incomes, st.exchangeRate)
    ensures st.TotalSpent() == ExpenseTotal(Filter(st.expenses, UnarchivedSet(st.expenses)), st.exchangeRate)
    ensures st.RemainingBalance()
         == IncomeTotal(st.incomes, st.exchangeRate) - ExpenseTotal(Filter(st.expenses, UnarchivedSet(st.expenses)), st.exchangeRate)
  {
    TotalsAsQueries(st);
    IncomeTotalPermutation(st.IncomeSources(), st.incomes, st.exchangeRate);
    QueriesPartition(st.expenses, st.exchangeRate);
  }
}
