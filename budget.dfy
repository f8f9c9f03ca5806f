/**
 * The planner's computations over the records: currency conversion and the
 * monthly totals, the current-month queries, the planner's filter-and-sort
 * pipeline, the priority and payment filters, and the groupings behind the
 * expense chart and the history tab.
 *
 * Every computation reads the records' fields once into a `map` or a `set` and
 * hands it to the combinators of `Seqs`.
 */
module Budget {
  import opened Seqs
  import opened Records

  /** The category name that marks an expense as a savings top-up. */
  const SavingsCategory: string := "savings"

  /** The stored exchange rate (UAH per USD) before the user changes it. */
  const DefaultExchangeRate: real := 41.5

  /** The planner's sort order for the expense list. */
  datatype SortOption = DateDesc | DateAsc | AmountDesc | AmountAsc

  /** The planner's payment-status filter. */
  datatype FilterStatus = All | Paid | Unpaid

  /** Three priority toggles; a priority is shown while its toggle is on. */
  datatype PriorityFilter = PriorityFilter(essential: bool, neededNow: bool, want: bool)

  const ShowAllPriorities := PriorityFilter(true, true, true)

  // ---------------------------------------------------------------- orders

  predicate RealAbove(a: real, b: real) { a > b }
  predicate RealBelow(a: real, b: real) { a < b }
  predicate IntAbove(a: int, b: int) { a > b }

  /**
   * The comparisons the queries sort by are strict orders (and `IntAbove` total).
   * Dafny proves this unaided; it is named so that callers can bring the facts into scope.
   */
  lemma OrdersAreStrict()
    ensures StrictOrder(RealAbove)
    ensures StrictOrder(RealBelow)
    ensures StrictOrder(IntAbove) && Total(IntAbove)
  {
  }

  // ---------------------------------------------------------------- conversion and totals

  /** `toUAH`: a dollar amount counts `rate` hryvnias per dollar, a hryvnia amount counts as it is. */
  function ToUAH(amount: real, isUSD: bool, rate: real): (r: real)
  {
    if isUSD then amount * rate else amount
  }

  /** Each expense's amount in hryvnias. */
  function ExpenseUAH(s: seq<ExpenseItem>, rate: real): (m: map<ExpenseItem, real>)
    reads s
    ensures forall e :: e in s ==> e in m && m[e] == ToUAH(e.amount, e.isUSD, rate)
  {
    map e | e in s :: ToUAH(e.amount, e.isUSD, rate)
  }

  /** `reduce(0) { $0 + toUAH(amount: $1.amount, isUSD: $1.isUSD) }` over expenses. */
  function ExpenseTotal(s: seq<ExpenseItem>, rate: real): (r: real)
    reads s
  {
    SumBy(s, ExpenseUAH(s, rate))
  }

  /** Each income's amount in hryvnias. */
  function IncomeUAH(s: seq<IncomeItem>, rate: real): (m: map<IncomeItem, real>)
    reads s
    ensures forall i :: i in s ==> i in m && m[i] == ToUAH(i.amount, i.isUSD, rate)
  {
    map i | i in s :: ToUAH(i.amount, i.isUSD, rate)
  }

  /** `reduce(0) { $0 + toUAH(amount: $1.amount, isUSD: $1.isUSD) }` over income sources. */
  function IncomeTotal(s: seq<IncomeItem>, rate: real): (r: real)
    reads s
  {
    SumBy(s, IncomeUAH(s, rate))
  }

  /** With every amount in hryvnias, the exchange rate does not matter. */
  lemma ExpenseTotalHryvniaOnly(s: seq<ExpenseItem>, rate: real, other: real)
    requires forall e :: e in s ==> !e.isUSD
    ensures ExpenseTotal(s, rate) == ExpenseTotal(s, other)
  {
    ExpenseTotalUnfold(s, rate);
    ExpenseTotalUnfold(s, other);
    SumByAgree(s, ExpenseUAH(s, rate), ExpenseUAH(s, other));
  }

  lemma IncomeTotalHryvniaOnly(s: seq<IncomeItem>, rate: real, other: real)
    requires forall i :: i in s ==> !i.isUSD
    ensures IncomeTotal(s, rate) == IncomeTotal(s, other)
  {
    IncomeTotalUnfold(s, rate);
    IncomeTotalUnfold(s, other);
    SumByAgree(s, IncomeUAH(s, rate), IncomeUAH(s, other));
  }

  /** The total of a part of a larger list may be computed with the larger list's conversion. */
  lemma ExpenseTotalWithin(s: seq<ExpenseItem>, big: seq<ExpenseItem>, rate: real)
    requires forall e :: e in s ==> e in big
    ensures ExpenseTotal(s, rate) == SumBy(s, ExpenseUAH(big, rate))
  {
    ExpenseTotalUnfold(s, rate);
    SumByAgree(s, ExpenseUAH(s, rate), ExpenseUAH(big, rate));
  }

  /**
   * The totals as sums. These restate the definitions and need no proof; they are
   * called where Dafny would not unfold a total by itself (for a list built in the proof).
   */
  lemma ExpenseTotalUnfold(s: seq<ExpenseItem>, rate: real)
    ensures ExpenseTotal(s, rate) == SumBy(s, ExpenseUAH(s, rate))
  {
  }

  lemma IncomeTotalUnfold(s: seq<IncomeItem>, rate: real)
    ensures IncomeTotal(s, rate) == SumBy(s, IncomeUAH(s, rate))
  {
  }

  /** The total of one expense is its hryvnia amount. */
  lemma ExpenseTotalSingleton(e: ExpenseItem, rate: real)
    ensures ExpenseTotal([e], rate) == ToUAH(e.amount, e.isUSD, rate)
  {
    ExpenseTotalUnfold([e], rate);
    var m := ExpenseUAH([e], rate);
    assert [e][1..] == [];
    assert SumBy([e], m) == m[e] + SumBy([e][1..], m);
  }

  lemma IncomeTotalSingleton(i: IncomeItem, rate: real)
    ensures IncomeTotal([i], rate) == ToUAH(i.amount, i.isUSD, rate)
  {
    IncomeTotalUnfold([i], rate);
    var m := IncomeUAH([i], rate);
    assert [i][1..] == [];
    assert SumBy([i], m) == m[i] + SumBy([i][1..], m);
  }

  lemma IncomeTotalConcat(a: seq<IncomeItem>, b: seq<IncomeItem>, rate: real)
    ensures IncomeTotal(a + b, rate) == IncomeTotal(a, rate) + IncomeTotal(b, rate)
  {
    IncomeTotalUnfold(a + b, rate);
    IncomeTotalUnfold(a, rate);
    IncomeTotalUnfold(b, rate);
    var m := IncomeUAH(a + b, rate);
    SumByConcat(a, b, m);
    SumByAgree(a, IncomeUAH(a, rate), m);
    SumByAgree(b, IncomeUAH(b, rate), m);
  }

  lemma IncomeTotalWithin(s: seq<IncomeItem>, big: seq<IncomeItem>, rate: real)
    requires forall i :: i in s ==> i in big
    ensures IncomeTotal(s, rate) == SumBy(s, IncomeUAH(big, rate))
  {
    IncomeTotalUnfold(s, rate);
    SumByAgree(s, IncomeUAH(s, rate), IncomeUAH(big, rate));
  }

  /** Totals add up over concatenation. */
  lemma ExpenseTotalConcat(a: seq<ExpenseItem>, b: seq<ExpenseItem>, rate: real)
    ensures ExpenseTotal(a + b, rate) == ExpenseTotal(a, rate) + ExpenseTotal(b, rate)
  {
    var m := ExpenseUAH(a + b, rate);
    SumByConcat(a, b, m);
    ExpenseTotalWithin(a, a + b, rate);
    ExpenseTotalWithin(b, a + b, rate);
  }

  /** Totals do not depend on the order of the list. */
  lemma ExpenseTotalPermutation(a: seq<ExpenseItem>, b: seq<ExpenseItem>, rate: real)
    requires multiset(a) == multiset(b)
    ensures ExpenseTotal(a, rate) == ExpenseTotal(b, rate)
  {
    assert forall e :: e in b ==> e in multiset(a);
    SumByPermutation(a, b, ExpenseUAH(a, rate));
    ExpenseTotalWithin(b, a, rate);
  }

  lemma IncomeTotalPermutation(a: seq<IncomeItem>, b: seq<IncomeItem>, rate: real)
    requires multiset(a) == multiset(b)
    ensures IncomeTotal(a, rate) == IncomeTotal(b, rate)
  {
    assert forall i :: i in b ==> i in multiset(a);
    SumByPermutation(a, b, IncomeUAH(a, rate));
    SumByAgree(b, IncomeUAH(a, rate), IncomeUAH(b, rate));
  }

  // ---------------------------------------------------------------- current-month queries

  /** The `activeExpenses` predicate: not yet archived, and not a savings top-up. */
  predicate IsActiveExpense(e: ExpenseItem)
    reads e
  {
    e.monthHistory == null && e.categoryName != SavingsCategory
  }

  /** The `savingsGoals` predicate: not yet archived, and a savings top-up. */
  predicate IsSavingsGoal(e: ExpenseItem)
    reads e
  {
    e.monthHistory == null && e.categoryName == SavingsCategory
  }

  function ActiveSet(s: seq<ExpenseItem>): (r: set<ExpenseItem>)
    reads s
    ensures forall e :: e in r ==> e in s && IsActiveExpense(e)
    ensures forall e :: e in s && IsActiveExpense(e) ==> e in r
  {
    set e | e in s && IsActiveExpense(e)
  }

  function SavingsSet(s: seq<ExpenseItem>): (r: set<ExpenseItem>)
    reads s
    ensures forall e :: e in r ==> e in s && IsSavingsGoal(e)
    ensures forall e :: e in s && IsSavingsGoal(e) ==> e in r
  {
    set e | e in s && IsSavingsGoal(e)
  }

  /** The expenses of `s` that belong to the current month. */
  function UnarchivedSet(s: seq<ExpenseItem>): (r: set<ExpenseItem>)
    reads s
    ensures forall e :: e in r ==> e in s && e.monthHistory == null
    ensures forall e :: e in s && e.monthHistory == null ==> e in r
  {
    set e | e in s && e.monthHistory == null
  }

  /** Each expense's `dateAdded`, as a sort key. */
  function AddedKeys(s: seq<ExpenseItem>): (m: map<ExpenseItem, real>)
    reads s
    ensures forall e :: e in s ==> e in m && m[e] == e.dateAdded as real
  {
    map e | e in s :: e.dateAdded as real
  }

  /** The `activeExpenses` query: the active expenses, newest first. */
  function ActiveExpensesOf(s: seq<ExpenseItem>): (r: seq<ExpenseItem>)
    reads s
    ensures forall e :: e in r ==> e in s
  {
    SortBy(Filter(s, ActiveSet(s)), AddedKeys(s), RealAbove)
  }

  /** The `savingsGoals` query: the savings top-ups of the current month, oldest first. */
  function SavingsGoalsOf(s: seq<ExpenseItem>): (r: seq<ExpenseItem>)
    reads s
    ensures forall e :: e in r ==> e in s
  {
    SortBy(Filter(s, SavingsSet(s)), AddedKeys(s), RealBelow)
  }

  /** The `incomeSources` query: every income source, oldest first. */
  function IncomeSourcesOf(s: seq<IncomeItem>): (r: seq<IncomeItem>)
    reads s
    ensures forall i :: i in r ==> i in s
  {
    SortBy(s, map i | i in s :: i.dateAdded as real, RealBelow)
  }

  /** The `categories` query: every category, by ascending `order`. */
  function CategoriesOf(s: seq<CategoryItem>): (r: seq<CategoryItem>)
    reads s
  {
    SortBy(s, map c | c in s :: c.order as real, RealBelow)
  }

  /** The `history` query: every archived month, latest date first. */
  function HistoryOf(s: seq<MonthHistory>): (r: seq<MonthHistory>)
    reads s
  {
    SortBy(s, map h | h in s :: h.date, DateAfter)
  }

  /** The active-expense query returns exactly the active expenses, newest first, each once. */
  lemma ActiveExpensesSpec(s: seq<ExpenseItem>)
    ensures forall e :: e in ActiveExpensesOf(s) <==> e in s && IsActiveExpense(e)
    ensures var r := ActiveExpensesOf(s);
      forall i, j :: 0 <= i < j < |r| ==> r[i].dateAdded >= r[j].dateAdded
    ensures Distinct(s) ==> Distinct(ActiveExpensesOf(s))
    ensures multiset(ActiveExpensesOf(s)) == multiset(Filter(s, ActiveSet(s)))
  {
    var a := Filter(s, ActiveSet(s));
    var r := ActiveExpensesOf(s);
    OrdersAreStrict();
    SortBySorted(a, AddedKeys(s), RealAbove);
    forall i, j | 0 <= i < j < |r| ensures r[i].dateAdded >= r[j].dateAdded {
      assert !RealAbove(AddedKeys(s)[r[j]], AddedKeys(s)[r[i]]);
    }
    if Distinct(s) {
      FilterDistinct(s, ActiveSet(s));
      DistinctPermutation(a, r);
    }
  }

  /**
   * The current-month queries look only at current-month expenses: dropping the
   * archived ones changes neither result.
   */
  lemma UnarchivedQueries(s: seq<ExpenseItem>)
    ensures ActiveExpensesOf(Filter(s, UnarchivedSet(s))) == ActiveExpensesOf(s)
    ensures SavingsGoalsOf(Filter(s, UnarchivedSet(s))) == SavingsGoalsOf(s)
  {
    var u := UnarchivedSet(s);
    var t := Filter(s, u);
    var a, g := ActiveSet(s), SavingsSet(s);
    FilterAgree(t, ActiveSet(t), a);
    FilterAgree(t, SavingsSet(t), g);
    FilterOfFilter(s, u, a);
    FilterOfFilter(s, u, g);
    FilterAgree(s, u * a, a);
    FilterAgree(s, u * g, g);
    SortByAgree(Filter(s, a), AddedKeys(t), AddedKeys(s), RealAbove);
    SortByAgree(Filter(s, g), AddedKeys(t), AddedKeys(s), RealBelow);
  }

  /** Once every expense is archived, both current-month queries are empty. */
  lemma AllArchivedQueriesEmpty(s: seq<ExpenseItem>)
    requires forall e :: e in s ==> e.monthHistory != null
    ensures ActiveExpensesOf(s) == [] && SavingsGoalsOf(s) == []
  {
    FilterKeepsNone(s, ActiveSet(s));
    FilterKeepsNone(s, SavingsSet(s));
    ActiveExpensesSpec(s);
    SavingsGoalsSpec(s);
  }

  /** The savings query returns exactly the current savings top-ups, oldest first, each once. */
  lemma SavingsGoalsSpec(s: seq<ExpenseItem>)
    ensures forall e :: e in SavingsGoalsOf(s) <==> e in s && IsSavingsGoal(e)
    ensures var r := SavingsGoalsOf(s);
      forall i, j :: 0 <= i < j < |r| ==> r[i].dateAdded <= r[j].dateAdded
    ensures Distinct(s) ==> Distinct(SavingsGoalsOf(s))
    ensures multiset(SavingsGoalsOf(s)) == multiset(Filter(s, SavingsSet(s)))
  {
    var a := Filter(s, SavingsSet(s));
    var r := SavingsGoalsOf(s);
    OrdersAreStrict();
    SortBySorted(a, AddedKeys(s), RealBelow);
    forall i, j | 0 <= i < j < |r| ensures r[i].dateAdded <= r[j].dateAdded {
      assert !RealBelow(AddedKeys(s)[r[j]], AddedKeys(s)[r[i]]);
    }
    if Distinct(s) {
      FilterDistinct(s, SavingsSet(s));
      DistinctPermutation(a, r);
    }
  }

  /** The categories query lists every category once, by ascending `order`. */
  lemma CategoriesSpec(s: seq<CategoryItem>)
    ensures multiset(CategoriesOf(s)) == multiset(s)
    ensures var r := CategoriesOf(s);
      forall i, j :: 0 <= i < j < |r| ==> r[i].order <= r[j].order
  {
    var key := map c | c in s :: c.order as real;
    var r := CategoriesOf(s);
    OrdersAreStrict();
    SortBySorted(s, key, RealBelow);
    forall i, j | 0 <= i < j < |r| ensures r[i].order <= r[j].order {
      assert !RealBelow(key[r[j]], key[r[i]]);
    }
  }

  /** The first category the query lists has the lowest `order` of all. */
  lemma FirstCategoryLowest(s: seq<CategoryItem>)
    requires s != []
    ensures CategoriesOf(s) != [] && CategoriesOf(s)[0] in s
    ensures forall d :: d in s ==> CategoriesOf(s)[0].order <= d.order
  {
    var r := CategoriesOf(s);
    CategoriesSpec(s);
    assert s[0] in multiset(r);
    assert r[0] in multiset(s);
    forall d | d in s ensures r[0].order <= d.order {
      assert d in multiset(r);
      var k :| 0 <= k < |r| && r[k] == d;
    }
  }

  /** The income query lists every income source as often as stored, oldest first. */
  lemma IncomeSourcesSpec(s: seq<IncomeItem>)
    ensures multiset(IncomeSourcesOf(s)) == multiset(s)
    ensures var r := IncomeSourcesOf(s);
      forall i, j :: 0 <= i < j < |r| ==> r[i].dateAdded <= r[j].dateAdded
  {
    var key := map i | i in s :: i.dateAdded as real;
    var r := IncomeSourcesOf(s);
    OrdersAreStrict();
    SortBySorted(s, key, RealBelow);
    forall i, j | 0 <= i < j < |r| ensures r[i].dateAdded <= r[j].dateAdded {
      assert !RealBelow(key[r[j]], key[r[i]]);
    }
  }

  /** The history query lists every archived month once, latest first. */
  lemma HistorySpec(s: seq<MonthHistory>)
    ensures multiset(HistoryOf(s)) == multiset(s)
    ensures var r := HistoryOf(s);
      forall i, j :: 0 <= i < j < |r| ==> !DateAfter(r[j].date, r[i].date)
  {
    var key := map h | h in s :: h.date;
    DateAfterIsStrictOrder();
    SortBySorted(s, key, DateAfter);
  }

  /**
   * The two current-month queries split the current month: no expense is in both,
   * and together they hold every unarchived expense exactly as often as the store does.
   */
  lemma QueriesPartition(s: seq<ExpenseItem>, rate: real)
    ensures forall e :: e in ActiveExpensesOf(s) ==> e !in SavingsGoalsOf(s)
    ensures multiset(ActiveExpensesOf(s)) + multiset(SavingsGoalsOf(s)) == multiset(Filter(s, UnarchivedSet(s)))
    ensures ExpenseTotal(ActiveExpensesOf(s), rate) + ExpenseTotal(SavingsGoalsOf(s), rate)
         == ExpenseTotal(Filter(s, UnarchivedSet(s)), rate)
  {
    ActiveExpensesSpec(s);
    SavingsGoalsSpec(s);
    var a, g := ActiveExpensesOf(s), SavingsGoalsOf(s);
    FilterDisjointUnion(s, ActiveSet(s), SavingsSet(s));
    FilterAgree(s, ActiveSet(s) + SavingsSet(s), UnarchivedSet(s));
    assert multiset(a + g) == multiset(Filter(s, UnarchivedSet(s)));
    ExpenseTotalConcat(a, g, rate);
    ExpenseTotalPermutation(a + g, Filter(s, UnarchivedSet(s)), rate);
  }

  // ---------------------------------------------------------------- planner pipeline

  /** Whether the status filter lets an expense through. */
  predicate StatusAllows(status: FilterStatus, e: ExpenseItem)
    reads e
  {
    match status
    case All => true
    case Paid => e.isPaid
    case Unpaid => !e.isPaid
  }

  function StatusSet(s: seq<ExpenseItem>, status: FilterStatus): (r: set<ExpenseItem>)
    reads s
    ensures forall e :: e in r ==> e in s && StatusAllows(status, e)
    ensures forall e :: e in s && StatusAllows(status, e) ==> e in r
  {
    set e | e in s && StatusAllows(status, e)
  }

  /** Step 1 of `processedExpenses`: the expenses the status filter lets through, in order. */
  function StatusFilter(s: seq<ExpenseItem>, status: FilterStatus): (r: seq<ExpenseItem>)
    reads s
  {
    Filter(s, StatusSet(s, status))
  }

  lemma StatusFilterSpec(s: seq<ExpenseItem>, status: FilterStatus)
    ensures status == All ==> StatusFilter(s, status) == s
    ensures status == Paid ==> forall e :: e in StatusFilter(s, status) <==> e in s && e.isPaid
    ensures status == Unpaid ==> forall e :: e in StatusFilter(s, status) <==> e in s && !e.isPaid
    ensures IsSubsequence(StatusFilter(s, status), s)
    ensures StatusFilter(StatusFilter(s, status), status) == StatusFilter(s, status)
  {
    var r := StatusFilter(s, status);
    if status == All {
      FilterKeepsAll(s, StatusSet(s, status));
    }
    FilterIsSubsequence(s, StatusSet(s, status));
    FilterAgree(r, StatusSet(r, status), StatusSet(s, status));
    FilterIdempotent(s, StatusSet(s, status));
  }

  /** The paid and the unpaid expenses split the list and its total. */
  lemma PaidUnpaidSplit(s: seq<ExpenseItem>, rate: real)
    ensures multiset(StatusFilter(s, Paid)) + multiset(StatusFilter(s, Unpaid)) == multiset(s)
    ensures ExpenseTotal(StatusFilter(s, Paid), rate) + ExpenseTotal(StatusFilter(s, Unpaid), rate) == ExpenseTotal(s, rate)
  {
    var p, u := StatusSet(s, Paid), StatusSet(s, Unpaid);
    FilterDisjointUnion(s, p, u);
    FilterKeepsAll(s, p + u);
    SumByFilterSplit(s, p, u, ExpenseUAH(s, rate));
    ExpenseTotalWithin(Filter(s, p), s, rate);
    ExpenseTotalWithin(Filter(s, u), s, rate);
  }

  /** The key the planner sorts by: the date added, or the amount in hryvnias. */
  function SortKey(e: ExpenseItem, option: SortOption, rate: real): (r: real)
    reads e
  {
    match option
    case DateDesc => e.dateAdded as real
    case DateAsc => e.dateAdded as real
    case AmountDesc => ToUAH(e.amount, e.isUSD, rate)
    case AmountAsc => ToUAH(e.amount, e.isUSD, rate)
  }

  function SortKeys(s: seq<ExpenseItem>, option: SortOption, rate: real): (m: map<ExpenseItem, real>)
    reads s
    ensures forall e :: e in s ==> e in m && m[e] == SortKey(e, option, rate)
  {
    map e | e in s :: SortKey(e, option, rate)
  }

  /** Descending options put the larger key first, ascending ones the smaller. */
  function Precedes(option: SortOption): (real, real) -> bool
  {
    if option == DateDesc || option == AmountDesc then RealAbove else RealBelow
  }

  /** `processedExpenses`: the active expenses through the status filter, then sorted by `option`. */
  function ProcessedExpenses(active: seq<ExpenseItem>, status: FilterStatus, option: SortOption, rate: real): (r: seq<ExpenseItem>)
    reads set e | e in active
  {
    var f := StatusFilter(active, status);
    SortBy(f, SortKeys(f, option, rate), Precedes(option))
  }

  /** The planner list holds the filtered expenses, each as often as before, in the order `option` asks for. */
  lemma ProcessedExpensesSpec(active: seq<ExpenseItem>, status: FilterStatus, option: SortOption, rate: real)
    ensures multiset(ProcessedExpenses(active, status, option, rate)) == multiset(StatusFilter(active, status))
    ensures var r := ProcessedExpenses(active, status, option, rate);
      option == DateDesc ==> forall i, j :: 0 <= i < j < |r| ==> r[i].dateAdded >= r[j].dateAdded
    ensures var r := ProcessedExpenses(active, status, option, rate);
      option == DateAsc ==> forall i, j :: 0 <= i < j < |r| ==> r[i].dateAdded <= r[j].dateAdded
    ensures var r := ProcessedExpenses(active, status, option, rate);
      option == AmountDesc ==> forall i, j :: 0 <= i < j < |r| ==>
        ToUAH(r[i].amount, r[i].isUSD, rate) >= ToUAH(r[j].amount, r[j].isUSD, rate)
    ensures var r := ProcessedExpenses(active, status, option, rate);
      option == AmountAsc ==> forall i, j :: 0 <= i < j < |r| ==>
        ToUAH(r[i].amount, r[i].isUSD, rate) <= ToUAH(r[j].amount, r[j].isUSD, rate)
  {
    var f := StatusFilter(active, status);
    var key := SortKeys(f, option, rate);
    var r := ProcessedExpenses(active, status, option, rate);
    OrdersAreStrict();
    SortBySorted(f, key, Precedes(option));
    forall i, j | 0 <= i < j < |r|
      ensures option == DateDesc || option == AmountDesc ==> SortKey(r[i], option, rate) >= SortKey(r[j], option, rate)
      ensures option == DateAsc || option == AmountAsc ==> SortKey(r[i], option, rate) <= SortKey(r[j], option, rate)
    {
      assert r[i] in f && r[j] in f;
      assert !Precedes(option)(key[r[j]], key[r[i]]);
    }
  }

  // ---------------------------------------------------------------- priority filters

  /** Whether the toggles show priority `p`. */
  predicate PriorityAllowed(f: PriorityFilter, p: Priority)
  {
    match p
    case Essential => f.essential
    case NeededNow => f.neededNow
    case Want => f.want
  }

  function PrioritySet(s: seq<ExpenseItem>, f: PriorityFilter): (r: set<ExpenseItem>)
    reads s
    ensures forall e :: e in r ==> e in s && PriorityAllowed(f, e.priority)
    ensures forall e :: e in s && PriorityAllowed(f, e.priority) ==> e in r
  {
    set e | e in s && PriorityAllowed(f, e.priority)
  }

  /** The chart filter (`filteredForChart`): the expenses whose priority is toggled on, in order. */
  function PriorityFiltered(s: seq<ExpenseItem>, f: PriorityFilter): (r: seq<ExpenseItem>)
    reads s
  {
    Filter(s, PrioritySet(s, f))
  }

  function HistoryFilterSet(s: seq<ExpenseItem>, f: PriorityFilter, status: FilterStatus): (r: set<ExpenseItem>)
    reads s
    ensures forall e :: e in r ==> e in s && PriorityAllowed(f, e.priority) && StatusAllows(status, e)
    ensures forall e :: e in s && PriorityAllowed(f, e.priority) && StatusAllows(status, e) ==> e in r
  {
    set e | e in s && PriorityAllowed(f, e.priority) && StatusAllows(status, e)
  }

  /** `filterExpenses`: an archived month's expenses through the priority toggles and the status filter. */
  function FilterExpenses(s: seq<ExpenseItem>, f: PriorityFilter, status: FilterStatus): (r: seq<ExpenseItem>)
    reads s
  {
    Filter(s, HistoryFilterSet(s, f, status))
  }

  /** The priority filter shows exactly the toggled-on priorities, in order; with every toggle on it changes nothing. */
  lemma PriorityFilteredSpec(s: seq<ExpenseItem>, f: PriorityFilter)
    ensures forall e :: e in PriorityFiltered(s, f) <==> e in s && PriorityAllowed(f, e.priority)
    ensures IsSubsequence(PriorityFiltered(s, f), s)
    ensures f == ShowAllPriorities ==> PriorityFiltered(s, f) == s
  {
    FilterIsSubsequence(s, PrioritySet(s, f));
    if f == ShowAllPriorities {
      FilterKeepsAll(s, PrioritySet(s, f));
    }
  }

  /** `filterExpenses` is the priority filter followed by the status filter, and the other way round. */
  lemma FilterExpensesSpec(s: seq<ExpenseItem>, f: PriorityFilter, status: FilterStatus)
    ensures FilterExpenses(s, f, status) == StatusFilter(PriorityFiltered(s, f), status)
    ensures FilterExpenses(s, f, status) == PriorityFiltered(StatusFilter(s, status), f)
  {
    var p, t, h := PrioritySet(s, f), StatusSet(s, status), HistoryFilterSet(s, f, status);
    var ps, ts := PriorityFiltered(s, f), StatusFilter(s, status);
    FilterAgree(ps, StatusSet(ps, status), t);
    FilterOfFilter(s, p, t);
    FilterAgree(s, p * t, h);
    FilterAgree(ts, PrioritySet(ts, f), p);
    FilterOfFilter(s, t, p);
    FilterAgree(s, t * p, h);
  }

  // ---------------------------------------------------------------- category groupings

  /** Each expense's category name, as a grouping key. */
  function CategoryKey(s: seq<ExpenseItem>): (m: map<ExpenseItem, string>)
    reads s
    ensures forall e :: e in s ==> e in m && m[e] == e.categoryName
  {
    map e | e in s :: e.categoryName
  }

  function InCategory(s: seq<ExpenseItem>, name: string): (r: set<ExpenseItem>)
    reads s
    ensures forall e :: e in r ==> e in s && e.categoryName == name
    ensures forall e :: e in s && e.categoryName == name ==> e in r
  {
    set e | e in s && e.categoryName == name
  }

  /** The expenses of category `name`, in the order of `s`. */
  function CategoryExpenses(s: seq<ExpenseItem>, name: string): (r: seq<ExpenseItem>)
    reads s
  {
    Filter(s, InCategory(s, name))
  }

  /**
   * The category chart data (`groupedData`): one `(category, total)` pair per
   * category of `s`, largest total first. Used for the planner's chart on the
   * priority-filtered active expenses and for each archived month's chart.
   */
  function CategoryTotals(s: seq<ExpenseItem>, rate: real): (r: seq<(string, real)>)
    reads s
  {
    var key := CategoryKey(s);
    var pairs := GroupSums(GroupKeys(s, key), s, key, ExpenseUAH(s, rate));
    SortBy(pairs, Seconds(pairs), RealAbove)
  }

  /** A group of the grouping by category is that category's expenses, and its sum is their total. */
  lemma CategoryGroup(s: seq<ExpenseItem>, name: string, rate: real)
    ensures Filter(s, WithKey(CategoryKey(s), name)) == CategoryExpenses(s, name)
    ensures SumBy(CategoryExpenses(s, name), ExpenseUAH(s, rate)) == ExpenseTotal(CategoryExpenses(s, name), rate)
  {
    FilterAgree(s, WithKey(CategoryKey(s), name), InCategory(s, name));
    ExpenseTotalWithin(CategoryExpenses(s, name), s, rate);
  }

  /** The chart lists its slices largest first, one slice per category, with no category twice. */
  lemma CategoryTotalsSorted(s: seq<ExpenseItem>, rate: real)
    ensures var r := CategoryTotals(s, rate);
      forall i, j :: 0 <= i < j < |r| ==> r[i].1 >= r[j].1
    ensures DistinctFirsts(CategoryTotals(s, rate))
  {
    var key := CategoryKey(s);
    var pairs := GroupSums(GroupKeys(s, key), s, key, ExpenseUAH(s, rate));
    var r := CategoryTotals(s, rate);
    OrdersAreStrict();
    SortBySorted(pairs, Seconds(pairs), RealAbove);
    forall i, j | 0 <= i < j < |r| ensures r[i].1 >= r[j].1 {
      assert r[i] in pairs && r[j] in pairs;
      assert !RealAbove(Seconds(pairs)[r[j]], Seconds(pairs)[r[i]]);
    }
    GroupSumsDistinct(GroupKeys(s, key), s, key, ExpenseUAH(s, rate));
    DistinctFirstsPermutation(pairs, r);
  }

  /** Every slice is a category that occurs in `s`, with that category's total. */
  lemma CategoryTotalsGroups(s: seq<ExpenseItem>, rate: real)
    ensures var r := CategoryTotals(s, rate);
      forall i :: 0 <= i < |r| ==> CategoryExpenses(s, r[i].0) != [] && r[i].1 == ExpenseTotal(CategoryExpenses(s, r[i].0), rate)
  {
    var r := CategoryTotals(s, rate);
    forall i | 0 <= i < |r|
      ensures CategoryExpenses(s, r[i].0) != [] && r[i].1 == ExpenseTotal(CategoryExpenses(s, r[i].0), rate)
    {
      CategorySlice(s, rate, r[i]);
    }
  }

  lemma CategorySlice(s: seq<ExpenseItem>, rate: real, p: (string, real))
    requires p in CategoryTotals(s, rate)
    ensures CategoryExpenses(s, p.0) != [] && p.1 == ExpenseTotal(CategoryExpenses(s, p.0), rate)
  {
    var key := CategoryKey(s);
    var ks := GroupKeys(s, key);
    var pairs := GroupSums(ks, s, key, ExpenseUAH(s, rate));
    assert p in pairs;
    var k :| 0 <= k < |pairs| && pairs[k] == p;
    CategoryGroup(s, ks[k], rate);
    assert ks[k] in ks;
    var x :| x in s && key[x] == ks[k];
    assert x in CategoryExpenses(s, ks[k]);
  }

  /** Every category of `s` has a slice. */
  lemma CategoryTotalsCover(s: seq<ExpenseItem>, rate: real)
    ensures var r := CategoryTotals(s, rate);
      forall e :: e in s ==> exists i :: 0 <= i < |r| && r[i].0 == e.categoryName
  {
    forall e | e in s ensures exists i :: 0 <= i < |CategoryTotals(s, rate)| && CategoryTotals(s, rate)[i].0 == e.categoryName {
      CategorySliceFor(s, rate, e);
    }
  }

  lemma CategorySliceFor(s: seq<ExpenseItem>, rate: real, e: ExpenseItem)
    requires e in s
    ensures var r := CategoryTotals(s, rate);
      exists i :: 0 <= i < |r| && r[i].0 == e.categoryName
  {
    var key := CategoryKey(s);
    var ks := GroupKeys(s, key);
    PairForKey(ks, GroupSums(ks, s, key, ExpenseUAH(s, rate)), CategoryTotals(s, rate), e.categoryName);
  }

  /** The slices add up to the total of `s` (`totalFiltered`). */
  lemma CategoryTotalsSum(s: seq<ExpenseItem>, rate: real)
    ensures TotalOf(CategoryTotals(s, rate)) == ExpenseTotal(s, rate)
  {
    var key := CategoryKey(s);
    var ks := GroupKeys(s, key);
    var pairs := GroupSums(ks, s, key, ExpenseUAH(s, rate));
    TotalOfPermutation(pairs, CategoryTotals(s, rate));
    TotalOfGroupSums(ks, s, key, ExpenseUAH(s, rate));
    GroupedSumIsTotal(s, key, ExpenseUAH(s, rate));
  }

  /** The planner's chart: the active expenses whose priority is toggled on, by category. */
  function ChartData(active: seq<ExpenseItem>, f: PriorityFilter, rate: real): (r: seq<(string, real)>)
    reads set e | e in active
  {
    CategoryTotals(PriorityFiltered(active, f), rate)
  }

  /** An archived month's chart: its expenses through `filterExpenses`, by category. */
  function HistoryChartData(expenses: seq<ExpenseItem>, f: PriorityFilter, status: FilterStatus, rate: real): (r: seq<(string, real)>)
    reads set e | e in expenses
  {
    CategoryTotals(FilterExpenses(expenses, f, status), rate)
  }

  /** The planner chart's total is the total of the shown expenses. */
  lemma ChartDataTotal(active: seq<ExpenseItem>, f: PriorityFilter, rate: real)
    ensures TotalOf(ChartData(active, f, rate)) == ExpenseTotal(PriorityFiltered(active, f), rate)
    ensures f == ShowAllPriorities ==> TotalOf(ChartData(active, f, rate)) == ExpenseTotal(active, rate)
  {
    CategoryTotalsSum(PriorityFiltered(active, f), rate);
    PriorityFilteredSpec(active, f);
  }

  /** One row of an archived month's list: a category, its expenses and their total. */
  datatype CategoryRow = CategoryRow(name: string, expenses: seq<ExpenseItem>, total: real)

  /** One row per name of `names`: the group of that name and its sum. */
  function Rows(names: seq<string>, s: seq<ExpenseItem>, key: map<ExpenseItem, string>, value: map<ExpenseItem, real>): (rows: seq<CategoryRow>)
    requires forall x :: x in s ==> x in value
    ensures |rows| == |names|
    ensures forall i :: 0 <= i < |rows| ==>
      && rows[i].name == names[i]
      && rows[i].expenses == Filter(s, WithKey(key, names[i]))
      && rows[i].total == SumBy(Filter(s, WithKey(key, names[i])), value)
  {
    if names == [] then []
    else
      var group := Filter(s, WithKey(key, names[|names| - 1]));
      Rows(names[..|names| - 1], s, key, value) + [CategoryRow(names[|names| - 1], group, SumBy(group, value))]
  }

  /** The category rows of `monthHistoryRow`: one per category of `s`, names ascending. */
  function HistoryRows(s: seq<ExpenseItem>, rate: real): (r: seq<CategoryRow>)
    reads s
  {
    var key := CategoryKey(s);
    var ks := GroupKeys(s, key);
    Rows(SortBy(ks, SelfKeys(ks), LexLess), s, key, ExpenseUAH(s, rate))
  }

  /** Rows come in strictly ascending name order, so no name repeats. */
  lemma HistoryRowsOrdered(s: seq<ExpenseItem>, rate: real)
    ensures var rows := HistoryRows(s, rate);
      forall i, j :: 0 <= i < j < |rows| ==> LexLess(rows[i].name, rows[j].name)
  {
    var key := CategoryKey(s);
    var ks := GroupKeys(s, key);
    var names := SortBy(ks, SelfKeys(ks), LexLess);
    var rows := HistoryRows(s, rate);
    LexLessIsStrictOrder();
    SortBySorted(ks, SelfKeys(ks), LexLess);
    DistinctPermutation(ks, names);
    forall i, j | 0 <= i < j < |rows| ensures LexLess(rows[i].name, rows[j].name) {
      assert names[i] in ks && names[j] in ks;
      assert !LexLess(names[j], names[i]);
      LexLessTotal(names[i], names[j]);
    }
  }

  /** Each row holds its category's expenses, in the order of `s`, and their total; no row is empty. */
  lemma HistoryRowsGroups(s: seq<ExpenseItem>, rate: real)
    ensures var rows := HistoryRows(s, rate);
      forall i :: 0 <= i < |rows| ==>
        && rows[i].expenses == CategoryExpenses(s, rows[i].name)
        && rows[i].expenses != []
        && rows[i].total == ExpenseTotal(rows[i].expenses, rate)
  {
    var key := CategoryKey(s);
    var ks := GroupKeys(s, key);
    var names := SortBy(ks, SelfKeys(ks), LexLess);
    var rows := HistoryRows(s, rate);
    forall i | 0 <= i < |rows|
      ensures rows[i].expenses == CategoryExpenses(s, rows[i].name)
      ensures rows[i].expenses != []
      ensures rows[i].total == ExpenseTotal(rows[i].expenses, rate)
    {
      CategoryGroup(s, names[i], rate);
      assert names[i] in ks;
      var x :| x in s && key[x] == names[i];
      assert x in CategoryExpenses(s, names[i]);
    }
  }

  /** Every expense's category has a row. */
  lemma HistoryRowsCover(s: seq<ExpenseItem>, rate: real)
    ensures var rows := HistoryRows(s, rate);
      forall e :: e in s ==> exists i :: 0 <= i < |rows| && rows[i].name == e.categoryName
  {
    forall e | e in s ensures exists i :: 0 <= i < |HistoryRows(s, rate)| && HistoryRows(s, rate)[i].name == e.categoryName {
      HistoryRowFor(s, rate, e);
    }
  }

  lemma HistoryRowFor(s: seq<ExpenseItem>, rate: real, e: ExpenseItem)
    requires e in s
    ensures var rows := HistoryRows(s, rate);
      exists i :: 0 <= i < |rows| && rows[i].name == e.categoryName
  {
    var key := CategoryKey(s);
    var ks := GroupKeys(s, key);
    var names := SortBy(ks, SelfKeys(ks), LexLess);
    assert e.categoryName in names;
    var i :| 0 <= i < |names| && names[i] == e.categoryName;
    assert HistoryRows(s, rate)[i].name == e.categoryName;
  }

  // ---------------------------------------------------------------- priority grouping

  function PriorityKey(s: seq<ExpenseItem>): (m: map<ExpenseItem, Priority>)
    reads s
    ensures forall e :: e in s ==> e in m && m[e] == e.priority
  {
    map e | e in s :: e.priority
  }

  function WithPriority(s: seq<ExpenseItem>, p: Priority): (r: set<ExpenseItem>)
    reads s
    ensures forall e :: e in r ==> e in s && e.priority == p
    ensures forall e :: e in s && e.priority == p ==> e in r
  {
    set e | e in s && e.priority == p
  }

  /** The expenses of priority `p`, in the order of `s`. */
  function PriorityExpenses(s: seq<ExpenseItem>, p: Priority): (r: seq<ExpenseItem>)
    reads s
  {
    Filter(s, WithPriority(s, p))
  }

  /** `$0.rawValue < $1.rawValue` */
  predicate RawValueLess(p: Priority, q: Priority)
  {
    LexLess(RawValue(p), RawValue(q))
  }

  /** The bars of the archived month's priority chart: one per priority present, ordered by raw value. */
  function PriorityTotals(s: seq<ExpenseItem>, rate: real): (r: seq<(Priority, real)>)
    reads s
  {
    var key := PriorityKey(s);
    var ks := GroupKeys(s, key);
    GroupSums(SortBy(ks, SelfKeys(ks), RawValueLess), s, key, ExpenseUAH(s, rate))
  }

  lemma RawValueLessIsStrictOrder()
    ensures StrictOrder(RawValueLess) && Total(RawValueLess)
    ensures forall p, q :: RawValueLess(p, q) <==> Rank(p) < Rank(q)
  {
    forall p, q ensures RawValueLess(p, q) <==> Rank(p) < Rank(q) {
      RawValueOrder(p, q);
    }
  }

  /** The bars come essential, then needed-now, then want, each at most once. */
  lemma PriorityTotalsOrdered(s: seq<ExpenseItem>, rate: real)
    ensures var r := PriorityTotals(s, rate);
      forall i, j :: 0 <= i < j < |r| ==> Rank(r[i].0) < Rank(r[j].0)
  {
    var ks := GroupKeys(s, PriorityKey(s));
    RawValueLessIsStrictOrder();
    SortedKeysStrict(ks, RawValueLess);
  }

  /** Each bar is a priority present in `s`, with that priority's total. */
  lemma PriorityTotalsGroups(s: seq<ExpenseItem>, rate: real)
    ensures var r := PriorityTotals(s, rate);
      forall i :: 0 <= i < |r| ==>
        PriorityExpenses(s, r[i].0) != [] && r[i].1 == ExpenseTotal(PriorityExpenses(s, r[i].0), rate)
  {
    var r := PriorityTotals(s, rate);
    forall i | 0 <= i < |r|
      ensures PriorityExpenses(s, r[i].0) != [] && r[i].1 == ExpenseTotal(PriorityExpenses(s, r[i].0), rate)
    {
      PriorityBar(s, rate, i);
    }
  }

  lemma PriorityBar(s: seq<ExpenseItem>, rate: real, i: nat)
    requires i < |PriorityTotals(s, rate)|
    ensures var p := PriorityTotals(s, rate)[i];
      PriorityExpenses(s, p.0) != [] && p.1 == ExpenseTotal(PriorityExpenses(s, p.0), rate)
  {
    var key := PriorityKey(s);
    var ks := GroupKeys(s, key);
    var order := SortBy(ks, SelfKeys(ks), RawValueLess);
    var p := order[i];
    FilterAgree(s, WithKey(key, p), WithPriority(s, p));
    ExpenseTotalWithin(PriorityExpenses(s, p), s, rate);
    assert p in ks;
    var x :| x in s && key[x] == p;
    assert x in PriorityExpenses(s, p);
  }

  /** Every priority present in `s` has a bar. */
  lemma PriorityTotalsCover(s: seq<ExpenseItem>, rate: real)
    ensures var r := PriorityTotals(s, rate);
      forall e :: e in s ==> exists i :: 0 <= i < |r| && r[i].0 == e.priority
  {
    forall e | e in s ensures exists i :: 0 <= i < |PriorityTotals(s, rate)| && PriorityTotals(s, rate)[i].0 == e.priority {
      PriorityBarFor(s, rate, e);
    }
  }

  lemma PriorityBarFor(s: seq<ExpenseItem>, rate: real, e: ExpenseItem)
    requires e in s
    ensures var r := PriorityTotals(s, rate);
      exists i :: 0 <= i < |r| && r[i].0 == e.priority
  {
    var key := PriorityKey(s);
    var ks := GroupKeys(s, key);
    var order := SortBy(ks, SelfKeys(ks), RawValueLess);
    assert e.priority in order;
    var i :| 0 <= i < |order| && order[i] == e.priority;
    assert PriorityTotals(s, rate)[i].0 == e.priority;
  }

  /** The bars add up to the total of `s`. */
  lemma PriorityTotalsSum(s: seq<ExpenseItem>, rate: real)
    ensures TotalOf(PriorityTotals(s, rate)) == ExpenseTotal(s, rate)
  {
    var key := PriorityKey(s);
    var value := ExpenseUAH(s, rate);
    var ks := GroupKeys(s, key);
    var order := SortBy(ks, SelfKeys(ks), RawValueLess);
    DistinctPermutation(ks, order);
    TotalOfGroupSums(order, s, key, value);
    GroupedSumCovering(order, s, key, value);
  }

  // ---------------------------------------------------------------- history by year

  /** The archived months of one year (`YearGroup`). */
  datatype YearGroup = YearGroup(year: int, records: seq<MonthHistory>)

  function YearKey(s: seq<MonthHistory>): (m: map<MonthHistory, int>)
    reads s
    ensures forall h :: h in s ==> h in m && m[h] == h.date.year
  {
    map h | h in s :: h.date.year
  }

  function InYear(s: seq<MonthHistory>, year: int): (r: set<MonthHistory>)
    reads s
    ensures forall h :: h in r ==> h in s && h.date.year == year
    ensures forall h :: h in s && h.date.year == year ==> h in r
  {
    set h | h in s && h.date.year == year
  }

  /** `historyByYear`: the archived months grouped by year, latest year first. */
  function HistoryByYear(history: seq<MonthHistory>): (r: seq<YearGroup>)
    reads history
  {
    var key := YearKey(history);
    var ks := GroupKeys(history, key);
    var years := SortBy(ks, SelfKeys(ks), IntAbove);
    seq(|years|, i requires 0 <= i < |years| => YearGroup(years[i], Filter(history, WithKey(key, years[i]))))
  }

  /** Years come strictly descending, so each year has one group. */
  lemma HistoryByYearOrdered(history: seq<MonthHistory>)
    ensures var g := HistoryByYear(history);
      forall i, j :: 0 <= i < j < |g| ==> g[i].year > g[j].year
  {
    OrdersAreStrict();
    SortedKeysStrict(GroupKeys(history, YearKey(history)), IntAbove);
  }

  /** Each group holds exactly its year's months, in the order of the history list, and is not empty. */
  lemma HistoryByYearGroups(history: seq<MonthHistory>)
    ensures var g := HistoryByYear(history);
      forall i :: 0 <= i < |g| ==> g[i].records == Filter(history, InYear(history, g[i].year)) && g[i].records != []
  {
    var g := HistoryByYear(history);
    forall i | 0 <= i < |g| ensures g[i].records == Filter(history, InYear(history, g[i].year)) && g[i].records != [] {
      YearGroupAt(history, i);
    }
  }

  lemma YearGroupAt(history: seq<MonthHistory>, i: nat)
    requires i < |HistoryByYear(history)|
    ensures var g := HistoryByYear(history)[i];
      g.records == Filter(history, InYear(history, g.year)) && g.records != []
  {
    var key := YearKey(history);
    var ks := GroupKeys(history, key);
    var years := SortBy(ks, SelfKeys(ks), IntAbove);
    var y := years[i];
    FilterAgree(history, WithKey(key, y), InYear(history, y));
    assert y in ks;
    var x :| x in history && key[x] == y;
    assert x in Filter(history, InYear(history, y));
  }

  /** Every archived month has its year's group. */
  lemma HistoryByYearCover(history: seq<MonthHistory>)
    ensures var g := HistoryByYear(history);
      forall h :: h in history ==> exists i :: 0 <= i < |g| && g[i].year == h.date.year
  {
    forall h | h in history ensures exists i :: 0 <= i < |HistoryByYear(history)| && HistoryByYear(history)[i].year == h.date.year {
      YearGroupFor(history, h);
    }
  }

  lemma YearGroupFor(history: seq<MonthHistory>, h: MonthHistory)
    requires h in history
    ensures var g := HistoryByYear(history);
      exists i :: 0 <= i < |g| && g[i].year == h.date.year
  {
    var key := YearKey(history);
    var ks := GroupKeys(history, key);
    var years := SortBy(ks, SelfKeys(ks), IntAbove);
    assert h.date.year in years;
    var i :| 0 <= i < |years| && years[i] == h.date.year;
    assert HistoryByYear(history)[i].year == h.date.year;
  }
}
