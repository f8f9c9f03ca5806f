# MoneyPlanner budget store, in Dafny

MoneyPlanner is a monthly budget planner. The user enters income sources and expenses, in hryvnias (UAH) or dollars (USD). Expenses have a category, a priority and a paid flag. Savings top-ups are expenses in the reserved category `"savings"`. Every amount is converted to hryvnias at one stored exchange rate. "Finish Month" closes the month: it freezes the month's totals in an archived month record, moves every current expense and savings top-up into it, adds the month's savings to a running savings balance and deletes the income sources. The history tab groups the archived months by year and charts each month's expenses by category and by priority.

This project models that logic as a budget store, and proves what the planner promises about it.

- `records.dfy` (module `Records`): the record types of `Item.swift`.
  - They are classes, like the originals, because the planner edits their fields in place.
  - A new object stands for a fresh `UUID`.
  - The clock is a parameter: an `int` instant for `dateAdded`, a `CalendarDate` for a month's date.
- `seqs.dfy` (module `Seqs`): generic, heap-free sequence combinators, with their lemmas.
  - `Filter` is Swift's `filter`.
  - `SumBy` is `reduce(0) { $0 + … }`.
  - `SortBy` is `sorted(by:)`, as a stable insertion sort.
  - `GroupKeys`/`GroupSums` are `Dictionary(grouping:)` followed by a `map`.
- `budget.dfy` (module `Budget`): the computations of `ContentView.swift`.
  - `toUAH` and the totals.
  - The `@Query` lists.
  - The planner's filter-and-sort pipeline.
  - The priority and status filters.
  - The category and priority charts, the category rows of an archived month, and `historyByYear`.
- `chart.dfy` (module `Chart`): `getSelectedCategory`, the hit test that maps a selected chart angle to a slice.
- `store.dfy` (module `Store`): the class `BudgetStore`. It holds the four record lists plus `exchangeRate` and `totalAccumulatedSavings`, and its methods are the actions that change them:
  - seeding and adding categories;
  - adding income, expenses and savings top-ups;
  - deposit and withdraw;
  - editing the rate;
  - closing a month;
  - clearing the history.

  `Valid()` says two things. Every record is stored once. And `MonthHistory.expenses` is the inverse of `ExpenseItem.monthHistory`; the planner's persistence layer keeps that inverse by itself, and here the store keeps it explicitly.

## Model

| member | source | states |
|---|---|---|
| Records.RawValue | MoneyPlanner/Item.swift:5-8 | definition: the raw string of each priority case, `"essential"`, `"neededNow"`, `"want"` (facts: `RawValueInjective`, `RawValueOrder`) |
| Records.Rank | MoneyPlanner/Item.swift:5-8 | each priority has its position in `allCases` |
| Records.AllPrioritiesComplete | MoneyPlanner/Item.swift:5-8 | there are exactly three priorities, each listed once |
| Records.RawValueInjective | MoneyPlanner/Item.swift:5-8 | two priorities have the same raw value exactly when they are the same case |
| Records.RawValueOrder | MoneyPlanner/Item.swift:5-8 | comparing raw values as strings orders essential < neededNow < want, the declaration order |
| Records.CategoryItem.constructor | MoneyPlanner/Item.swift:39-45 | a new category stores its name; icon defaults to `"circle"` and order to 0; `dateAdded` is the clock reading |
| Records.IncomeItem.constructor | MoneyPlanner/Item.swift:57-63 | a new income source stores its name and amount; `isUSD` defaults to false |
| Records.ExpenseItem.constructor | MoneyPlanner/Item.swift:76-92 | a new expense stores name, amount, category and currency; it is unpaid and essential by default and belongs to no archived month |
| Records.MonthHistory.constructor | MoneyPlanner/Item.swift:107-116 | a new archived month stores the four totals unchanged, is dated today and lists no expenses |
| Budget.ToUAH | MoneyPlanner/ContentView.swift:218-220 | definition of `toUAH`: a dollar amount times the rate, a hryvnia amount unchanged (facts: `ExpenseTotalSingleton`, `ExpenseTotalHryvniaOnly`) |
| Budget.ExpenseTotal | MoneyPlanner/ContentView.swift:226-232 | definition: the `reduce(0)` sum of `toUAH` over a list of expenses (facts: the `ExpenseTotal*` lemmas below) |
| Budget.IncomeTotal | MoneyPlanner/ContentView.swift:222-224 | definition: the `reduce(0)` sum of `toUAH` over a list of income sources (facts: the `IncomeTotal*` lemmas below) |
| Budget.ActiveExpensesOf | MoneyPlanner/ContentView.swift:118-120 | the `activeExpenses` query; its contract says it lists only stored expenses (full description: `ActiveExpensesSpec`) |
| Budget.SavingsGoalsOf | MoneyPlanner/ContentView.swift:124-125 | the `savingsGoals` query; its contract says it lists only stored expenses (full description: `SavingsGoalsSpec`) |
| Budget.IncomeSourcesOf | MoneyPlanner/ContentView.swift:116 | the `incomeSources` query; its contract says it lists only stored income sources (full description: `IncomeSourcesSpec`) |
| Budget.CategoriesOf | MoneyPlanner/ContentView.swift:122 | definition of the `categories` query: the categories sorted by `order` (facts: `CategoriesSpec`, `FirstCategoryLowest`) |
| Budget.HistoryOf | MoneyPlanner/ContentView.swift:127 | definition of the `history` query: the archived months sorted by `date`, latest first (facts: `HistorySpec`) |
| Budget.StatusFilter | MoneyPlanner/ContentView.swift:177-183 | definition of step 1 of `processedExpenses`: the expenses the `filterStatus` switch lets through, in order (facts: `StatusFilterSpec`, `PaidUnpaidSplit`) |
| Budget.ProcessedExpenses | MoneyPlanner/ContentView.swift:175-202 | definition of `processedExpenses`: the status filter, then a sort by the key and direction `sortOption` names (facts: `ProcessedExpensesSpec`) |
| Budget.PriorityFiltered | MoneyPlanner/ContentView.swift:439-444 | definition of `filteredForChart`: the expenses whose priority toggle is on, in order (facts: `PriorityFilteredSpec`) |
| Budget.FilterExpenses | MoneyPlanner/ContentView.swift:861-877 | definition of `filterExpenses`: the priority toggles and the status switch applied together, in order (facts: `FilterExpensesSpec`) |
| Budget.CategoryTotals | MoneyPlanner/ContentView.swift:451-455 | definition of `groupedData`: group by `categoryName`, sum each group's `toUAH`, sort by total descending (facts: `CategoryGroup`, `CategoryTotalsSorted`, `CategoryTotalsGroups`, `CategoryTotalsCover`, `CategoryTotalsSum`) |
| Budget.ChartData | MoneyPlanner/ContentView.swift:439-455 | definition of the planner chart's data: `CategoryTotals` of the priority-filtered active expenses (facts: `ChartDataTotal`) |
| Budget.HistoryChartData | MoneyPlanner/ContentView.swift:950-958 | definition of an archived month's chart data: `CategoryTotals` of its filtered expenses (facts: the `CategoryTotals*` lemmas) |
| Budget.HistoryRows | MoneyPlanner/ContentView.swift:790-794 | definition of an archived month's category rows: group by `categoryName`, names sorted ascending, each with its expenses and sum (facts: `Rows`, `HistoryRowsOrdered`, `HistoryRowsGroups`, `HistoryRowsCover`) |
| Budget.PriorityTotals | MoneyPlanner/ContentView.swift:834-837 | definition of the priority bars: group by priority, keys sorted by raw value, each with its sum (facts: the `PriorityTotals*` lemmas) |
| Budget.HistoryByYear | MoneyPlanner/ContentView.swift:242-248 | definition of `historyByYear`: the history grouped by the year of `date`, years descending (facts: the `HistoryByYear*` lemmas) |
| Budget.ExpenseTotalHryvniaOnly | MoneyPlanner/ContentView.swift:218-228 | `toUAH` leaves hryvnia amounts alone: the total of a list with no dollar expense does not depend on the rate |
| Budget.IncomeTotalHryvniaOnly | MoneyPlanner/ContentView.swift:218-224 | the same for income sources |
| Budget.ExpenseTotalConcat | MoneyPlanner/ContentView.swift:226-228 | the `reduce` total of two lists put together is the sum of their totals |
| Budget.IncomeTotalConcat | MoneyPlanner/ContentView.swift:222-224 | the same for income sources |
| Budget.ExpenseTotalPermutation | MoneyPlanner/ContentView.swift:226-232 | an expense total does not depend on the order of the list |
| Budget.IncomeTotalPermutation | MoneyPlanner/ContentView.swift:222-224 | an income total does not depend on the order of the list |
| Budget.ExpenseTotalSingleton | MoneyPlanner/ContentView.swift:218-228 | one expense totals its amount in hryvnias: `amount * rate` in dollars, `amount` in hryvnias |
| Budget.IncomeTotalSingleton | MoneyPlanner/ContentView.swift:218-224 | one income source totals its amount in hryvnias |
| Budget.ActiveExpensesSpec | MoneyPlanner/ContentView.swift:118-120 | the `activeExpenses` query holds exactly the unarchived non-savings expenses, each once, newest `dateAdded` first |
| Budget.SavingsGoalsSpec | MoneyPlanner/ContentView.swift:124-125 | the `savingsGoals` query holds exactly the unarchived `"savings"` expenses, each once, oldest first |
| Budget.CategoriesSpec | MoneyPlanner/ContentView.swift:122 | the `categories` query is every category, each as often as stored, by ascending `order` |
| Budget.FirstCategoryLowest | MoneyPlanner/ContentView.swift:374 | with at least one category stored, the first one the query lists is stored and has the lowest `order` |
| Budget.IncomeSourcesSpec | MoneyPlanner/ContentView.swift:116 | the `incomeSources` query is every income source, each as often as stored, oldest `dateAdded` first |
| Budget.HistorySpec | MoneyPlanner/ContentView.swift:127 | the `history` query is every archived month, each as often as stored, with no month listed before a later one |
| Budget.QueriesPartition | MoneyPlanner/ContentView.swift:118-125 | the two current-month queries are disjoint, together hold every unarchived expense once, and split its total |
| Budget.UnarchivedQueries | MoneyPlanner/ContentView.swift:118-125 | both current-month queries give the same result once the archived expenses are removed from the store |
| Budget.AllArchivedQueriesEmpty | MoneyPlanner/ContentView.swift:118-125 | when every expense is archived, both current-month queries are empty |
| Budget.StatusFilterSpec | MoneyPlanner/ContentView.swift:177-183 | `all` returns the list unchanged; `paid` keeps exactly the paid expenses and `unpaid` exactly the unpaid ones; the result keeps the list's order; filtering twice equals filtering once |
| Budget.PaidUnpaidSplit | MoneyPlanner/ContentView.swift:177-183 | the paid and unpaid lists split the expenses, and their total |
| Budget.ProcessedExpensesSpec | MoneyPlanner/ContentView.swift:175-202 | the planner list is a permutation of the status-filtered list, ordered by `dateAdded` (descending or ascending) or by hryvnia amount (descending or ascending), as `sortOption` says |
| Budget.PriorityFilteredSpec | MoneyPlanner/ContentView.swift:439-444 | the chart filter keeps exactly the expenses whose priority toggle is on, in order; with every toggle on it keeps everything |
| Budget.FilterExpensesSpec | MoneyPlanner/ContentView.swift:861-877 | `filterExpenses` is the priority filter then the status filter, and also the status filter then the priority filter |
| Budget.CategoryGroup | MoneyPlanner/ContentView.swift:451-454 | the group of a category name holds that category's expenses, and its sum is their total |
| Budget.CategoryTotalsSorted | MoneyPlanner/ContentView.swift:451-455 | the category chart lists its slices largest total first, with no category twice |
| Budget.CategoryTotalsGroups | MoneyPlanner/ContentView.swift:451-454 | each slice is a category that occurs in the list, with that category's total |
| Budget.CategoryTotalsCover | MoneyPlanner/ContentView.swift:451 | every category of the list has a slice |
| Budget.CategoryTotalsSum | MoneyPlanner/ContentView.swift:451-457 | the slices add up (`totalFiltered`) to the total of the charted expenses |
| Budget.ChartDataTotal | MoneyPlanner/ContentView.swift:439-457 | the planner chart's total is the total of the shown expenses, and with every priority shown it is the total of all active expenses |
| Budget.Rows | MoneyPlanner/ContentView.swift:790-794 | each row of an archived month's list is a category name, that category's expenses and their sum |
| Budget.HistoryRowsOrdered | MoneyPlanner/ContentView.swift:790-791 | the rows come in strictly ascending name order (`keys.sorted()`) |
| Budget.HistoryRowsGroups | MoneyPlanner/ContentView.swift:790-794 | each row holds its category's expenses, in stored order, and their total, and is not empty |
| Budget.HistoryRowsCover | MoneyPlanner/ContentView.swift:790-791 | every expense's category has a row |
| Budget.PriorityTotalsOrdered | MoneyPlanner/ContentView.swift:834-835 | the priority bars come essential, then neededNow, then want, each at most once |
| Budget.PriorityTotalsGroups | MoneyPlanner/ContentView.swift:834-836 | each bar is a priority that occurs, with the total of its expenses |
| Budget.PriorityTotalsCover | MoneyPlanner/ContentView.swift:834-835 | every priority that occurs has a bar |
| Budget.PriorityTotalsSum | MoneyPlanner/ContentView.swift:834-836 | the bars add up to the total of the charted expenses |
| Budget.HistoryByYearOrdered | MoneyPlanner/ContentView.swift:242-248 | the year groups come in strictly descending year order, so a year has one group |
| Budget.HistoryByYearGroups | MoneyPlanner/ContentView.swift:242-246 | each group holds exactly its year's archived months, in the history query's order, and is not empty |
| Budget.HistoryByYearCover | MoneyPlanner/ContentView.swift:242-246 | every archived month has its year's group |
| Chart.PrefixTotal | MoneyPlanner/ContentView.swift:546-551 | definition: `currentSum` before slice `n`, the sum of the totals of the slices before it (facts: `GrandTotal`) |
| Chart.Selected | MoneyPlanner/ContentView.swift:544-553 | definition: the slice `FirstHit` finds from the start, if any (facts: `GetSelectedCategory`, `WithinTotalSelects`, `OutsideTotalSelectsNothing`) |
| Chart.FirstHit | MoneyPlanner/ContentView.swift:547-551 | the slice the walk finds is the first whose closed interval `[sum before, sum after]` holds the angle; no slice is found only when none holds it |
| Chart.GetSelectedCategory | MoneyPlanner/ContentView.swift:544-553 | nothing when no angle is selected; otherwise the first slice whose running-sum interval holds the angle |
| Chart.GrandTotal | MoneyPlanner/ContentView.swift:457 | the last slice ends at the grand total of the slices |
| Chart.WithinTotalSelects | MoneyPlanner/ContentView.swift:544-553 | an angle from 0 to the grand total always selects a slice |
| Chart.OutsideTotalSelectsNothing | MoneyPlanner/ContentView.swift:544-553 | with no negative slice, an angle below 0 or past the grand total selects nothing |
| Store.DefaultCategoryNames | MoneyPlanner/ContentView.swift:206-210 | each interface language has seven default categories, all different |
| Store.BudgetStore.constructor | MoneyPlanner/ContentView.swift:116-131 | a fresh store has no records, the rate 41.5 and no savings |
| Store.BudgetStore.RestoreDefaultCategories | MoneyPlanner/ContentView.swift:886-890 | appends one new category per default name, with `order` its position and icon `"circle"`, whatever categories already exist; nothing else changes |
| Store.BudgetStore.CheckFirstLaunch | MoneyPlanner/ContentView.swift:204-216 | seeds the default categories with `order` = position when there are none; otherwise changes nothing |
| Store.BudgetStore.AddCategory | MoneyPlanner/ContentView.swift:895 | appends one new category whose `order` is the number of categories before it |
| Store.BudgetStore.AddIncome | MoneyPlanner/ContentView.swift:351 | appends a new dollar income source of amount 0 with the given name; nothing else changes |
| Store.IncomeTotalAppendZero | MoneyPlanner/ContentView.swift:222-224 | appending an income of amount 0 leaves the income total as it was |
| Store.BudgetStore.AddExpense | MoneyPlanner/ContentView.swift:373-376 | appends a new unpaid essential hryvnia expense of amount 0 and empty name, in the category with the lowest `order`, or in the fallback name when there is no category |
| Store.BudgetStore.FirstCategoryName | MoneyPlanner/ContentView.swift:374 | `categories.first?.name`: a category of lowest `order`, or the fallback when there is none |
| Store.BudgetStore.AddSavingsGoal | MoneyPlanner/ContentView.swift:382 | appends a new hryvnia savings top-up of amount 0, which the savings query then lists |
| Store.ZeroExpenseKeepsTotals | MoneyPlanner/ContentView.swift:226-232 | a new current-month expense of amount 0 changes neither the expense total nor the savings total |
| Store.BudgetStore.TotalIncomeUAH | MoneyPlanner/ContentView.swift:222-224 | definition of `totalIncomeUAH` over the store's income query (facts: `TotalsAsQueries`, `BalanceSpec`) |
| Store.BudgetStore.TotalExpensesUAH | MoneyPlanner/ContentView.swift:226-228 | definition of `totalExpensesUAH` over the store's active-expense query (facts: `TotalsAsQueries`) |
| Store.BudgetStore.TotalSavings | MoneyPlanner/ContentView.swift:230-232 | definition of `totalSavings` over the store's savings query (facts: `TotalsAsQueries`) |
| Store.BudgetStore.TotalSpent | MoneyPlanner/ContentView.swift:234 | definition of `totalSpent`: expenses plus savings (facts: `BalanceSpec`, `ArchivedTotal`) |
| Store.BudgetStore.RemainingBalance | MoneyPlanner/ContentView.swift:235 | definition of `remainingBalance`: income minus spent, not clamped (facts: `BalanceSpec`) |
| Store.ArchivedTotal | MoneyPlanner/ContentView.swift:226-234 | the expenses `finishMonth` archives, the active ones then the savings top-ups, total exactly `totalExpensesUAH + totalSavings` |
| Store.TotalsAsQueries | MoneyPlanner/ContentView.swift:222-232 | the store's three totals are the `reduce` sums of `toUAH` over the three queries |
| Store.BalanceSpec | MoneyPlanner/ContentView.swift:222-235 | income is the total of every income source; `totalSpent` is the total of every current-month expense, savings included; `remainingBalance` is their difference, not clamped |
| Store.BudgetStore.FinishMonth | MoneyPlanner/ContentView.swift:929-938 | records the pre-call totals in a new archived month dated the 1st of the selected month; the archived expenses total exactly the recorded `totalExpenses + totalSaved`; moves every active expense and savings top-up into it and nothing else; leaves already archived expenses, every expense's other fields, the categories and the rate as they were; adds the pre-call savings total to the balance; deletes every income source; afterwards both queries are empty and every total is 0 |
| Store.BudgetStore.CurrentMonthSplit | MoneyPlanner/ContentView.swift:118-125 | the two lists `finishMonth` walks hold every unarchived expense exactly once between them |
| Store.BudgetStore.CloseMonth | MoneyPlanner/ContentView.swift:930-937 | the state change of `finishMonth`, from the totals and lists read at its start |
| Store.BudgetStore.ArchiveMonth | MoneyPlanner/ContentView.swift:930-935 | inserts the new archived month and points both lists at it, keeping the inverse relation |
| Store.ArchiveInto | MoneyPlanner/ContentView.swift:934-935 | each loop points every item at the new month, which then lists them in loop order; nothing else about the items changes |
| Store.ArchiveOne | MoneyPlanner/ContentView.swift:934 | one `expense.monthHistory = record` step, with the inverse side kept |
| Store.LinkedSnoc | MoneyPlanner/Item.swift:106-107 | a new archived month that lists nothing and that nothing names keeps the inverse relation |
| Store.BudgetStore.ClearHistory | MoneyPlanner/ContentView.swift:771 | deletes every archived month and, by the cascade rule, exactly the expenses archived into one; the current month's expenses stay in order, with the other lists and settings |
| Store.BudgetStore.Deposit | MoneyPlanner/ContentView.swift:918 | adds the amount, converted to hryvnias, to the savings balance; nothing else changes |
| Store.BudgetStore.Withdraw | MoneyPlanner/ContentView.swift:915 | subtracts the amount, converted to hryvnias, from the savings balance, with no floor at 0 |
| Store.BudgetStore.SetExchangeRate | MoneyPlanner/ContentView.swift:338 | changes the rate and nothing else; in particular no archived month or its expenses change |

## Left out

- SwiftUI views, layout, sheets, disclosure state, colours and priority names: these are presentation.
- `L10n`: the default category names of each language are constants, and the language is a parameter of `DefaultCategoryNames`. The names `"New Source"`, `"New Category"` and `"Other"` are parameters of the add actions.
- Swift Charts rendering and selection visuals. Only the angle hit test is kept.
- SwiftData: `@Query` reactivity, the model context and `try?` around deletes. The store is an in-memory object, and each query is a function of it. `finishMonth` reads every total and both lists once, at its start, as the view's query arrays are not refreshed inside the function.
- `@AppStorage` persistence of the rate and the savings balance: they are plain fields.
- `Double` arithmetic is modelled as exact `real` arithmetic. No rounding, no `%.0f` formatting, and no display-only divisions by the rate.
- `Calendar`: an archived month's date is its year, month and day. `date(from:)` is taken to succeed for months 1-12 on day 1, so the selected date always replaces today's.
- The year picker's fixed range, 2024-2030: `FinishMonth` takes any year.
- Deleting single income sources, expenses, savings or categories from their lists, and editing record fields other than the rate. Those are list-row gestures on one record, outside the named core.
- The unused `total` parameter of `getSelectedCategory` is kept but plays no part, as in the source.
- Ties in the sorts are left unspecified: `sorted(by:)` is not documented as stable. The model sorts stably, but no contract depends on it.
- The order of `Dictionary(grouping:)` keys before sorting is left unspecified. The grouping lemmas do not depend on it.
- Swift's `String` `==`, hashing and `<` work on the canonical (Unicode canonical-equivalence) form of a string. Here a string is its sequence of code points: `==` is sequence equality and `<` is code-point lexicographic order (`LexLess`). The two agree on the plain ASCII raw values of `Priority` (`RawValueOrder`). They can disagree on user-entered category names:
  - Budget.CategoryTotals, Budget.CategoryGroup, Budget.HistoryRows and their lemmas group by exact code-point equality of `categoryName`. A name typed once precomposed ("é") and once decomposed ("e" plus a combining accent) is one group in Swift and two groups here.
  - Budget.HistoryRows and Budget.HistoryRowsOrdered sort the category names by code-point order, which can differ from Swift's order for such names.
  - The `#Predicate` comparisons with `"savings"` in the queries run in the store, and are modelled as exact comparisons.
- Store.BudgetStore.AddIncome: does not state that the income total is unchanged. `IncomeTotalAppendZero` states it over the old and new income lists, because framing the query across the state change is beyond the solver's budget.
- Store.BudgetStore.AddExpense: does not state that the totals are unchanged. `ZeroExpenseKeepsTotals` states it over the old and new expense lists, for the same reason.
- Store.BudgetStore.AddSavingsGoal: does not state that the totals are unchanged. `ZeroExpenseKeepsTotals` states it, as above.
- Store.BudgetStore.ClearHistory: does not state that the two queries are unchanged. `UnarchivedQueries` states it over the old and new expense lists, for the same reason.
- Store.BudgetStore.ClearHistory: assumes the batch delete of `MonthHistory` applies the cascade rule of its `expenses` relation, as the relation declares.
- The archived month's category and priority charts convert with the current rate, not the rate at closing, as the source does. Only the stored totals are frozen.
