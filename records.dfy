/**
 * The persistent record types of the planner: categories, income sources,
 * expenses (ordinary ones and savings top-ups) and archived months.
 *
 * The records are reference objects whose fields the planner edits in place,
 * so they are classes here too. Each `new` object is distinct from every other,
 * which is what the records' fresh `UUID`s stand for. `Date()` is the clock: it
 * is passed in as `now` (an instant, for `dateAdded`) or `today` (a calendar day).
 */
module Records {
  import opened Seqs

  // ---------------------------------------------------------------- priorities

  /** How urgent an expense is. */
  datatype Priority = Essential | NeededNow | Want

  /** The string each case is stored as. */
  function RawValue(p: Priority): (r: string)
  {
    match p
    case Essential => "essential"
    case NeededNow => "neededNow"
    case Want => "want"
  }

  /** `Priority.allCases`, in declaration order. */
  const AllPriorities: seq<Priority> := [Essential, NeededNow, Want]

  /** The position of a priority in `AllPriorities`. */
  function Rank(p: Priority): (r: nat)
    ensures r < |AllPriorities| && AllPriorities[r] == p
  {
    match p
    case Essential => 0
    case NeededNow => 1
    case Want => 2
  }

  /** Every priority is one of the three cases, each listed once. */
  lemma AllPrioritiesComplete(p: Priority)
    ensures p in AllPriorities
    ensures forall i, j :: 0 <= i < j < |AllPriorities| ==> AllPriorities[i] != AllPriorities[j]
  {
  }

  /** The raw values identify the cases. */
  lemma RawValueInjective(p: Priority, q: Priority)
    ensures RawValue(p) == RawValue(q) <==> p == q
  {
  }

  /** Sorting by raw value is sorting by declaration order: essential < neededNow < want. */
  lemma RawValueOrder(p: Priority, q: Priority)
    ensures LexLess(RawValue(p), RawValue(q)) <==> Rank(p) < Rank(q)
  {
    assert RawValue(Essential)[0] == 'e' && RawValue(NeededNow)[0] == 'n' && RawValue(Want)[0] == 'w';
  }

  // ---------------------------------------------------------------- dates

  /** A calendar day. */
  datatype CalendarDate = CalendarDate(year: int, month: int, day: int)

  /** `a` is a later day than `b`. */
  predicate DateAfter(a: CalendarDate, b: CalendarDate)
  {
    || a.year > b.year
    || (a.year == b.year && a.month > b.month)
    || (a.year == b.year && a.month == b.month && a.day > b.day)
  }

  /** `DateAfter` is a strict order. Dafny proves this unaided; callers name it to bring the fact into scope. */
  lemma DateAfterIsStrictOrder()
    ensures StrictOrder(DateAfter)
  {
  }

  // ---------------------------------------------------------------- records

  class CategoryItem {
    var name: string
    var icon: string
    var order: int
    var dateAdded: int

    constructor (now: int, name: string, icon: string := "circle", order: int := 0)
      ensures this.name == name && this.icon == icon && this.order == order
      ensures dateAdded == now
    {
      this.name := name;
      this.icon := icon;
      this.order := order;
      this.dateAdded := now;
    }
  }

  class IncomeItem {
    var name: string
    var amount: real
    var isUSD: bool
    var dateAdded: int

    constructor (now: int, name: string, amount: real, isUSD: bool := false)
      ensures this.name == name && this.amount == amount && this.isUSD == isUSD
      ensures dateAdded == now
    {
      this.name := name;
      this.amount := amount;
      this.isUSD := isUSD;
      this.dateAdded := now;
    }
  }

  /** An expense; one whose category is `"savings"` is a savings top-up. */
  class ExpenseItem {
    var name: string
    var amount: real
    var categoryName: string
    var dateAdded: int
    var isUSD: bool
    var priority: Priority
    var isPaid: bool
    /** The archived month this expense belongs to; `null` while it is in the current month. */
    var monthHistory: MonthHistory?

    constructor (now: int, name: string, amount: real, categoryName: string,
                 isUSD: bool := false, priority: Priority := Essential, isPaid: bool := false)
      ensures this.name == name && this.amount == amount && this.categoryName == categoryName
      ensures this.isUSD == isUSD && this.priority == priority && this.isPaid == isPaid
      ensures dateAdded == now
      ensures monthHistory == null
    {
      this.name := name;
      this.amount := amount;
      this.categoryName := categoryName;
      this.dateAdded := now;
      this.isUSD := isUSD;
      this.priority := priority;
      this.isPaid := isPaid;
      this.monthHistory := null;
    }

    /** Every field except the archive link. */
    ghost function Details(): (string, real, string, int, bool, Priority, bool)
      reads this
    {
      (name, amount, categoryName, dateAdded, isUSD, priority, isPaid)
    }
  }

  /** A closed month: its totals, frozen when it was closed, and the expenses archived into it. */
  class MonthHistory {
    var date: CalendarDate
    var totalIncomeUAH: real
    var totalExpenses: real
    var totalSaved: real
    var remaining: real
    /** The inverse of `ExpenseItem.monthHistory`; deleting the month deletes these expenses. */
    var expenses: seq<ExpenseItem>

    constructor (today: CalendarDate, totalIncomeUAH: real, totalExpenses: real, totalSaved: real, remaining: real)
      ensures this.totalIncomeUAH == totalIncomeUAH && this.totalExpenses == totalExpenses
      ensures this.totalSaved == totalSaved && this.remaining == remaining
      ensures date == today
      ensures expenses == []
    {
      this.date := today;
      this.totalIncomeUAH := totalIncomeUAH;
      this.totalExpenses := totalExpenses;
      this.totalSaved := totalSaved;
      this.remaining := remaining;
      this.expenses := [];
    }
  }
}
