/**
 * The SQLite store of the bot (`finance.db`), held in memory: the `users`
 * table keyed by its UNIQUE phone, and the `transactions`, `categories`,
 * `budgets`, `goals` and `reminders` tables as sequences of rows in rowid
 * order. Queries are functions of the tables; statements that write are
 * methods of `Db` or of the feature modules that own the table.
 */
module Database {
  import opened Wrappers
  import opened JsText
  import opened JsNumber
  import Sorting
  import Tally

  /** A calendar day, as SQLite's `date()` and moment's `YYYY-MM-DD` see it. */
  datatype Date = Date(year: int, month: int, day: int)

  function DaysInMonth(year: int, month: int): (n: int)
    ensures 28 <= n <= 31
  {
    if month == 2 then (if (year % 4 == 0 && year % 100 != 0) || year % 400 == 0 then 29 else 28)
    else if month == 4 || month == 6 || month == 9 || month == 11 then 30
    else 31
  }

  predicate ValidDate(d: Date)
  {
    1 <= d.month <= 12 && 1 <= d.day <= DaysInMonth(d.year, d.month)
  }

  /** The order of the `YYYY-MM-DD` text of a valid date with a four-digit year. */
  function DateKey(d: Date): int
  {
    d.year * 10000 + d.month * 100 + d.day
  }

  /** A `CURRENT_TIMESTAMP` value: the day and the second within it. */
  datatype Timestamp = Timestamp(date: Date, second: nat)

  function TimeKey(t: Timestamp): int
  {
    DateKey(t.date) * 86400 + t.second
  }

  datatype User = User(name: string, authenticated: bool, login: Option<string>)

  /** A `transactions` row; `kind` is the `type` column. A description may be NULL. */
  datatype Transaction = Transaction(
    userPhone: string, kind: string, amount: real, description: Option<string>,
    categoryId: Option<nat>, date: Timestamp)

  datatype Category = Category(id: nat, userPhone: string, name: string, kind: string)

  datatype Budget = Budget(id: nat, userPhone: string, categoryId: nat, amount: real, period: string)

  datatype Goal = Goal(
    id: nat, userPhone: string, name: string, targetAmount: real, currentAmount: real,
    targetDate: Date, categoryId: Option<nat>, completed: bool)

  datatype Reminder = Reminder(
    id: nat, userPhone: string, description: string, amount: real, dueDate: Date,
    categoryId: Option<nat>, recurring: bool, pattern: Option<string>, completed: bool)

  /** A transaction joined with the name of its category (`LEFT JOIN categories`). */
  datatype Row = Row(tx: Transaction, categoryName: Option<string>)

  /** A `checkBudgetProgress` row: the budget, its category and what was spent against it. */
  datatype BudgetProgress = BudgetProgress(
    id: nat, budgetAmount: real, categoryId: nat, categoryName: string, categoryKind: string,
    spentAmount: real, percentUsed: Num, remaining: real, status: string)

  /** A `listPendingReminders` row. */
  datatype PendingReminder = PendingReminder(reminder: Reminder, categoryName: Option<string>, daysLeft: int, status: string)

  /** A `listGoals` row. */
  datatype GoalView = GoalView(goal: Goal, categoryName: Option<string>, daysLeft: int, progress: Num, remainingAmount: real)

  /** A `config.credentials` entry. */
  datatype Credential = Credential(login: string, password: string)

  /** Row ids strictly increase along the table and stay below the next id to hand out. */
  predicate IdsBelow<T>(s: seq<T>, id: T -> nat, next: nat)
  {
    (forall i, j :: 0 <= i < j < |s| ==> id(s[i]) < id(s[j]))
    && (forall i :: 0 <= i < |s| ==> id(s[i]) < next)
  }

  /** Dropping the first row keeps the ids in order. */
  lemma IdsTail<T>(s: seq<T>, id: T -> nat, next: nat)
    requires s != [] && IdsBelow(s, id, next)
    ensures IdsBelow(s[1..], id, next)
  {
    var t := s[1..];
    forall i, j | 0 <= i < j < |t|
      ensures id(t[i]) < id(t[j])
    {
      assert t[i] == s[i + 1] && t[j] == s[j + 1];
    }
  }

  /** A row whose id is below every id of a table and below the counter may go in front of it. */
  lemma IdsCons<T>(h: T, t: seq<T>, id: T -> nat, next: nat)
    requires IdsBelow(t, id, next) && id(h) < next
    requires forall j :: 0 <= j < |t| ==> id(h) < id(t[j])
    ensures IdsBelow([h] + t, id, next)
  {
    var s := [h] + t;
    forall i, j | 0 <= i < j < |s|
      ensures id(s[i]) < id(s[j])
    {
      assert s[j] == t[j - 1];
      if i > 0 {
        assert s[i] == t[i - 1];
      }
    }
  }

  function CategoryId(c: Category): nat { c.id }
  function BudgetId(b: Budget): nat { b.id }
  function GoalId(g: Goal): nat { g.id }
  function ReminderId(r: Reminder): nat { r.id }

  class Db {
    var users: map<string, User>
    var transactions: seq<Transaction>
    var categories: seq<Category>
    var budgets: seq<Budget>
    var goals: seq<Goal>
    var reminders: seq<Reminder>
    var nextCategoryId: nat
    var nextBudgetId: nat
    var nextGoalId: nat
    var nextReminderId: nat

    ghost predicate Valid()
      reads this
    {
      IdsBelow(categories, CategoryId, nextCategoryId)
      && IdsBelow(budgets, BudgetId, nextBudgetId)
      && IdsBelow(goals, GoalId, nextGoalId)
      && IdsBelow(reminders, ReminderId, nextReminderId)
    }

    /** A fresh database (`initDatabase` on a new file). */
    constructor ()
      ensures Valid()
      ensures users == map[] && transactions == [] && categories == []
      ensures budgets == [] && goals == [] && reminders == []
    {
      users, transactions, categories := map[], [], [];
      budgets, goals, reminders := [], [], [];
      nextCategoryId, nextBudgetId, nextGoalId, nextReminderId := 1, 1, 1, 1;
    }

    /**
     * `registerUser`: `INSERT OR REPLACE INTO users (phone, name)`. The row for
     * `phone` is replaced by one with the new name and the column defaults
     * (not authenticated, no login); other users are untouched.
     */
    method RegisterUser(phone: string, name: string)
      modifies this`users
      ensures users == old(users)[phone := User(name, false, None)]
    {
      users := users[phone := User(name, false, None)];
    }

    /** `addTransaction`: one row appended; the date is the current timestamp. */
    method AddTransaction(phone: string, kind: string, amount: real, description: Option<string>,
                          categoryId: Option<nat>, now: Timestamp)
      modifies this`transactions
      ensures transactions == old(transactions) + [Transaction(phone, kind, amount, description, categoryId, now)]
    {
      transactions := transactions + [Transaction(phone, kind, amount, description, categoryId, now)];
    }

    /** `authenticateUser`: `UPDATE users SET authenticated = 1 WHERE phone = ?`; resolves true. */
    method AuthenticateUser(phone: string) returns (ok: bool)
      modifies this`users
      ensures users == Authenticate(old(users), phone)
      ensures ok
    {
      users := Authenticate(users, phone);
      ok := true;
    }
  }

  /**
   * The names `module.exports` of database.js gives every module that requires
   * it. The feature modules (budgets, goals, reminders, categories) hold this
   * module object, not the sqlite connection, and issue their statements as
   * `db.get`, `db.run` and `db.all`: none of those is exported. Only their
   * reads through `db.getConnection()` reach SQLite.
   */
  const Exports: set<string> := {
    "initDatabase", "registerUser", "registerUserWithLogin", "addTransaction", "addRecurring", "getBalance",
    "getTransactions", "getChartData", "isUserAuthenticated", "authenticateUser", "verifyCredentials", "getConnection"}

  /** The statement calls of the feature modules are not functions of the module object; the connection getter is. */
  lemma StatementsNotExported()
    ensures "get" !in Exports && "run" !in Exports && "all" !in Exports
    ensures "getConnection" in Exports
  {
  }

  /**
   * How the promise of a feature operation settles: with its value, or
   * rejected by the TypeError of calling `db.<name>`, which is not a function.
   */
  datatype Settled<T> = Resolved(value: T) | NotAFunction(name: string)

  /** The users table after `UPDATE users SET authenticated = 1 WHERE phone = ?`. */
  function Authenticate(users: map<string, User>, phone: string): (r: map<string, User>)
    ensures r.Keys == users.Keys
    ensures forall p :: p in users && p != phone ==> r[p] == users[p]
    ensures phone in users ==> r[phone] == users[phone].(authenticated := true)
  {
    if phone in users then users[phone := users[phone].(authenticated := true)] else users
  }

  /** `isUserAuthenticated`: false when there is no row, else whether the flag is set. */
  function IsUserAuthenticated(users: map<string, User>, phone: string): bool
  {
    phone in users && users[phone].authenticated
  }

  /**
   * Registering (again) leaves the phone unauthenticated; authenticating sets
   * the flag for a registered phone alone; neither touches another phone.
   */
  lemma AuthenticationLifecycle(users: map<string, User>, phone: string, name: string, other: string)
    requires other != phone
    ensures !IsUserAuthenticated(users[phone := User(name, false, None)], phone)
    ensures IsUserAuthenticated(Authenticate(users, phone), phone) <==> phone in users
    ensures IsUserAuthenticated(Authenticate(users, phone), other) == IsUserAuthenticated(users, other)
    ensures IsUserAuthenticated(users[phone := User(name, false, None)], other) == IsUserAuthenticated(users, other)
  {
  }

  /** `verifyCredentials`: some configured entry has this login and this password. */
  function VerifyCredentials(login: string, password: string, credentials: seq<Credential>): (ok: bool)
    ensures ok <==> exists i :: 0 <= i < |credentials| && credentials[i] == Credential(login, password)
    ensures credentials == [] ==> !ok
  {
    if credentials == [] then false
    else (credentials[0].login == login && credentials[0].password == password)
         || VerifyCredentials(login, password, credentials[1..])
  }

  /** The sum of the amounts of `phone`'s rows of type `kind`. */
  function SumOf(txs: seq<Transaction>, phone: string, kind: string): real
  {
    if txs == [] then 0.0
    else (if txs[0].userPhone == phone && txs[0].kind == kind then txs[0].amount else 0.0)
         + SumOf(txs[1..], phone, kind)
  }

  /** `getBalance`: income minus expenses of that user. */
  function Balance(txs: seq<Transaction>, phone: string): real
  {
    SumOf(txs, phone, "receita") - SumOf(txs, phone, "despesa")
  }

  /** What one row adds to a user's balance. */
  function Effect(t: Transaction, phone: string): real
  {
    if t.userPhone != phone then 0.0
    else if t.kind == "receita" then t.amount
    else if t.kind == "despesa" then -t.amount
    else 0.0
  }

  lemma {:induction false} SumOfAppend(txs: seq<Transaction>, t: Transaction, phone: string, kind: string)
    ensures SumOf(txs + [t], phone, kind)
            == SumOf(txs, phone, kind) + (if t.userPhone == phone && t.kind == kind then t.amount else 0.0)
  {
    if txs != [] {
      assert (txs + [t])[1..] == txs[1..] + [t];
      SumOfAppend(txs[1..], t, phone, kind);
    } else {
      assert ([] + [t])[1..] == [];
    }
  }

  /**
   * Appending a row moves its owner's balance by the amount (up for income,
   * down for an expense, not at all for another type) and leaves every other
   * user's balance unchanged.
   */
  lemma BalanceAppend(txs: seq<Transaction>, t: Transaction, phone: string)
    ensures Balance(txs + [t], phone) == Balance(txs, phone) + Effect(t, phone)
  {
    SumOfAppend(txs, t, phone, "receita");
    SumOfAppend(txs, t, phone, "despesa");
  }

  /** A user without rows has balance 0, whatever other users recorded. */
  lemma {:induction false} BalanceWithoutRows(txs: seq<Transaction>, phone: string)
    requires forall i :: 0 <= i < |txs| ==> txs[i].userPhone != phone
    ensures Balance(txs, phone) == 0.0
  {
    if txs != [] {
      BalanceWithoutRows(txs[1..], phone);
    }
  }

  /**
   * The month that `getTransactions`/`getChartData` select: the start date
   * `YYYY-MM-01` built from the year and the zero-padded month is a valid SQLite
   * date only for a four-digit year and a month 01 to 12; otherwise `date()`
   * yields NULL and nothing is selected.
   */
  function PeriodOf(month: string, year: string): (r: Option<(int, int)>)
    ensures r.Some? ==> 1 <= r.value.1 <= 12 && 0 <= r.value.0 <= 9999
  {
    var mm := PadStart2(month);
    if |year| == 4 && AllDigits(year) && |mm| == 2 && AllDigits(mm)
       && 1 <= DigitsValue(mm) <= 12
    then
      assert DigitsValue(year) <= 9999 by { DigitsBound(year); }
      Some((DigitsValue(year) as int, DigitsValue(mm) as int))
    else None
  }

  lemma {:induction false} DigitsBound(d: string)
    requires AllDigits(d)
    ensures DigitsValue(d) < Pow10(|d|)
  {
    if d != [] {
      DigitsBound(d[..|d| - 1]);
    }
  }

  /** The first category row with that id, if any. */
  function FindCategory(categories: seq<Category>, id: nat): (r: Option<Category>)
    ensures r.Some? ==> r.value in categories && r.value.id == id
    ensures r.None? ==> forall i :: 0 <= i < |categories| ==> categories[i].id != id
  {
    if categories == [] then None
    else if categories[0].id == id then Some(categories[0])
    else FindCategory(categories[1..], id)
  }

  /** The category name a row is joined with, if its category exists. */
  function CategoryNameOf(categories: seq<Category>, categoryId: Option<nat>): Option<string>
  {
    if categoryId.None? then None
    else match FindCategory(categories, categoryId.value)
      case None => None
      case Some(c) => Some(c.name)
  }

  predicate InMonth(t: Transaction, phone: string, year: int, month: int)
  {
    t.userPhone == phone && t.date.date.year == year && t.date.date.month == month
  }

  function Joined(categories: seq<Category>, t: Transaction): Row
  {
    Row(t, CategoryNameOf(categories, t.categoryId))
  }

  /** `phone`'s rows of that month, in insertion order, joined with their category names. */
  function MonthRows(txs: seq<Transaction>, categories: seq<Category>, phone: string, year: int, month: int): (r: seq<Row>)
    ensures forall i :: 0 <= i < |r| ==> InMonth(r[i].tx, phone, year, month)
    ensures forall i :: 0 <= i < |r| ==> r[i] == Joined(categories, r[i].tx)
  {
    if txs == [] then []
    else
      (if InMonth(txs[0], phone, year, month) then [Joined(categories, txs[0])] else [])
      + MonthRows(txs[1..], categories, phone, year, month)
  }

  lemma {:induction false} MonthRowsExact(txs: seq<Transaction>, categories: seq<Category>, phone: string, year: int, month: int)
    ensures forall t :: Joined(categories, t) in MonthRows(txs, categories, phone, year, month)
                        <==> t in txs && InMonth(t, phone, year, month)
  {
    if txs != [] {
      MonthRowsExact(txs[1..], categories, phone, year, month);
      assert txs == [txs[0]] + txs[1..];
    }
  }

  function RowKey(r: Row): real
  {
    TimeKey(r.tx.date) as real
  }

  /**
   * `getTransactions`: the user's rows dated in the given month (month
   * zero-padded), newest first; nothing when the period is not a valid date.
   */
  function GetTransactions(txs: seq<Transaction>, categories: seq<Category>, phone: string, month: string, year: string): (r: seq<Row>)
    ensures Sorting.SortedDesc(r, RowKey)
    ensures PeriodOf(month, year).None? ==> r == []
    ensures forall i :: 0 <= i < |r| ==> r[i].tx.userPhone == phone
    ensures forall i :: 0 <= i < |r| ==> PeriodOf(month, year) == Some((r[i].tx.date.date.year, r[i].tx.date.date.month))
  {
    match PeriodOf(month, year)
    case None => []
    case Some((y, m)) =>
      var rows := MonthRows(txs, categories, phone, y, m);
      SortedStayInMonth(rows, phone, y, m);
      Sorting.SortDesc(rows, RowKey)
  }

  /** Sorting the month's rows keeps every row in the month. */
  lemma SortedStayInMonth(rows: seq<Row>, phone: string, year: int, month: int)
    requires forall i :: 0 <= i < |rows| ==> InMonth(rows[i].tx, phone, year, month)
    ensures forall i :: 0 <= i < |Sorting.SortDesc(rows, RowKey)| ==> InMonth(Sorting.SortDesc(rows, RowKey)[i].tx, phone, year, month)
  {
    var r := Sorting.SortDesc(rows, RowKey);
    Sorting.SortDescMembers(rows, RowKey);
    forall i | 0 <= i < |r|
      ensures InMonth(r[i].tx, phone, year, month)
    {
      var j :| 0 <= j < |rows| && rows[j] == r[i];
    }
  }

  /**
   * A row is reported exactly when it belongs to the user and falls in the
   * requested month; rows of other users or other months never appear.
   */
  lemma GetTransactionsSelects(txs: seq<Transaction>, categories: seq<Category>, phone: string, month: string, year: string, t: Transaction)
    ensures Joined(categories, t) in GetTransactions(txs, categories, phone, month, year)
            <==> t in txs && t.userPhone == phone && PeriodOf(month, year) == Some((t.date.date.year, t.date.date.month))
  {
    match PeriodOf(month, year)
    case None =>
    case Some((y, m)) =>
      var rows := MonthRows(txs, categories, phone, y, m);
      var out := GetTransactions(txs, categories, phone, month, year);
      MonthRowsExact(txs, categories, phone, y, m);
      assert Joined(categories, t) in out <==> Joined(categories, t) in multiset(rows);
  }

  /** A `getChartData` row: a pie slice (label, total) or a day of the line chart. */
  datatype ChartRow = Slice(name: Option<string>, total: real) | DayTotals(day: int, expenses: real, income: real)

  /** The pie label: the category name when there is one, else the description. */
  function SliceLabel(r: Row): Option<string>
  {
    if r.categoryName.Some? then r.categoryName else r.tx.description
  }

  /**
   * Expense totals per `GROUP BY description`: SQLite resolves the name to the
   * transactions column before the result alias, so rows group by their own
   * description (NULLs together), in first-appearance order.
   */
  function ExpenseTally(rows: seq<Row>): Tally.Entries<Option<string>>
  {
    if rows == [] then []
    else
      var rest := ExpenseTally(rows[..|rows| - 1]);
      var r := rows[|rows| - 1];
      if r.tx.kind == "despesa" then Tally.Bump(rest, r.tx.description, r.tx.amount) else rest
  }

  /**
   * The label a description group shows: the category-or-description of one of
   * its rows (SQLite leaves the row unspecified; the model takes the first).
   */
  function GroupLabel(rows: seq<Row>, d: Option<string>): Option<string>
  {
    if rows == [] then d
    else if rows[0].tx.kind == "despesa" && rows[0].tx.description == d then SliceLabel(rows[0])
    else GroupLabel(rows[1..], d)
  }

  /** Per-day sums of `kind` amounts, in first-appearance order of the days. */
  function DayTally(rows: seq<Row>, kind: string): Tally.Entries<int>
  {
    if rows == [] then []
    else
      var rest := DayTally(rows[..|rows| - 1], kind);
      var r := rows[|rows| - 1];
      Tally.Bump(rest, r.tx.date.date.day, if r.tx.kind == kind then r.tx.amount else 0.0)
  }

  function SliceKey(c: ChartRow): real
  {
    if c.Slice? then c.total else 0.0
  }

  function NegDayKey(c: ChartRow): real
  {
    if c.DayTotals? then -(c.day as real) else 0.0
  }

  function Slices(rows: seq<Row>, e: Tally.Entries<Option<string>>): (r: seq<ChartRow>)
    ensures |r| == |e| && forall i :: 0 <= i < |r| ==> r[i] == Slice(GroupLabel(rows, e[i].0), e[i].1)
  {
    seq(|e|, i requires 0 <= i < |e| => Slice(GroupLabel(rows, e[i].0), e[i].1))
  }

  function Days(exp: Tally.Entries<int>, inc: Tally.Entries<int>): (r: seq<ChartRow>)
    ensures |r| == |exp| && forall i :: 0 <= i < |r| ==> r[i] == DayTotals(exp[i].0, exp[i].1, Tally.Get(inc, exp[i].0))
  {
    seq(|exp|, i requires 0 <= i < |exp| => DayTotals(exp[i].0, exp[i].1, Tally.Get(inc, exp[i].0)))
  }

  /**
   * `getChartData`: for `'pizza'` the month's expenses summed per description, largest
   * first; for `'linha'` the month's expenses and income summed per day, by day;
   * for any other type, no rows.
   */
  function GetChartData(txs: seq<Transaction>, categories: seq<Category>, phone: string, month: string, year: string, kind: string): (r: seq<ChartRow>)
    ensures kind != "pizza" && kind != "linha" ==> r == []
    ensures PeriodOf(month, year).None? ==> r == []
    ensures kind == "pizza" ==> Sorting.SortedDesc(r, SliceKey) && forall i :: 0 <= i < |r| ==> r[i].Slice?
    ensures kind == "linha" ==> Sorting.SortedDesc(r, NegDayKey) && forall i :: 0 <= i < |r| ==> r[i].DayTotals?
  {
    match PeriodOf(month, year)
    case None => []
    case Some((y, m)) =>
      var rows := MonthRows(txs, categories, phone, y, m);
      if kind == "pizza" then PieRows(rows)
      else if kind == "linha" then LineRows(rows)
      else []
  }

  /** The pie chart's rows: one slice per expense description, largest total first. */
  function PieRows(rows: seq<Row>): (r: seq<ChartRow>)
    ensures Sorting.SortedDesc(r, SliceKey) && forall i :: 0 <= i < |r| ==> r[i].Slice?
  {
    var slices := Slices(rows, ExpenseTally(rows));
    Sorting.SortDescMembers(slices, SliceKey);
    Sorting.SortDesc(slices, SliceKey)
  }

  /** The line chart's rows: one per day with any transaction in the range (its expense and income totals), earliest day first. */
  function LineRows(rows: seq<Row>): (r: seq<ChartRow>)
    ensures Sorting.SortedDesc(r, NegDayKey) && forall i :: 0 <= i < |r| ==> r[i].DayTotals?
  {
    var days := Days(DayTally(rows, "despesa"), DayTally(rows, "receita"));
    Sorting.SortDescMembers(days, NegDayKey);
    Sorting.SortDesc(days, NegDayKey)
  }

  /** The sum of the expense amounts among some rows. */
  function ExpenseSum(rows: seq<Row>): real
  {
    if rows == [] then 0.0
    else ExpenseSum(rows[..|rows| - 1]) + (if rows[|rows| - 1].tx.kind == "despesa" then rows[|rows| - 1].tx.amount else 0.0)
  }

  /** The pie slices split the month's expenses: each description once, and their totals add up to all of them. */
  lemma {:induction false} ExpenseTallyTotal(rows: seq<Row>)
    ensures Tally.UniqueKeys(ExpenseTally(rows))
    ensures Tally.Total(ExpenseTally(rows)) == ExpenseSum(rows)
  {
    if rows != [] {
      ExpenseTallyTotal(rows[..|rows| - 1]);
      var r := rows[|rows| - 1];
      if r.tx.kind == "despesa" {
        Tally.BumpSpec(ExpenseTally(rows[..|rows| - 1]), r.tx.description, r.tx.amount);
      }
    }
  }
}
