/**
 * Payment reminders (`reminders.js`): creating one, listing the pending ones
 * of the coming days, completing one (optionally recording its transaction
 * and scheduling the next occurrence), and the daily broadcast of the
 * reminders due today, one message per user.
 */
module Reminders {
  import opened Wrappers
  import opened JsText
  import opened Database
  import Calendar
  import Sorting
  import TextOrder
  import Chat

  /** Every stored due date is a calendar day (each writer stores a parsed or computed date). */
  predicate DatesValid(reminders: seq<Reminder>)
  {
    forall i :: 0 <= i < |reminders| ==> ValidDate(reminders[i].dueDate)
  }

  /**
   * `createReminder` as written: the INSERT is issued as `db.run`, which the
   * database module object does not export, so the promise rejects and no row
   * is added.
   */
  method CreateReminder(db: Db, phone: string, description: string, dueDate: Date, amount: real := 0.0,
                        categoryId: Option<nat> := None, recurring: bool := false, pattern: Option<string> := None)
    returns (r: Settled<nat>)
    ensures r == NotAFunction("run") && "run" !in Exports
  {
    r := NotAFunction("run");
  }

  /** `createReminder` with a working connection: a new, not completed row; the new row id is returned. */
  method CreateReminderConnected(db: Db, phone: string, description: string, dueDate: Date, amount: real := 0.0,
                        categoryId: Option<nat> := None, recurring: bool := false, pattern: Option<string> := None)
    returns (id: nat)
    requires IdsBelow(db.reminders, ReminderId, db.nextReminderId)
    requires DatesValid(db.reminders) && ValidDate(dueDate)
    modifies db`reminders, db`nextReminderId
    ensures id == old(db.nextReminderId) && db.nextReminderId == id + 1
    ensures db.reminders == old(db.reminders) + [Reminder(id, phone, description, amount, dueDate, categoryId, recurring, pattern, false)]
    ensures IdsBelow(db.reminders, ReminderId, db.nextReminderId) && DatesValid(db.reminders)
  {
    id := db.nextReminderId;
    db.reminders := db.reminders + [Reminder(id, phone, description, amount, dueDate, categoryId, recurring, pattern, false)];
    db.nextReminderId := id + 1;
  }

  /** The status shown for a number of days left. */
  function Status(daysLeft: int): (s: string)
    ensures s == "atrasado" <==> daysLeft < 0
    ensures s == "hoje" <==> daysLeft == 0
    ensures s == "próximo" <==> daysLeft > 0
  {
    if daysLeft < 0 then "atrasado" else if daysLeft == 0 then "hoje" else "próximo"
  }

  /** `r.due_date BETWEEN today AND today + daysAhead`, compared as `YYYY-MM-DD` text. */
  predicate InWindow(due: Date, today: Date, daysAhead: nat)
    requires ValidDate(today)
  {
    DateKey(today) <= DateKey(due) <= DateKey(Calendar.AddDays(today, daysAhead))
  }

  /** `WHERE r.user_phone = ? AND r.completed = 0 AND r.due_date BETWEEN ? AND ?`. */
  predicate Pending(r: Reminder, phone: string, today: Date, daysAhead: nat)
    requires ValidDate(today)
  {
    r.userPhone == phone && !r.completed && InWindow(r.dueDate, today, daysAhead)
  }

  /**
   * A listed reminder: its category name, the days until it is due as
   * `moment(due).diff(moment(), 'days')` counts them (the time from `now` to
   * the due day's midnight, truncated), and the status for them.
   */
  function PendingView(r: Reminder, categories: seq<Category>, now: Timestamp): (v: PendingReminder)
    ensures v.reminder == r && v.categoryName == CategoryNameOf(categories, r.categoryId)
    ensures v.daysLeft == Calendar.DaysLeftAsWritten(r.dueDate, now)
    ensures v.status == Status(v.daysLeft)
  {
    var d := Calendar.DaysLeftAsWritten(r.dueDate, now);
    PendingReminder(r, CategoryNameOf(categories, r.categoryId), d, Status(d))
  }

  /** A listed reminder as intended: the calendar days until it is due, "hoje" exactly on the due day. */
  function PendingViewIntended(r: Reminder, categories: seq<Category>, today: Date): (v: PendingReminder)
    ensures v.reminder == r && v.categoryName == CategoryNameOf(categories, r.categoryId)
    ensures v.daysLeft == Calendar.DaysLeft(r.dueDate, today)
    ensures v.status == "hoje" <==> Calendar.DayNumber(r.dueDate) == Calendar.DayNumber(today)
    ensures v.status == Status(v.daysLeft)
  {
    var d := Calendar.DaysLeft(r.dueDate, today);
    PendingReminder(r, CategoryNameOf(categories, r.categoryId), d, Status(d))
  }

  /**
   * As written, a reminder due tomorrow is listed as due today ("hoje", no
   * days left) at any time after midnight; by calendar days it is one day away.
   */
  lemma TomorrowShownAsTodayAsWritten(r: Reminder, categories: seq<Category>, now: Timestamp)
    requires ValidDate(now.date) && now.date.year >= 1
    requires r.dueDate == Calendar.NextDay(now.date)
    requires 0 < now.second < 86400
    ensures PendingView(r, categories, now).status == "hoje"
    ensures PendingView(r, categories, now).daysLeft == 0
    ensures PendingViewIntended(r, categories, now.date).status == "próximo"
    ensures PendingViewIntended(r, categories, now.date).daysLeft == 1
  {
    Calendar.DaysLeftAsWrittenShift(r.dueDate, now);
  }

  function Views(reminders: seq<Reminder>, categories: seq<Category>, phone: string, now: Timestamp, daysAhead: nat): (r: seq<PendingReminder>)
    requires ValidDate(now.date)
    ensures forall v :: v in r <==> exists x :: x in reminders && Pending(x, phone, now.date, daysAhead) && v == PendingView(x, categories, now)
  {
    if reminders == [] then []
    else
      assert forall x :: x in reminders <==> x == reminders[0] || x in reminders[1..];
      (if Pending(reminders[0], phone, now.date, daysAhead) then [PendingView(reminders[0], categories, now)] else [])
      + Views(reminders[1..], categories, phone, now, daysAhead)
  }

  /** The sort key of `ORDER BY r.due_date`, negated for a descending sort. */
  function DueKey(v: PendingReminder): real
  {
    -(DateKey(v.reminder.dueDate) as real)
  }

  predicate ByDueDate(r: seq<PendingReminder>)
  {
    forall i, j :: 0 <= i < j < |r| ==> DateKey(r[i].reminder.dueDate) <= DateKey(r[j].reminder.dueDate)
  }

  /** `listPendingReminders(userPhone, daysAhead = 7)`, earliest due first. */
  function ListPendingReminders(reminders: seq<Reminder>, categories: seq<Category>, phone: string, now: Timestamp, daysAhead: nat := 7): (r: seq<PendingReminder>)
    requires ValidDate(now.date)
    ensures ByDueDate(r)
    ensures multiset(r) == multiset(Views(reminders, categories, phone, now, daysAhead))
  {
    var r := Sorting.SortDesc(Views(reminders, categories, phone, now, daysAhead), DueKey);
    assert forall i, j :: 0 <= i < j < |r| ==> DueKey(r[i]) >= DueKey(r[j]);
    r
  }

  /** A listing holds exactly the user's uncompleted reminders due in the window. */
  lemma ListPendingRows(reminders: seq<Reminder>, categories: seq<Category>, phone: string, now: Timestamp, daysAhead: nat, v: PendingReminder)
    requires ValidDate(now.date)
    ensures v in ListPendingReminders(reminders, categories, phone, now, daysAhead)
            <==> exists x :: x in reminders && Pending(x, phone, now.date, daysAhead) && v == PendingView(x, categories, now)
  {
    var r := ListPendingReminders(reminders, categories, phone, now, daysAhead);
    var all := Views(reminders, categories, phone, now, daysAhead);
    assert v in r <==> v in all by {
      assert v in r <==> v in multiset(r);
      assert v in all <==> v in multiset(all);
    }
  }

  /**
   * A listed reminder is due between today and `daysAhead` days from now, so its
   * days left stay within the window and it is never shown as overdue.
   */
  lemma ListedWithinWindow(reminders: seq<Reminder>, categories: seq<Category>, phone: string, now: Timestamp, daysAhead: nat, v: PendingReminder)
    requires ValidDate(now.date) && now.date.year >= 1 && now.second < 86400 && DatesValid(reminders)
    requires forall i :: 0 <= i < |reminders| ==> reminders[i].dueDate.year >= 1
    requires v in ListPendingReminders(reminders, categories, phone, now, daysAhead)
    ensures 0 <= v.daysLeft <= daysAhead
    ensures v.status != "atrasado"
  {
    ListPendingRows(reminders, categories, phone, now, daysAhead, v);
    var x :| x in reminders && Pending(x, phone, now.date, daysAhead) && v == PendingView(x, categories, now);
    var last := Calendar.AddDays(now.date, daysAhead);
    Calendar.DateKeyOrder(now.date, x.dueDate);
    Calendar.DateKeyOrder(x.dueDate, last);
    Calendar.DaysLeftAsWrittenBounds(x.dueDate, now);
  }

  /** `SELECT * FROM reminders WHERE id = ? AND user_phone = ?`: the first such row. */
  function FindReminder(reminders: seq<Reminder>, phone: string, id: nat): (r: Option<nat>)
    ensures r.None? <==> forall i :: 0 <= i < |reminders| ==> !(reminders[i].id == id && reminders[i].userPhone == phone)
    ensures r.Some? ==> r.value < |reminders| && reminders[r.value].id == id && reminders[r.value].userPhone == phone
  {
    if reminders == [] then None
    else if reminders[0].id == id && reminders[0].userPhone == phone then Some(0)
    else match FindReminder(reminders[1..], phone, id)
      case None => None
      case Some(i) => Some(i + 1)
  }

  /** Ids are unique, so looking up a stored row by its own id and owner finds that very row. */
  lemma FindsStoredRow(reminders: seq<Reminder>, rem: Reminder, next: nat)
    requires IdsBelow(reminders, ReminderId, next) && rem in reminders
    ensures FindReminder(reminders, rem.userPhone, rem.id).Some?
    ensures reminders[FindReminder(reminders, rem.userPhone, rem.id).value] == rem
  {
    var k :| 0 <= k < |reminders| && reminders[k] == rem;
    var f := FindReminder(reminders, rem.userPhone, rem.id).value;
    assert ReminderId(reminders[f]) == ReminderId(reminders[k]);
  }

  /** The type of the recorded transaction: an expense when the description mentions a payment, else income. */
  function TransactionType(description: string): (k: string)
    ensures k == "despesa" <==> Contains(Lower(description), "pagamento")
    ensures k == "receita" <==> !Contains(Lower(description), "pagamento")
  {
    if Contains(Lower(description), "pagamento") then "despesa" else "receita"
  }

  /** The next due date of a recurring reminder: a day, a week, a month or a year later; none for any other pattern. */
  function NextDue(due: Date, pattern: string): (r: Option<Date>)
    requires ValidDate(due)
    ensures r.Some? <==> pattern == "daily" || pattern == "weekly" || pattern == "monthly" || pattern == "yearly"
    ensures r.Some? ==> ValidDate(r.value)
    ensures r.Some? && due.year >= 1 ==> r.value.year >= 1 && Calendar.DayNumber(r.value) > Calendar.DayNumber(due)
    ensures pattern == "daily" && due.year >= 1 ==> Calendar.DayNumber(r.value) == Calendar.DayNumber(due) + 1
    ensures pattern == "weekly" && due.year >= 1 ==> Calendar.DayNumber(r.value) == Calendar.DayNumber(due) + 7
    ensures pattern == "monthly" ==> r.value.month == (if due.month == 12 then 1 else due.month + 1)
    ensures pattern == "yearly" ==> r.value.year == due.year + 1 && r.value.month == due.month
  {
    if pattern == "daily" then Some(Calendar.AddDays(due, 1))
    else if pattern == "weekly" then Some(Calendar.AddDays(due, 7))
    else if pattern == "monthly" then
      assert due.year >= 1 ==> Calendar.DayNumber(Calendar.AddMonth(due)) > Calendar.DayNumber(due) by {
        if due.year >= 1 { Calendar.AddMonthLater(due); }
      }
      Some(Calendar.AddMonth(due))
    else if pattern == "yearly" then
      assert due.year >= 1 ==> Calendar.DayNumber(Calendar.AddYear(due)) > Calendar.DayNumber(due) by {
        if due.year >= 1 { Calendar.AddYearLater(due); }
      }
      Some(Calendar.AddYear(due))
    else None
  }

  /**
   * The reminder `createReminder` inserts after completing a recurring one:
   * the same user, text, amount and category, recurring with the same
   * pattern, not completed, and due later.
   */
  function Successor(rem: Reminder, id: nat): (r: Option<Reminder>)
    requires ValidDate(rem.dueDate)
    ensures r.Some? <==> rem.recurring && rem.pattern.Some?
                         && rem.pattern.value in {"daily", "weekly", "monthly", "yearly"}
    ensures r.Some? ==> r.value.id == id && r.value.userPhone == rem.userPhone && r.value.description == rem.description
                        && r.value.amount == rem.amount && r.value.categoryId == rem.categoryId
                        && r.value.recurring && r.value.pattern == rem.pattern && !r.value.completed
                        && ValidDate(r.value.dueDate)
                        && (rem.dueDate.year >= 1 ==> Calendar.DayNumber(r.value.dueDate) > Calendar.DayNumber(rem.dueDate))
  {
    if rem.recurring && rem.pattern.Some? then
      match NextDue(rem.dueDate, rem.pattern.value)
      case None => None
      case Some(next) => Some(Reminder(id, rem.userPhone, rem.description, rem.amount, next, rem.categoryId, true, rem.pattern, false))
    else None
  }

  /** The transaction `completeReminder` records: one only when asked to and the amount is positive. */
  function Recorded(rem: Reminder, register: bool, phone: string, now: Timestamp): (r: seq<Transaction>)
    ensures |r| <= 1
    ensures r != [] <==> register && rem.amount > 0.0
    ensures r != [] ==> r[0].userPhone == phone && r[0].amount == rem.amount && r[0].description == Some(rem.description)
                        && r[0].categoryId == rem.categoryId && r[0].kind == TransactionType(rem.description)
  {
    if register && rem.amount > 0.0 then
      [Transaction(phone, TransactionType(rem.description), rem.amount, Some(rem.description), rem.categoryId, now)]
    else []
  }

  /** The reminders table after `UPDATE reminders SET completed = 1 WHERE id = ? AND user_phone = ?`. */
  function MarkCompleted(reminders: seq<Reminder>, phone: string, id: nat): (r: seq<Reminder>)
    ensures |r| == |reminders|
    ensures forall i :: 0 <= i < |r| ==>
              r[i] == (if reminders[i].id == id && reminders[i].userPhone == phone then reminders[i].(completed := true) else reminders[i])
  {
    seq(|reminders|, i requires 0 <= i < |reminders| =>
      if reminders[i].id == id && reminders[i].userPhone == phone then reminders[i].(completed := true) else reminders[i])
  }

  /** Marking rows completed keeps ids and due dates. */
  lemma MarkCompletedKeepsInvariant(reminders: seq<Reminder>, phone: string, id: nat, next: nat)
    requires IdsBelow(reminders, ReminderId, next) && DatesValid(reminders)
    ensures IdsBelow(MarkCompleted(reminders, phone, id), ReminderId, next) && DatesValid(MarkCompleted(reminders, phone, id))
  {
    var r := MarkCompleted(reminders, phone, id);
    assert forall i :: 0 <= i < |r| ==> r[i].id == reminders[i].id && r[i].dueDate == reminders[i].dueDate;
  }

  /** The result of `completeReminder`; a missing or foreign id rejects with "Lembrete não encontrado". */
  datatype Completion = NotFound | Completed(transactionRegistered: bool)

  /**
   * `completeReminder` as written: the lookup is issued as `db.get`, which the
   * database module object does not export, so the promise rejects before the
   * reminder is read: no transaction, no completion, no successor.
   */
  method CompleteReminder(db: Db, phone: string, id: nat, now: Timestamp, register: bool := false) returns (r: Settled<Completion>)
    ensures r == NotAFunction("get") && "get" !in Exports
  {
    r := NotAFunction("get");
  }

  /**
   * `completeReminder(userPhone, reminderId, registerTransaction = false)`
   * with a working connection: a missing row writes nothing; otherwise the transaction (if any) is
   * recorded, the row is marked completed and the successor (if any) inserted.
   */
  method CompleteReminderConnected(db: Db, phone: string, id: nat, now: Timestamp, register: bool := false) returns (r: Completion)
    requires IdsBelow(db.reminders, ReminderId, db.nextReminderId) && DatesValid(db.reminders)
    modifies db`transactions, db`reminders, db`nextReminderId
    ensures FindReminder(old(db.reminders), phone, id).None? ==>
              r == NotFound && db.transactions == old(db.transactions)
              && db.reminders == old(db.reminders) && db.nextReminderId == old(db.nextReminderId)
    ensures FindReminder(old(db.reminders), phone, id).Some? ==>
              var rem := old(db.reminders)[FindReminder(old(db.reminders), phone, id).value];
              var next := Successor(rem, old(db.nextReminderId));
              && r == Completed(register)
              && db.transactions == old(db.transactions) + Recorded(rem, register, phone, now)
              && db.reminders == MarkCompleted(old(db.reminders), phone, id) + (if next.Some? then [next.value] else [])
              && db.nextReminderId == old(db.nextReminderId) + (if next.Some? then 1 else 0)
    ensures IdsBelow(db.reminders, ReminderId, db.nextReminderId) && DatesValid(db.reminders)
  {
    var found := FindReminder(db.reminders, phone, id);
    if found.None? {
      return NotFound;
    }
    var rem := db.reminders[found.value];
    ghost var next := Successor(rem, db.nextReminderId);
    if register && rem.amount > 0.0 {
      db.AddTransaction(phone, TransactionType(rem.description), rem.amount, Some(rem.description), rem.categoryId, now);
    }
    MarkCompletedKeepsInvariant(db.reminders, phone, id, db.nextReminderId);
    db.reminders := MarkCompleted(db.reminders, phone, id);
    if rem.recurring && rem.pattern.Some? {
      var due := NextDue(rem.dueDate, rem.pattern.value);
      if due.Some? {
        var newId := CreateReminderConnected(db, phone, rem.description, due.value, rem.amount, rem.categoryId, true, rem.pattern);
        assert next == Some(Reminder(newId, phone, rem.description, rem.amount, due.value, rem.categoryId, true, rem.pattern, false));
      }
    }
    r := Completed(register);
  }

  /** Once completed, a reminder leaves its owner's pending listing. */
  lemma CompletedNotPending(reminders: seq<Reminder>, categories: seq<Category>, phone: string, id: nat, now: Timestamp, daysAhead: nat, v: PendingReminder)
    requires ValidDate(now.date)
    requires v in ListPendingReminders(MarkCompleted(reminders, phone, id), categories, phone, now, daysAhead)
    ensures v.reminder.id != id
  {
    ListPendingRows(MarkCompleted(reminders, phone, id), categories, phone, now, daysAhead, v);
  }

  /** The reminders table after `DELETE FROM reminders WHERE id = ? AND user_phone = ?`. */
  function Without(reminders: seq<Reminder>, phone: string, id: nat): (r: seq<Reminder>)
    ensures forall x :: x in r <==> x in reminders && !(x.id == id && x.userPhone == phone)
    ensures |r| <= |reminders|
  {
    if reminders == [] then []
    else
      assert forall x :: x in reminders <==> x == reminders[0] || x in reminders[1..];
      (if reminders[0].id == id && reminders[0].userPhone == phone then [] else [reminders[0]]) + Without(reminders[1..], phone, id)
  }

  /**
   * `deleteReminder` as written: `db.run` is not a function of the database
   * module object, so the promise rejects and nothing is deleted.
   */
  method DeleteReminder(db: Db, phone: string, id: nat) returns (r: Settled<bool>)
    ensures r == NotAFunction("run") && "run" !in Exports
  {
    r := NotAFunction("run");
  }

  /** `deleteReminder(userPhone, reminderId)` with a working connection: true exactly when a row of that user had that id. */
  method DeleteReminderConnected(db: Db, phone: string, id: nat) returns (removed: bool)
    requires IdsBelow(db.reminders, ReminderId, db.nextReminderId) && DatesValid(db.reminders)
    modifies db`reminders
    ensures removed <==> FindReminder(old(db.reminders), phone, id).Some?
    ensures db.reminders == Without(old(db.reminders), phone, id)
    ensures IdsBelow(db.reminders, ReminderId, db.nextReminderId) && DatesValid(db.reminders)
  {
    removed := FindReminder(db.reminders, phone, id).Some?;
    WithoutKeepsInvariant(db.reminders, phone, id, db.nextReminderId);
    db.reminders := Without(db.reminders, phone, id);
  }

  /** Deleting rows keeps the ids increasing and below the next id, and every due date valid. */
  lemma {:induction false} WithoutKeepsInvariant(reminders: seq<Reminder>, phone: string, id: nat, next: nat)
    requires IdsBelow(reminders, ReminderId, next) && DatesValid(reminders)
    ensures IdsBelow(Without(reminders, phone, id), ReminderId, next) && DatesValid(Without(reminders, phone, id))
  {
    if reminders != [] {
      var tail := reminders[1..];
      TailAbove(reminders, next);
      WithoutKeepsInvariant(tail, phone, id, next);
      var rest := Without(tail, phone, id);
      forall k | 0 <= k < |rest|
        ensures reminders[0].id < rest[k].id
      {
        assert rest[k] in rest;
      }
      if !(reminders[0].id == id && reminders[0].userPhone == phone) {
        ConsKeepsInvariant(reminders[0], Without(tail, phone, id), next);
      }
    }
  }

  /** The rows after the first keep the invariant, and all have larger ids than the first. */
  lemma TailAbove(reminders: seq<Reminder>, next: nat)
    requires reminders != [] && IdsBelow(reminders, ReminderId, next) && DatesValid(reminders)
    ensures IdsBelow(reminders[1..], ReminderId, next) && DatesValid(reminders[1..])
    ensures forall x :: x in reminders[1..] ==> reminders[0].id < x.id
  {
    var tail := reminders[1..];
    forall i, j | 0 <= i < j < |tail|
      ensures tail[i].id < tail[j].id
    {
      assert tail[i] == reminders[i + 1] && tail[j] == reminders[j + 1];
    }
    forall x | x in tail
      ensures reminders[0].id < x.id
    {
      var j :| 0 <= j < |tail| && tail[j] == x;
      assert reminders[j + 1] == x;
    }
  }

  /** A row with a smaller id than every row of a valid table can go in front of it. */
  lemma ConsKeepsInvariant(head: Reminder, rest: seq<Reminder>, next: nat)
    requires IdsBelow(rest, ReminderId, next) && DatesValid(rest)
    requires head.id < next && ValidDate(head.dueDate)
    requires forall k :: 0 <= k < |rest| ==> head.id < rest[k].id
    ensures IdsBelow([head] + rest, ReminderId, next) && DatesValid([head] + rest)
  {
    var w := [head] + rest;
    forall i, j | 0 <= i < j < |w|
      ensures w[i].id < w[j].id
    {
      assert w[j] == rest[j - 1];
      if i > 0 {
        assert w[i] == rest[i - 1];
      }
    }
    forall i | 0 < i < |w|
      ensures w[i] == rest[i - 1]
    {
    }
  }

  /** A deleted reminder is neither listed nor any longer found. */
  lemma DeletedReminderGone(reminders: seq<Reminder>, categories: seq<Category>, phone: string, id: nat, now: Timestamp, daysAhead: nat, v: PendingReminder)
    requires ValidDate(now.date)
    requires v in ListPendingReminders(Without(reminders, phone, id), categories, phone, now, daysAhead)
    ensures v.reminder.id != id
    ensures FindReminder(Without(reminders, phone, id), phone, id).None?
  {
    ListPendingRows(Without(reminders, phone, id), categories, phone, now, daysAhead, v);
    var w := Without(reminders, phone, id);
    forall i | 0 <= i < |w|
      ensures !(w[i].id == id && w[i].userPhone == phone)
    {
      assert w[i] in w;
    }
  }

  /** A row of the daily query: the reminder and its category name. */
  type DueRow = (Reminder, Option<string>)

  /** `WHERE r.due_date = today AND r.completed = 0`, joined with an existing user and the category name. */
  function DueToday(reminders: seq<Reminder>, users: map<string, User>, categories: seq<Category>, today: Date): (r: seq<DueRow>)
    ensures forall d :: d in r <==> (d.0 in reminders && d.0.dueDate == today && !d.0.completed && d.0.userPhone in users
                                     && d.1 == CategoryNameOf(categories, d.0.categoryId))
  {
    if reminders == [] then []
    else
      var x := reminders[0];
      assert forall y :: y in reminders <==> y == x || y in reminders[1..];
      (if x.dueDate == today && !x.completed && x.userPhone in users then [(x, CategoryNameOf(categories, x.categoryId))] else [])
      + DueToday(reminders[1..], users, categories, today)
  }

  function PhoneKey(d: DueRow): (string, string)
  {
    (d.0.userPhone, "")
  }

  /** The daily query's rows, `ORDER BY r.user_phone`. */
  function DailyQuery(reminders: seq<Reminder>, users: map<string, User>, categories: seq<Category>, today: Date): (r: seq<DueRow>)
    ensures TextOrder.Ordered(r, PhoneKey)
    ensures multiset(r) == multiset(DueToday(reminders, users, categories, today))
  {
    TextOrder.Sort(DueToday(reminders, users, categories, today), PhoneKey)
  }

  /** The distinct phones of some rows, in order of first appearance. */
  function Phones(rows: seq<DueRow>): (ps: seq<string>)
    ensures forall i, j :: 0 <= i < j < |ps| ==> ps[i] != ps[j]
  {
    if rows == [] then []
    else
      var rest := Phones(rows[..|rows| - 1]);
      var p := rows[|rows| - 1].0.userPhone;
      if p in rest then rest else rest + [p]
  }

  /** The phones listed are exactly those of the rows. */
  lemma {:induction false} PhonesMembers(rows: seq<DueRow>, p: string)
    ensures p in Phones(rows) <==> exists d :: d in rows && d.0.userPhone == p
    decreases |rows|
  {
    if rows != [] {
      var pre := rows[..|rows| - 1];
      var d := rows[|rows| - 1];
      assert rows == pre + [d];
      PhonesMembers(pre, p);
      if p in Phones(rows) && p !in Phones(pre) {
        assert d.0.userPhone == p;
      }
      if d.0.userPhone == p {
        assert p in Phones(rows);
      }
      forall e | e in pre && e.0.userPhone == p
        ensures p in Phones(rows)
      {
        assert p in Phones(pre);
      }
    }
  }

  /** The rows of one phone, in query order. */
  function OfPhone(rows: seq<DueRow>, phone: string): (r: seq<DueRow>)
    ensures |r| <= |rows|
  {
    if rows == [] then []
    else
      var d := rows[|rows| - 1];
      OfPhone(rows[..|rows| - 1], phone) + (if d.0.userPhone == phone then [d] else [])
  }

  /** A phone's group holds exactly that phone's rows. */
  lemma {:induction false} OfPhoneMembers(rows: seq<DueRow>, phone: string, d: DueRow)
    ensures d in OfPhone(rows, phone) <==> d in rows && d.0.userPhone == phone
    decreases |rows|
  {
    if rows != [] {
      var pre := rows[..|rows| - 1];
      assert rows == pre + [rows[|rows| - 1]];
      OfPhoneMembers(pre, phone, d);
    }
  }

  /** A line of the daily message: its number, text, the amount when positive, the category when named. */
  function LineOf(number: nat, d: DueRow): Chat.ReminderLine
  {
    Chat.ReminderLine(number, d.0.description,
                      if d.0.amount > 0.0 then Some(d.0.amount) else None,
                      if d.1.Some? && d.1.value != "" then d.1 else None)
  }

  /** The lines of one user's message, numbered from 1 in query order. */
  function Lines(entries: seq<DueRow>): (r: seq<Chat.ReminderLine>)
    ensures |r| == |entries|
    ensures forall k :: 0 <= k < |r| ==> r[k] == LineOf(k + 1, entries[k])
  {
    seq(|entries|, k requires 0 <= k < |entries| => LineOf(k + 1, entries[k]))
  }

  /** The messages of the daily broadcast: one per phone, in first-appearance order, to `phone@c.us`. */
  function Broadcast(rows: seq<DueRow>, today: Date): (r: seq<Chat.Outgoing>)
    ensures |r| == |Phones(rows)|
  {
    var ps := Phones(rows);
    seq(|ps|, k requires 0 <= k < |ps| => Chat.Outgoing(ps[k] + "@c.us", Chat.DailyReminders(today, Lines(OfPhone(rows, ps[k])))))
  }

  /** Every message goes to a distinct user, and lists every reminder of that user due today and no other. */
  lemma BroadcastPerUser(rows: seq<DueRow>, today: Date)
    ensures forall i, j :: 0 <= i < j < |Broadcast(rows, today)| ==> Broadcast(rows, today)[i].to != Broadcast(rows, today)[j].to
    ensures forall d :: d in rows ==> d.0.userPhone in Phones(rows)
    ensures forall k :: 0 <= k < |Phones(rows)| ==> OfPhone(rows, Phones(rows)[k]) != []
  {
    var ps := Phones(rows);
    var b := Broadcast(rows, today);
    forall i, j | 0 <= i < j < |b|
      ensures b[i].to != b[j].to
    {
      SameSuffix(ps[i], ps[j], "@c.us");
    }
    forall d | d in rows
      ensures d.0.userPhone in ps
    {
      PhonesMembers(rows, d.0.userPhone);
    }
    forall k | 0 <= k < |ps|
      ensures OfPhone(rows, ps[k]) != []
    {
      PhonesMembers(rows, ps[k]);
      var d :| d in rows && d.0.userPhone == ps[k];
      OfPhoneMembers(rows, ps[k], d);
    }
  }

  lemma SameSuffix(a: string, b: string, s: string)
    ensures a + s == b + s ==> a == b
  {
    if a + s == b + s {
      assert |a| == |b|;
      assert a == (a + s)[..|a|];
      assert b == (b + s)[..|b|];
    }
  }

  /** The message body for one user: its lines built one by one (`message +=`). */
  method ReminderLines(entries: seq<DueRow>) returns (lines: seq<Chat.ReminderLine>)
    ensures lines == Lines(entries)
  {
    lines := [];
    for k := 0 to |entries|
      invariant lines == Lines(entries[..k])
    {
      assert entries[..k + 1] == entries[..k] + [entries[k]];
      lines := lines + [LineOf(k + 1, entries[k])];
    }
    assert entries[..|entries|] == entries;
  }

  /** One more row adds its phone after the others, unless the phone is there already. */
  lemma PhonesSnoc(pre: seq<DueRow>, d: DueRow)
    ensures Phones(pre + [d]) == if d.0.userPhone in Phones(pre) then Phones(pre) else Phones(pre) + [d.0.userPhone]
  {
    assert (pre + [d])[..|pre|] == pre;
  }

  /** One more row joins the rows of its own phone only. */
  lemma OfPhoneSnoc(pre: seq<DueRow>, d: DueRow, p: string)
    ensures OfPhone(pre + [d], p) == OfPhone(pre, p) + (if d.0.userPhone == p then [d] else [])
  {
    assert (pre + [d])[..|pre|] == pre;
  }

  /** The rows grouped by phone: each listed phone with its own rows. */
  function Grouped(rows: seq<DueRow>): map<string, seq<DueRow>>
  {
    map p | p in Phones(rows) :: OfPhone(rows, p)
  }

  /** One more row joins the group of its phone, which starts empty when the phone is new. */
  lemma GroupedSnoc(pre: seq<DueRow>, d: DueRow)
    ensures var g := Grouped(pre);
            Grouped(pre + [d]) == g[d.0.userPhone := (if d.0.userPhone in g then g[d.0.userPhone] else []) + [d]]
  {
    var g := Grouped(pre);
    var phone := d.0.userPhone;
    var h := g[phone := (if phone in g then g[phone] else []) + [d]];
    var g' := Grouped(pre + [d]);
    PhonesSnoc(pre, d);
    assert g'.Keys == h.Keys;
    forall p | p in g'
      ensures g'[p] == h[p]
    {
      OfPhoneSnoc(pre, d, p);
      if p == phone && phone !in g {
        OfPhoneEmpty(pre, phone);
      }
    }
  }

  /** A phone of no row has no rows. */
  lemma {:induction false} OfPhoneEmpty(rows: seq<DueRow>, phone: string)
    requires phone !in Phones(rows)
    ensures OfPhone(rows, phone) == []
    decreases |rows|
  {
    if rows != [] {
      var pre := rows[..|rows| - 1];
      OfPhoneEmpty(pre, phone);
    }
  }

  /** The grouping loop of `checkDailyReminders`: rows by phone, phones in first-insertion order. */
  method GroupByUser(rows: seq<DueRow>) returns (byUser: map<string, seq<DueRow>>, order: seq<string>)
    ensures order == Phones(rows) && byUser == Grouped(rows)
  {
    byUser := map[];
    order := [];
    for i := 0 to |rows|
      invariant order == Phones(rows[..i]) && byUser == Grouped(rows[..i])
    {
      var d := rows[i];
      var phone := d.0.userPhone;
      assert rows[..i + 1] == rows[..i] + [d];
      PhonesSnoc(rows[..i], d);
      GroupedSnoc(rows[..i], d);
      if phone !in byUser {
        order := order + [phone];
      }
      byUser := byUser[phone := (if phone in byUser then byUser[phone] else []) + [d]];
    }
    assert rows[..|rows|] == rows;
  }

  /** The sending loop of `checkDailyReminders`: one message per grouped phone, in order. */
  method SendGrouped(client: Chat.Client, rows: seq<DueRow>, today: Date)
    modifies client
    ensures client.sent == old(client.sent) + Broadcast(rows, today)
  {
    var byUser, order := GroupByUser(rows);
    ghost var expected := Broadcast(rows, today);
    ghost var sent0 := client.sent;
    for k := 0 to |order|
      invariant client.sent == sent0 + expected[..k]
    {
      var phone := order[k];
      assert phone in byUser;
      var lines := ReminderLines(byUser[phone]);
      assert lines == Lines(OfPhone(rows, phone));
      assert expected[k] == Chat.Outgoing(phone + "@c.us", Chat.DailyReminders(today, lines));
      client.SendMessage(phone + "@c.us", Chat.DailyReminders(today, lines));
      assert expected[..k + 1] == expected[..k] + [expected[k]];
    }
    assert expected[..|order|] == expected;
  }

  /**
   * `checkDailyReminders(client)` as written: the query is issued as `db.all`,
   * which the database module object does not export; the catch logs the
   * TypeError and returns 0, and no message is sent.
   */
  method CheckDailyReminders(db: Db, client: Chat.Client, today: Date) returns (count: nat)
    ensures count == 0 && "all" !in Exports
  {
    count := 0;
  }

  /**
   * `checkDailyReminders(client)` with a working connection: groups the rows
   * due today by user, sends each user one message, and returns the number of
   * rows.
   */
  method CheckDailyRemindersConnected(db: Db, client: Chat.Client, today: Date) returns (count: nat)
    modifies client
    ensures count == |DailyQuery(db.reminders, db.users, db.categories, today)|
    ensures client.sent == old(client.sent) + Broadcast(DailyQuery(db.reminders, db.users, db.categories, today), today)
  {
    var rows := DailyQuery(db.reminders, db.users, db.categories, today);
    SendGrouped(client, rows, today);
    count := |rows|;
  }
}
