/**
 * The `budget` feature: one monthly limit per (user, category, period), the
 * progress of each limit against what was spent in the current month, and
 * deletion.
 */
module Budget {
  import opened Wrappers
  import opened JsNumber
  import opened Database
  import TextOrder

  /** The row `setBudget` looks for: same user, same category, same period. */
  predicate SameKey(b: Budget, phone: string, categoryId: nat, period: string)
  {
    b.userPhone == phone && b.categoryId == categoryId && b.period == period
  }

  /** At most one row per (user, category, period). */
  predicate KeysUnique(budgets: seq<Budget>)
  {
    forall i, j :: 0 <= i < j < |budgets| ==>
      !SameKey(budgets[j], budgets[i].userPhone, budgets[i].categoryId, budgets[i].period)
  }

  /** The index of the first row with that key (`db.get` of the SELECT). */
  function FindBudget(budgets: seq<Budget>, phone: string, categoryId: nat, period: string): (k: Option<nat>)
    ensures k.Some? ==> k.value < |budgets| && SameKey(budgets[k.value], phone, categoryId, period)
    ensures k.None? ==> forall i :: 0 <= i < |budgets| ==> !SameKey(budgets[i], phone, categoryId, period)
  {
    if budgets == [] then None
    else if SameKey(budgets[0], phone, categoryId, period) then Some(0)
    else match FindBudget(budgets[1..], phone, categoryId, period)
      case None => None
      case Some(k) => Some(k + 1)
  }

  /** What `setBudget` resolves with. */
  datatype SetResult = SetResult(id: nat, updated: bool)

  /** The table and the result after `setBudget`: update the existing row's amount, or insert one. */
  function Upsert(budgets: seq<Budget>, next: nat, phone: string, categoryId: nat, amount: real, period: string): (r: (seq<Budget>, SetResult))
    ensures |r.0| == |budgets| + (if r.1.updated then 0 else 1)
  {
    match FindBudget(budgets, phone, categoryId, period)
    case Some(k) => (budgets[k := budgets[k].(amount := amount)], SetResult(budgets[k].id, true))
    case None => (budgets + [Budget(next, phone, categoryId, amount, period)], SetResult(next, false))
  }

  /**
   * The upsert never creates a second row for a key: it reports an update
   * exactly when a row for the key existed, afterwards the key has a row with
   * the new amount and the returned id, and every row of another key is
   * untouched.
   */
  lemma UpsertSpec(budgets: seq<Budget>, next: nat, phone: string, categoryId: nat, amount: real, period: string)
    requires KeysUnique(budgets) && IdsBelow(budgets, BudgetId, next)
    ensures var (r, res) := Upsert(budgets, next, phone, categoryId, amount, period);
      KeysUnique(r)
      && IdsBelow(r, BudgetId, if res.updated then next else next + 1)
      && (res.updated <==> exists i :: 0 <= i < |budgets| && SameKey(budgets[i], phone, categoryId, period))
      && (exists i :: 0 <= i < |r| && SameKey(r[i], phone, categoryId, period) && r[i].amount == amount && r[i].id == res.id)
      && (forall i :: 0 <= i < |budgets| && !SameKey(budgets[i], phone, categoryId, period) ==> r[i] == budgets[i])
  {
    var (r, res) := Upsert(budgets, next, phone, categoryId, amount, period);
    match FindBudget(budgets, phone, categoryId, period)
    case Some(k) =>
      assert r[k].id == res.id;
    case None =>
      assert SameKey(r[|budgets|], phone, categoryId, period);
  }

  /**
   * `setBudget` as written: its first statement is `db.get`, which the module
   * object of database.js does not export, so the promise rejects with a
   * TypeError before any SQL runs and the budgets table is left as it was.
   */
  method SetBudget(db: Db, phone: string, categoryId: nat, amount: real, period: string := "monthly") returns (r: Settled<SetResult>)
    ensures r == NotAFunction("get") && "get" !in Exports
  {
    r := NotAFunction("get");
  }

  /**
   * `setBudget` with a working connection: `period` defaults to `'monthly'`.
   * An existing row for the key gets the new amount and keeps its id;
   * otherwise a row is inserted.
   */
  method SetBudgetConnected(db: Db, phone: string, categoryId: nat, amount: real, period: string := "monthly") returns (res: SetResult)
    modifies db`budgets, db`nextBudgetId
    ensures (db.budgets, res) == Upsert(old(db.budgets), old(db.nextBudgetId), phone, categoryId, amount, period)
    ensures db.nextBudgetId == if res.updated then old(db.nextBudgetId) else old(db.nextBudgetId) + 1
  {
    var k := FindBudget(db.budgets, phone, categoryId, period);
    if k.Some? {
      res := SetResult(db.budgets[k.value].id, true);
      db.budgets := db.budgets[k.value := db.budgets[k.value].(amount := amount)];
    } else {
      res := SetResult(db.nextBudgetId, false);
      db.budgets := db.budgets + [Budget(db.nextBudgetId, phone, categoryId, amount, period)];
      db.nextBudgetId := db.nextBudgetId + 1;
    }
  }

  /** The status of a percentage used: `'exceeded'` from 100, `'warning'` from 80, else `'ok'`. */
  function Status(percentUsed: Num): (s: string)
    ensures s == "exceeded" <==> AtLeast(percentUsed, 100.0)
    ensures s == "warning" <==> AtLeast(percentUsed, 80.0) && !AtLeast(percentUsed, 100.0)
    ensures s == "ok" <==> !AtLeast(percentUsed, 80.0)
  {
    if AtLeast(percentUsed, 100.0) then "exceeded"
    else if AtLeast(percentUsed, 80.0) then "warning"
    else "ok"
  }

  /**
   * For a positive limit the status reads directly off the spending: exceeded
   * once the limit is reached, warning from four fifths of it, ok below.
   */
  lemma StatusBySpending(spent: real, amount: real)
    requires amount > 0.0
    ensures Status(Percent(spent, amount)) == "exceeded" <==> spent >= amount
    ensures Status(Percent(spent, amount)) == "warning" <==> 0.8 * amount <= spent < amount
    ensures Status(Percent(spent, amount)) == "ok" <==> spent < 0.8 * amount
  {
    var q := spent / amount;
    assert q * amount == spent;
    var p := Percent(spent, amount);
    assert p == Finite(q * 100.0);
    assert AtLeast(p, 100.0) <==> q >= 1.0;
    assert AtLeast(p, 80.0) <==> q >= 0.8;
    ScaleCompare(q, 1.0, amount, spent);
    ScaleCompare(q, 0.8, amount, spent);
    assert AtLeast(p, 100.0) <==> spent >= amount;
    assert AtLeast(p, 80.0) <==> spent >= 0.8 * amount;
  }

  lemma ScaleCompare(q: real, c: real, a: real, product: real)
    requires a > 0.0 && product == q * a
    ensures q >= c <==> product >= c * a
  {
    if q >= c {
      assert (q - c) * a >= 0.0;
    } else {
      assert (c - q) * a > 0.0;
    }
  }

  /**
   * The spending window as written: `date BETWEEN 'YYYY-MM-01' AND 'YYYY-MM-LL'`
   * compares the `YYYY-MM-DD HH:MM:SS` text of the row's timestamp, which sorts
   * after `'YYYY-MM-LL'` on the last day of the month; so only days 1 to LL-1
   * of the month count.
   */
  predicate CountedAsWritten(t: Transaction, phone: string, categoryId: nat, today: Date)
  {
    t.userPhone == phone && t.categoryId == Some(categoryId)
    && t.date.date.year == today.year && t.date.date.month == today.month
    && t.date.date.day < DaysInMonth(today.year, today.month)
  }

  /** The spending window meant (and the one `getTransactions` uses via `date(t.date)`): the whole month. */
  predicate Counted(t: Transaction, phone: string, categoryId: nat, today: Date)
  {
    t.userPhone == phone && t.categoryId == Some(categoryId)
    && t.date.date.year == today.year && t.date.date.month == today.month
  }

  /** `COALESCE(SUM(amount), 0)` over the rows the query as written counts; rows of any type count. */
  function SpentAsWritten(txs: seq<Transaction>, phone: string, categoryId: nat, today: Date): real
  {
    if txs == [] then 0.0
    else (if CountedAsWritten(txs[0], phone, categoryId, today) then txs[0].amount else 0.0)
         + SpentAsWritten(txs[1..], phone, categoryId, today)
  }

  /** The month's spending in the category, whole month; rows of any type count. */
  function Spent(txs: seq<Transaction>, phone: string, categoryId: nat, today: Date): real
  {
    if txs == [] then 0.0
    else (if Counted(txs[0], phone, categoryId, today) then txs[0].amount else 0.0)
         + Spent(txs[1..], phone, categoryId, today)
  }

  /** A purchase on the last day of the month is missed by the query as written and counted by the whole-month window. */
  lemma LastDayPurchaseMissed(t: Transaction, phone: string, categoryId: nat, today: Date)
    requires t.userPhone == phone && t.categoryId == Some(categoryId) && t.amount > 0.0
    requires t.date.date == Date(today.year, today.month, DaysInMonth(today.year, today.month))
    ensures SpentAsWritten([t], phone, categoryId, today) == 0.0
    ensures Spent([t], phone, categoryId, today) == t.amount
  {
  }

  /**
   * Recording a row raises the month's spending of its category, as the query
   * counts it, by the row's amount exactly when the row falls in the window.
   */
  lemma {:induction false} SpentAsWrittenAppend(txs: seq<Transaction>, t: Transaction, phone: string, categoryId: nat, today: Date)
    ensures SpentAsWritten(txs + [t], phone, categoryId, today)
            == SpentAsWritten(txs, phone, categoryId, today) + (if CountedAsWritten(t, phone, categoryId, today) then t.amount else 0.0)
  {
    if txs == [] {
      assert ([] + [t])[1..] == [];
    } else {
      assert (txs + [t])[1..] == txs[1..] + [t];
      SpentAsWrittenAppend(txs[1..], t, phone, categoryId, today);
    }
  }

  /** As intended, recording a row raises the month's spending of its category by its amount, whatever its day. */
  lemma {:induction false} SpentAppend(txs: seq<Transaction>, t: Transaction, phone: string, categoryId: nat, today: Date)
    ensures Spent(txs + [t], phone, categoryId, today)
            == Spent(txs, phone, categoryId, today) + (if Counted(t, phone, categoryId, today) then t.amount else 0.0)
  {
    if txs == [] {
      assert ([] + [t])[1..] == [];
    } else {
      assert (txs + [t])[1..] == txs[1..] + [t];
      SpentAppend(txs[1..], t, phone, categoryId, today);
    }
  }

  /** One `checkBudgetProgress` row: a budget joined with its category and its spending in the query's window. */
  function ProgressOf(txs: seq<Transaction>, b: Budget, c: Category, today: Date): (p: BudgetProgress)
    ensures p.id == b.id && p.budgetAmount == b.amount && p.categoryId == b.categoryId
    ensures p.categoryName == c.name && p.categoryKind == c.kind
    ensures p.spentAmount == SpentAsWritten(txs, b.userPhone, b.categoryId, today)
    ensures p.percentUsed == Percent(p.spentAmount, b.amount)
    ensures p.remaining == b.amount - p.spentAmount
    ensures p.status == Status(p.percentUsed)
  {
    var spent := SpentAsWritten(txs, b.userPhone, b.categoryId, today);
    var pct := Percent(spent, b.amount);
    BudgetProgress(b.id, b.amount, b.categoryId, c.name, c.kind, spent, pct, b.amount - spent, Status(pct))
  }

  /** The budgets the query selects: the user's monthly ones whose category row exists (inner join). */
  predicate Tracked(b: Budget, phone: string, categories: seq<Category>)
  {
    b.userPhone == phone && b.period == "monthly" && FindCategory(categories, b.categoryId).Some?
  }

  function Progress(txs: seq<Transaction>, categories: seq<Category>, budgets: seq<Budget>, phone: string, today: Date): (r: seq<BudgetProgress>)
    ensures forall p :: p in r ==> exists b :: b in budgets && Tracked(b, phone, categories)
                                               && p == ProgressOf(txs, b, FindCategory(categories, b.categoryId).value, today)
    ensures forall b :: b in budgets && Tracked(b, phone, categories) ==>
                        ProgressOf(txs, b, FindCategory(categories, b.categoryId).value, today) in r
  {
    if budgets == [] then []
    else
      var b := budgets[0];
      (if Tracked(b, phone, categories) then [ProgressOf(txs, b, FindCategory(categories, b.categoryId).value, today)] else [])
      + Progress(txs, categories, budgets[1..], phone, today)
  }

  function ProgressKey(p: BudgetProgress): (string, string)
  {
    (p.categoryKind, p.categoryName)
  }

  /**
   * `checkBudgetProgress(userPhone)` for the month of `today`: every tracked
   * budget once, with its spending, percentage, remaining amount (negative once
   * exceeded) and status, ordered by category type and name.
   */
  function CheckBudgetProgress(txs: seq<Transaction>, categories: seq<Category>, budgets: seq<Budget>, phone: string, today: Date): (r: seq<BudgetProgress>)
    ensures TextOrder.Ordered(r, ProgressKey)
    ensures multiset(r) == multiset(Progress(txs, categories, budgets, phone, today))
  {
    TextOrder.Sort(Progress(txs, categories, budgets, phone, today), ProgressKey)
  }

  /** Each reported row is a tracked budget of the user, and each tracked budget is reported. */
  lemma CheckBudgetProgressRows(txs: seq<Transaction>, categories: seq<Category>, budgets: seq<Budget>, phone: string, today: Date, p: BudgetProgress)
    ensures p in CheckBudgetProgress(txs, categories, budgets, phone, today)
            <==> exists b :: b in budgets && Tracked(b, phone, categories)
                             && p == ProgressOf(txs, b, FindCategory(categories, b.categoryId).value, today)
  {
    var r := CheckBudgetProgress(txs, categories, budgets, phone, today);
    var all := Progress(txs, categories, budgets, phone, today);
    assert p in r <==> p in all by {
      assert p in r <==> p in multiset(r);
      assert p in all <==> p in multiset(all);
    }
  }

  /** The budgets table after `DELETE FROM budgets WHERE id = ? AND user_phone = ?`. */
  function Deleted(budgets: seq<Budget>, phone: string, id: nat): (r: seq<Budget>)
    ensures forall b :: b in r <==> b in budgets && !(b.id == id && b.userPhone == phone)
  {
    if budgets == [] then []
    else (if budgets[0].id == id && budgets[0].userPhone == phone then [] else [budgets[0]])
         + Deleted(budgets[1..], phone, id)
  }

  /** Some row has that id and belongs to the user. */
  predicate Owns(budgets: seq<Budget>, phone: string, id: nat)
  {
    exists i :: 0 <= i < |budgets| && budgets[i].id == id && budgets[i].userPhone == phone
  }

  lemma {:induction false} DeletedNothing(budgets: seq<Budget>, phone: string, id: nat)
    requires !Owns(budgets, phone, id)
    ensures Deleted(budgets, phone, id) == budgets
  {
    if budgets != [] {
      var t := budgets[1..];
      forall i | 0 <= i < |t| ensures !(t[i].id == id && t[i].userPhone == phone) {
        assert t[i] == budgets[i + 1];
      }
      DeletedNothing(budgets[1..], phone, id);
    }
  }

  /** Ids are unique, so a delete removes one row when the user owns that id and none otherwise. */
  lemma {:induction false} DeletedCount(budgets: seq<Budget>, phone: string, id: nat, next: nat)
    requires IdsBelow(budgets, BudgetId, next)
    ensures |Deleted(budgets, phone, id)| == |budgets| - (if Owns(budgets, phone, id) then 1 else 0)
  {
    if budgets != [] {
      var t := budgets[1..];
      IdsTail(budgets, BudgetId, next);
      OwnsCons(budgets, phone, id);
      if budgets[0].id == id && budgets[0].userPhone == phone {
        forall i | 0 <= i < |t| ensures t[i].id != id {
          assert BudgetId(budgets[0]) < BudgetId(budgets[i + 1]);
        }
        DeletedNothing(t, phone, id);
      } else {
        DeletedCount(t, phone, id, next);
      }
    }
  }

  lemma OwnsCons(budgets: seq<Budget>, phone: string, id: nat)
    requires budgets != []
    ensures Owns(budgets, phone, id) <==>
              (budgets[0].id == id && budgets[0].userPhone == phone) || Owns(budgets[1..], phone, id)
  {
    var t := budgets[1..];
    if Owns(t, phone, id) {
      var i :| 0 <= i < |t| && t[i].id == id && t[i].userPhone == phone;
      assert budgets[i + 1] == t[i];
    }
    if Owns(budgets, phone, id) {
      var i :| 0 <= i < |budgets| && budgets[i].id == id && budgets[i].userPhone == phone;
      if i > 0 {
        assert t[i - 1] == budgets[i];
      }
    }
  }


  /** Deleting keeps the ids of the remaining rows increasing and below the counter. */
  lemma {:induction false} DeletedIds(budgets: seq<Budget>, phone: string, id: nat, next: nat)
    requires IdsBelow(budgets, BudgetId, next)
    ensures IdsBelow(Deleted(budgets, phone, id), BudgetId, next)
  {
    if budgets != [] {
      var t := budgets[1..];
      IdsTail(budgets, BudgetId, next);
      DeletedIds(t, phone, id, next);
      var rt := Deleted(t, phone, id);
      forall j | 0 <= j < |rt| ensures BudgetId(budgets[0]) < BudgetId(rt[j]) {
        assert rt[j] in t;
        var k :| 0 <= k < |t| && t[k] == rt[j];
        assert BudgetId(budgets[0]) < BudgetId(budgets[k + 1]);
      }
      if !(budgets[0].id == id && budgets[0].userPhone == phone) {
        IdsCons(budgets[0], rt, BudgetId, next);
      }
    }
  }

  /**
   * `deleteBudget` as written: `db.run` is not a function of the database
   * module object, so the promise rejects and no row is deleted.
   */
  method DeleteBudget(db: Db, phone: string, id: nat) returns (r: Settled<bool>)
    ensures r == NotAFunction("run") && "run" !in Exports
  {
    r := NotAFunction("run");
  }

  /** `deleteBudget` with a working connection: true iff a row with that id belonged to the user. */
  method DeleteBudgetConnected(db: Db, phone: string, id: nat) returns (removed: bool)
    modifies db`budgets
    ensures db.budgets == Deleted(old(db.budgets), phone, id)
    ensures removed == Owns(old(db.budgets), phone, id)
  {
    removed := Owns(db.budgets, phone, id);
    db.budgets := Deleted(db.budgets, phone, id);
  }
}
