/**
 * Savings goals (`goals.js`): creating a goal, adding to or replacing its
 * saved amount capped at the target, listing open goals with their derived
 * fields, and deleting a goal.
 */
module Goals {
  import opened Wrappers
  import opened JsNumber
  import opened Database
  import Calendar
  import Sorting

  /**
   * `createGoal` as written: the INSERT is issued as `db.run`, which the
   * database module object does not export, so the promise rejects and no row
   * is added.
   */
  method CreateGoal(db: Db, phone: string, name: string, targetAmount: real, targetDate: Date,
                    categoryId: Option<nat> := None) returns (r: Settled<nat>)
    ensures r == NotAFunction("run") && "run" !in Exports
  {
    r := NotAFunction("run");
  }

  /**
   * `createGoal` with a working connection: a new row with nothing saved yet
   * and not completed; the new row id is returned.
   */
  method CreateGoalConnected(db: Db, phone: string, name: string, targetAmount: real, targetDate: Date,
                    categoryId: Option<nat> := None) returns (id: nat)
    requires IdsBelow(db.goals, GoalId, db.nextGoalId)
    modifies db`goals, db`nextGoalId
    ensures id == old(db.nextGoalId) && db.nextGoalId == id + 1
    ensures db.goals == old(db.goals) + [Goal(id, phone, name, targetAmount, 0.0, targetDate, categoryId, false)]
    ensures IdsBelow(db.goals, GoalId, db.nextGoalId)
  {
    id := db.nextGoalId;
    db.goals := db.goals + [Goal(id, phone, name, targetAmount, 0.0, targetDate, categoryId, false)];
    db.nextGoalId := id + 1;
  }

  /** `SELECT … FROM goals WHERE id = ? AND user_phone = ?`: the first such row. */
  function FindGoal(goals: seq<Goal>, phone: string, id: nat): (r: Option<nat>)
    ensures r.None? <==> forall i :: 0 <= i < |goals| ==> !(goals[i].id == id && goals[i].userPhone == phone)
    ensures r.Some? ==> r.value < |goals| && goals[r.value].id == id && goals[r.value].userPhone == phone
    ensures r.Some? ==> forall i :: 0 <= i < r.value ==> !(goals[i].id == id && goals[i].userPhone == phone)
  {
    if goals == [] then None
    else if goals[0].id == id && goals[0].userPhone == phone then Some(0)
    else match FindGoal(goals[1..], phone, id)
      case None => None
      case Some(i) => Some(i + 1)
  }

  /**
   * The new saved amount: the current amount plus `amount` when adding, or
   * `amount` itself, and never above the target (`Math.min`).
   */
  function Capped(current: real, target: real, amount: real, isAddition: bool): (r: real)
    ensures var raw := if isAddition then current + amount else amount;
            r <= target && (r == raw || r == target) && (raw <= target ==> r == raw)
  {
    var raw := if isAddition then current + amount else amount;
    if raw <= target then raw else target
  }

  /** The result of `updateGoalProgress`. */
  datatype GoalProgress = GoalProgress(updated: bool, completed: bool, progress: Num)

  /**
   * The row the `UPDATE` writes, as written: the `completed` expression reads
   * the row before the update, so it tests the old saved amount.
   */
  function StoredRowAsWritten(g: Goal, newAmount: real): (r: Goal)
    ensures r.currentAmount == newAmount && (r.completed <==> g.currentAmount >= g.targetAmount)
    ensures r.id == g.id && r.userPhone == g.userPhone && r.name == g.name && r.targetAmount == g.targetAmount
    ensures r.targetDate == g.targetDate && r.categoryId == g.categoryId
  {
    g.(currentAmount := newAmount, completed := g.currentAmount >= g.targetAmount)
  }

  /** The row the `UPDATE` is meant to write: completed once the new amount reaches the target. */
  function StoredRow(g: Goal, newAmount: real): (r: Goal)
    ensures r.currentAmount == newAmount && (r.completed <==> newAmount >= g.targetAmount)
    ensures r.id == g.id && r.userPhone == g.userPhone && r.name == g.name && r.targetAmount == g.targetAmount
    ensures r.targetDate == g.targetDate && r.categoryId == g.categoryId
  {
    g.(currentAmount := newAmount, completed := newAmount >= g.targetAmount)
  }

  /** The goals table after the `UPDATE … WHERE id = ? AND user_phone = ?`, as written. */
  function SetProgress(goals: seq<Goal>, phone: string, id: nat, newAmount: real): (r: seq<Goal>)
    ensures |r| == |goals|
    ensures forall i :: 0 <= i < |goals| ==>
              r[i] == (if goals[i].id == id && goals[i].userPhone == phone then StoredRowAsWritten(goals[i], newAmount) else goals[i])
  {
    seq(|goals|, i requires 0 <= i < |goals| =>
      if goals[i].id == id && goals[i].userPhone == phone then StoredRowAsWritten(goals[i], newAmount) else goals[i])
  }

  /** The goals table after the `UPDATE` as intended: the matching row closes once it reaches its target. */
  function SetProgressIntended(goals: seq<Goal>, phone: string, id: nat, newAmount: real): (r: seq<Goal>)
    ensures |r| == |goals|
    ensures forall i :: 0 <= i < |goals| ==>
              r[i] == (if goals[i].id == id && goals[i].userPhone == phone then StoredRow(goals[i], newAmount) else goals[i])
  {
    seq(|goals|, i requires 0 <= i < |goals| =>
      if goals[i].id == id && goals[i].userPhone == phone then StoredRow(goals[i], newAmount) else goals[i])
  }

  /**
   * `updateGoalProgress`: no change and a rejection ("Meta não encontrada")
   * when the user has no goal with that id; otherwise the new table and the
   * reported result.
   */
  function ApplyProgress(goals: seq<Goal>, phone: string, id: nat, amount: real, isAddition: bool): (r: Option<(seq<Goal>, GoalProgress)>)
    ensures r.None? <==> FindGoal(goals, phone, id).None?
    ensures r.Some? ==>
              var g := goals[FindGoal(goals, phone, id).value];
              var n := Capped(g.currentAmount, g.targetAmount, amount, isAddition);
              && r.value.0 == SetProgress(goals, phone, id, n)
              && r.value.1.updated
              && (r.value.1.completed <==> n >= g.targetAmount)
              && r.value.1.progress == Percent(n, g.targetAmount)
  {
    match FindGoal(goals, phone, id)
    case None => None
    case Some(i) =>
      var g := goals[i];
      var n := Capped(g.currentAmount, g.targetAmount, amount, isAddition);
      Some((SetProgress(goals, phone, id, n), GoalProgress(true, n >= g.targetAmount, Percent(n, g.targetAmount))))
  }

  /** The reported progress of a goal with a positive target never exceeds 100%, nor drops below 0 for a non-negative amount. */
  lemma ProgressAtMostHundred(goals: seq<Goal>, phone: string, id: nat, amount: real, isAddition: bool)
    requires FindGoal(goals, phone, id).Some?
    requires goals[FindGoal(goals, phone, id).value].targetAmount > 0.0
    requires var g := goals[FindGoal(goals, phone, id).value];
             (if isAddition then g.currentAmount + amount else amount) >= 0.0
    ensures var p := ApplyProgress(goals, phone, id, amount, isAddition).value.1.progress;
            p.Finite? && 0.0 <= p.v <= 100.0
  {
    var g := goals[FindGoal(goals, phone, id).value];
    var n := Capped(g.currentAmount, g.targetAmount, amount, isAddition);
    PercentOfShare(n, g.targetAmount);
  }

  /** Two additions of non-negative amounts save what one addition of their sum saves. */
  lemma AdditionsCompose(current: real, target: real, a: real, b: real)
    requires a >= 0.0 && b >= 0.0
    ensures Capped(Capped(current, target, a, true), target, b, true) == Capped(current, target, a + b, true)
  {
  }

  /** Replacing the saved amount twice with the same value is replacing it once. */
  lemma ReplaceIdempotent(current: real, target: real, amount: real)
    ensures Capped(Capped(current, target, amount, false), target, amount, false) == Capped(current, target, amount, false)
  {
  }

  /**
   * `updateGoalProgress` as written: the lookup is issued as `db.get`, which
   * the database module object does not export, so the promise rejects before
   * the goal is read and nothing is written.
   */
  method UpdateGoalProgress(db: Db, phone: string, id: nat, amount: real, isAddition: bool := true)
    returns (r: Settled<GoalProgress>)
    ensures r == NotAFunction("get") && "get" !in Exports
  {
    r := NotAFunction("get");
  }

  /**
   * `updateGoalProgress(userPhone, goalId, amount, isAddition = true)` with a
   * working connection: a missing goal writes nothing; otherwise the matching
   * row is updated by the UPDATE statement as written.
   */
  method UpdateGoalProgressConnected(db: Db, phone: string, id: nat, amount: real, isAddition: bool := true)
    returns (r: Option<GoalProgress>)
    modifies db`goals
    ensures var a := ApplyProgress(old(db.goals), phone, id, amount, isAddition);
            && (a.None? ==> r.None? && db.goals == old(db.goals))
            && (a.Some? ==> r == Some(a.value.1) && db.goals == a.value.0)
  {
    var a := ApplyProgress(db.goals, phone, id, amount, isAddition);
    match a {
      case None =>
        r := None;
      case Some(p) =>
        db.goals := p.0;
        r := Some(p.1);
    }
  }

  /** `WHERE g.user_phone = ? [AND g.completed = 0]`. */
  predicate Listed(g: Goal, phone: string, includeCompleted: bool)
  {
    g.userPhone == phone && (includeCompleted || !g.completed)
  }

  /**
   * A goal with its category name, days until its target date (moment's
   * truncated difference from `now`), progress and remaining amount.
   */
  function ViewOf(g: Goal, categories: seq<Category>, now: Timestamp): (v: GoalView)
    ensures v.goal == g && v.categoryName == CategoryNameOf(categories, g.categoryId)
    ensures v.remainingAmount == g.targetAmount - g.currentAmount
    ensures v.remainingAmount > 0.0 <==> g.currentAmount < g.targetAmount
    ensures g.targetAmount > 0.0 && 0.0 <= g.currentAmount <= g.targetAmount ==>
              v.progress.Finite? && 0.0 <= v.progress.v <= 100.0
    ensures v.daysLeft == Calendar.DaysLeftAsWritten(g.targetDate, now)
  {
    assert g.targetAmount > 0.0 && 0.0 <= g.currentAmount <= g.targetAmount ==>
             Percent(g.currentAmount, g.targetAmount).Finite? && 0.0 <= Percent(g.currentAmount, g.targetAmount).v <= 100.0 by {
      if g.targetAmount > 0.0 && 0.0 <= g.currentAmount <= g.targetAmount {
        PercentOfShare(g.currentAmount, g.targetAmount);
      }
    }
    GoalView(g, CategoryNameOf(categories, g.categoryId), Calendar.DaysLeftAsWritten(g.targetDate, now),
             Percent(g.currentAmount, g.targetAmount), g.targetAmount - g.currentAmount)
  }

  function Views(goals: seq<Goal>, categories: seq<Category>, phone: string, includeCompleted: bool, now: Timestamp): (r: seq<GoalView>)
    ensures forall v :: v in r <==> exists g :: g in goals && Listed(g, phone, includeCompleted) && v == ViewOf(g, categories, now)
  {
    if goals == [] then []
    else
      var rest := Views(goals[1..], categories, phone, includeCompleted, now);
      assert forall g :: g in goals <==> g == goals[0] || g in goals[1..];
      (if Listed(goals[0], phone, includeCompleted) then [ViewOf(goals[0], categories, now)] else []) + rest
  }

  /** The sort key of `ORDER BY g.target_date`, negated for a descending sort. */
  function TargetDateKey(v: GoalView): real
  {
    -(DateKey(v.goal.targetDate) as real)
  }

  /** Ascending target dates along a listing. */
  predicate ByTargetDate(r: seq<GoalView>)
  {
    forall i, j :: 0 <= i < j < |r| ==> DateKey(r[i].goal.targetDate) <= DateKey(r[j].goal.targetDate)
  }

  /** `listGoals(userPhone, includeCompleted = false)`. */
  function ListGoals(goals: seq<Goal>, categories: seq<Category>, phone: string, now: Timestamp, includeCompleted: bool := false): (r: seq<GoalView>)
    ensures ByTargetDate(r)
    ensures multiset(r) == multiset(Views(goals, categories, phone, includeCompleted, now))
  {
    var r := Sorting.SortDesc(Views(goals, categories, phone, includeCompleted, now), TargetDateKey);
    assert forall i, j :: 0 <= i < j < |r| ==> TargetDateKey(r[i]) >= TargetDateKey(r[j]);
    r
  }

  /** A listing holds exactly the views of the user's goals, completed ones only when asked for. */
  lemma ListGoalsRows(goals: seq<Goal>, categories: seq<Category>, phone: string, now: Timestamp, includeCompleted: bool, v: GoalView)
    ensures v in ListGoals(goals, categories, phone, now, includeCompleted)
            <==> exists g :: g in goals && Listed(g, phone, includeCompleted) && v == ViewOf(g, categories, now)
  {
    var r := ListGoals(goals, categories, phone, now, includeCompleted);
    var all := Views(goals, categories, phone, includeCompleted, now);
    assert v in r <==> v in all by {
      assert v in r <==> v in multiset(r);
      assert v in all <==> v in multiset(all);
    }
  }

  /** A goal just created is listed as open with nothing saved and its whole target remaining. */
  lemma CreatedGoalListed(goals: seq<Goal>, categories: seq<Category>, now: Timestamp, g: Goal)
    requires g.currentAmount == 0.0 && !g.completed && g.targetAmount > 0.0
    ensures ViewOf(g, categories, now) in ListGoals(goals + [g], categories, g.userPhone, now)
    ensures ViewOf(g, categories, now).progress == Finite(0.0)
    ensures ViewOf(g, categories, now).remainingAmount == g.targetAmount
  {
    ListGoalsRows(goals + [g], categories, g.userPhone, now, false, ViewOf(g, categories, now));
    assert g in goals + [g];
  }

  /**
   * As written, an update that takes an open goal from below its target to
   * its target is reported as completed, but the row is stored as not
   * completed, so the listing of open goals keeps showing it.
   */
  lemma ReachedGoalStaysOpenAsWritten(goals: seq<Goal>, categories: seq<Category>, phone: string, id: nat, amount: real,
                                      isAddition: bool, now: Timestamp)
    requires FindGoal(goals, phone, id).Some?
    requires var g := goals[FindGoal(goals, phone, id).value];
             !g.completed && g.currentAmount < g.targetAmount <= Capped(g.currentAmount, g.targetAmount, amount, isAddition)
    ensures var a := ApplyProgress(goals, phone, id, amount, isAddition).value;
            var i := FindGoal(goals, phone, id).value;
            && a.1.completed && !a.0[i].completed
            && ViewOf(a.0[i], categories, now) in ListGoals(a.0, categories, phone, now)
  {
    var a := ApplyProgress(goals, phone, id, amount, isAddition).value;
    var i := FindGoal(goals, phone, id).value;
    assert a.0[i] in a.0;
    ListGoalsRows(a.0, categories, phone, now, false, ViewOf(a.0[i], categories, now));
  }

  /** As written, the flag catches up on the next update: a goal already at its target is stored as completed. */
  lemma ReachedGoalClosesNextTimeAsWritten(goals: seq<Goal>, phone: string, id: nat, amount: real, isAddition: bool)
    requires FindGoal(goals, phone, id).Some?
    requires var g := goals[FindGoal(goals, phone, id).value];
             g.currentAmount >= g.targetAmount
    ensures var a := ApplyProgress(goals, phone, id, amount, isAddition).value;
            var i := FindGoal(goals, phone, id).value;
            a.0[i].completed && !Listed(a.0[i], phone, false)
  {
  }

  /**
   * As intended, the stored flag is the reported one: a goal that reaches its
   * target leaves the open listing, and one below it stays open.
   */
  lemma ReachedGoalCloses(goals: seq<Goal>, phone: string, id: nat, amount: real, isAddition: bool)
    requires FindGoal(goals, phone, id).Some?
    ensures var g := goals[FindGoal(goals, phone, id).value];
            var n := Capped(g.currentAmount, g.targetAmount, amount, isAddition);
            var stored := SetProgressIntended(goals, phone, id, n)[FindGoal(goals, phone, id).value];
            && stored.completed == ApplyProgress(goals, phone, id, amount, isAddition).value.1.completed
            && (stored.completed <==> !Listed(stored, phone, false))
  {
  }

  /** The goals table after `DELETE FROM goals WHERE id = ? AND user_phone = ?`. */
  function Without(goals: seq<Goal>, phone: string, id: nat): (r: seq<Goal>)
    ensures forall g :: g in r <==> g in goals && !(g.id == id && g.userPhone == phone)
    ensures |r| <= |goals|
  {
    if goals == [] then []
    else
      assert forall g :: g in goals <==> g == goals[0] || g in goals[1..];
      (if goals[0].id == id && goals[0].userPhone == phone then [] else [goals[0]]) + Without(goals[1..], phone, id)
  }

  /**
   * `deleteGoal` as written: `db.run` is not a function of the database module
   * object, so the promise rejects and nothing is deleted.
   */
  method DeleteGoal(db: Db, phone: string, id: nat) returns (r: Settled<bool>)
    ensures r == NotAFunction("run") && "run" !in Exports
  {
    r := NotAFunction("run");
  }

  /** `deleteGoal` with a working connection: resolves true iff a row of that user with that id was removed. */
  method DeleteGoalConnected(db: Db, phone: string, id: nat) returns (removed: bool)
    modifies db`goals
    ensures db.goals == Without(old(db.goals), phone, id)
    ensures removed <==> FindGoal(old(db.goals), phone, id).Some?
  {
    removed := FindGoal(db.goals, phone, id).Some?;
    db.goals := Without(db.goals, phone, id);
  }

  /** A deleted goal no longer appears in any listing of its owner, and other users' listings are unchanged. */
  lemma DeletedGoalUnlisted(goals: seq<Goal>, categories: seq<Category>, phone: string, id: nat, now: Timestamp, includeCompleted: bool, v: GoalView)
    ensures v in ListGoals(Without(goals, phone, id), categories, phone, now, includeCompleted) ==> v.goal.id != id
    ensures forall other :: other != phone ==>
              (v in ListGoals(Without(goals, phone, id), categories, other, now, includeCompleted)
               <==> v in ListGoals(goals, categories, other, now, includeCompleted))
  {
    ListGoalsRows(Without(goals, phone, id), categories, phone, now, includeCompleted, v);
    forall other | other != phone
      ensures v in ListGoals(Without(goals, phone, id), categories, other, now, includeCompleted)
              <==> v in ListGoals(goals, categories, other, now, includeCompleted)
    {
      ListGoalsRows(Without(goals, phone, id), categories, other, now, includeCompleted, v);
      ListGoalsRows(goals, categories, other, now, includeCompleted, v);
    }
  }
}
