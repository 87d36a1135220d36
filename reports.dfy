/**
 * The figures behind the report commands of `commands.js`: `calculateTotals`,
 * the monthly report of `/relatorio`, the month comparison of `/comparar` and
 * the monthly averages of `/media`. Each loop of the source is a method
 * proved equal to a function of the rows it reads.
 */
module Reports {
  import opened Wrappers
  import opened JsText
  import opened JsNumber
  import opened Database
  import Sorting
  import Tally
  import Chat
  import Calendar

  /** `t.category_name || 'Sem categoria'`. */
  function CategoryOf(r: Row): string
  {
    if r.categoryName.Some? && r.categoryName.value != "" then r.categoryName.value else "Sem categoria"
  }

  /** The sum of the amounts of the rows of one type. */
  function KindSum(rows: seq<Row>, kind: string): real
  {
    if rows == [] then 0.0
    else KindSum(rows[..|rows| - 1], kind) + (if rows[|rows| - 1].tx.kind == kind then rows[|rows| - 1].tx.amount else 0.0)
  }

  /** The sum of the amounts of the rows of one type shown under one category. */
  function CategorySum(rows: seq<Row>, kind: string, name: string): real
  {
    if rows == [] then 0.0
    else
      var r := rows[|rows| - 1];
      CategorySum(rows[..|rows| - 1], kind, name) + (if r.tx.kind == kind && CategoryOf(r) == name then r.tx.amount else 0.0)
  }

  /** The running per-category sums of the rows of one type, `obj[name] = (obj[name] || 0) + amount`. */
  function KindTally(rows: seq<Row>, kind: string): Tally.Entries<string>
  {
    if rows == [] then []
    else
      var r := rows[|rows| - 1];
      var rest := KindTally(rows[..|rows| - 1], kind);
      if r.tx.kind == kind then Tally.Bump(rest, CategoryOf(r), r.tx.amount) else rest
  }

  /** A category occurs among the rows of a type. */
  predicate Occurs(rows: seq<Row>, kind: string, name: string)
  {
    exists i :: 0 <= i < |rows| && rows[i].tx.kind == kind && CategoryOf(rows[i]) == name
  }

  /**
   * The per-category sums name each category of the type once, hold its sum,
   * and add up to the sum of the type.
   */
  lemma KindTallySpec(rows: seq<Row>, kind: string)
    ensures Tally.UniqueKeys(KindTally(rows, kind))
    ensures Tally.Total(KindTally(rows, kind)) == KindSum(rows, kind)
    ensures forall name :: Tally.Get(KindTally(rows, kind), name) == CategorySum(rows, kind, name)
    ensures forall name :: name in Tally.Keys(KindTally(rows, kind)) <==> Occurs(rows, kind, name)
  {
    KindTallySums(rows, kind);
    forall name ensures name in Tally.Keys(KindTally(rows, kind)) <==> Occurs(rows, kind, name) {
      KindTallyNames(rows, kind, name);
    }
  }

  lemma {:induction false} KindTallySums(rows: seq<Row>, kind: string)
    ensures Tally.UniqueKeys(KindTally(rows, kind))
    ensures Tally.Total(KindTally(rows, kind)) == KindSum(rows, kind)
    ensures forall name :: Tally.Get(KindTally(rows, kind), name) == CategorySum(rows, kind, name)
  {
    KindTallyUnique(rows, kind);
    KindTallyTotal(rows, kind);
    forall name ensures Tally.Get(KindTally(rows, kind), name) == CategorySum(rows, kind, name) {
      KindTallyGet(rows, kind, name);
    }
  }

  lemma {:induction false} KindTallyUnique(rows: seq<Row>, kind: string)
    ensures Tally.UniqueKeys(KindTally(rows, kind))
  {
    if rows != [] {
      var r := rows[|rows| - 1];
      KindTallyUnique(rows[..|rows| - 1], kind);
      if r.tx.kind == kind {
        Tally.BumpSpec(KindTally(rows[..|rows| - 1], kind), CategoryOf(r), r.tx.amount);
      }
    }
  }

  lemma {:induction false} KindTallyTotal(rows: seq<Row>, kind: string)
    ensures Tally.Total(KindTally(rows, kind)) == KindSum(rows, kind)
  {
    if rows != [] {
      var r := rows[|rows| - 1];
      KindTallyTotal(rows[..|rows| - 1], kind);
      if r.tx.kind == kind {
        Tally.BumpTotal(KindTally(rows[..|rows| - 1], kind), CategoryOf(r), r.tx.amount);
      }
    }
  }

  lemma {:induction false} KindTallyGet(rows: seq<Row>, kind: string, name: string)
    ensures Tally.Get(KindTally(rows, kind), name) == CategorySum(rows, kind, name)
  {
    if rows != [] {
      var r := rows[|rows| - 1];
      KindTallyGet(rows[..|rows| - 1], kind, name);
      if r.tx.kind == kind {
        Tally.BumpGet(KindTally(rows[..|rows| - 1], kind), CategoryOf(r), r.tx.amount, name);
      }
    }
  }

  lemma {:induction false} KindTallyNames(rows: seq<Row>, kind: string, name: string)
    ensures name in Tally.Keys(KindTally(rows, kind)) <==> Occurs(rows, kind, name)
  {
    if rows != [] {
      var pre := rows[..|rows| - 1];
      var r := rows[|rows| - 1];
      KindTallyNames(pre, kind, name);
      OccursSnoc(pre, r, kind, name);
      assert rows == pre + [r];
      if r.tx.kind == kind {
        Tally.BumpKeys(KindTally(pre, kind), CategoryOf(r), r.tx.amount);
      }
    }
  }

  /** A category occurs after one more row exactly when it occurred before or is that row's. */
  lemma OccursSnoc(pre: seq<Row>, r: Row, kind: string, name: string)
    ensures Occurs(pre + [r], kind, name) <==> Occurs(pre, kind, name) || (r.tx.kind == kind && CategoryOf(r) == name)
  {
    var rows := pre + [r];
    if Occurs(rows, kind, name) && !(r.tx.kind == kind && CategoryOf(r) == name) {
      var i :| 0 <= i < |rows| && rows[i].tx.kind == kind && CategoryOf(rows[i]) == name;
      assert i < |pre| && pre[i] == rows[i];
    }
    if Occurs(pre, kind, name) {
      var i :| 0 <= i < |pre| && pre[i].tx.kind == kind && CategoryOf(pre[i]) == name;
      assert rows[i] == pre[i];
    }
    if r.tx.kind == kind && CategoryOf(r) == name {
      assert rows[|pre|] == r;
    }
  }

  /** One more row adds its amount to the sum and the tally of its type. */
  lemma KindStep(xs: seq<Row>, r: Row, kind: string)
    ensures KindSum(xs + [r], kind) == KindSum(xs, kind) + (if r.tx.kind == kind then r.tx.amount else 0.0)
    ensures KindTally(xs + [r], kind)
            == if r.tx.kind == kind then Tally.Bump(KindTally(xs, kind), CategoryOf(r), r.tx.amount) else KindTally(xs, kind)
  {
    assert (xs + [r])[..|xs|] == xs;
  }

  lemma PrefixStep(done: seq<Row>, m: seq<Row>, j: nat)
    requires j < |m|
    ensures done + m[..j + 1] == (done + m[..j]) + [m[j]]
  {
    assert m[..j + 1] == m[..j] + [m[j]];
  }

  /** Sums over joined rows add up. */
  lemma {:induction false} KindSumAppend(a: seq<Row>, b: seq<Row>, kind: string)
    ensures KindSum(a + b, kind) == KindSum(a, kind) + KindSum(b, kind)
    decreases |b|
  {
    if b == [] {
      assert a + b == a;
    } else {
      var c := b[..|b| - 1];
      assert (a + b)[..|a + b| - 1] == a + c;
      KindSumAppend(a, c, kind);
    }
  }

  /** `calculateTotals(transactions)`: income, expenses and expenses per category in one pass. */
  method CalculateTotals(rows: seq<Row>) returns (t: Chat.Totals)
    ensures t == Chat.Totals(KindSum(rows, "receita"), KindSum(rows, "despesa"), KindTally(rows, "despesa"))
  {
    t := Chat.Totals(0.0, 0.0, []);
    for i := 0 to |rows|
      invariant t == Chat.Totals(KindSum(rows[..i], "receita"), KindSum(rows[..i], "despesa"), KindTally(rows[..i], "despesa"))
    {
      var r := rows[i];
      assert rows[..i + 1][..i] == rows[..i];
      if r.tx.kind == "receita" {
        t := t.(receitas := t.receitas + r.tx.amount);
      } else if r.tx.kind == "despesa" {
        t := Chat.Totals(t.receitas, t.despesas + r.tx.amount, Tally.Bump(t.categorias, CategoryOf(r), r.tx.amount));
      }
    }
    assert rows[..|rows|] == rows;
  }

  /** The expense totals of `calculateTotals` name each category once and add up to the expenses. */
  lemma TotalsConsistent(rows: seq<Row>)
    ensures Tally.UniqueKeys(KindTally(rows, "despesa"))
    ensures Tally.Total(KindTally(rows, "despesa")) == KindSum(rows, "despesa")
    ensures forall name :: Tally.Get(KindTally(rows, "despesa"), name) == CategorySum(rows, "despesa", name)
  {
    KindTallySpec(rows, "despesa");
  }

  // ---------------------------------------------------------------- /relatorio

  /** What `/relatorio` reads from its words; an absent filter is `""`, which is falsy like `undefined`. */
  datatype ReportParams = ReportParams(month: string, year: string, filter: string, category: Option<string>)

  /**
   * The words of `/relatorio [mes] [ano] [filtro] [categoria]`: with fewer than
   * two words, the current month and year.
   */
  function ReportParamsOf(params: string, today: Date): (p: ReportParams)
    requires ValidDate(today)
    ensures p.category.Some? ==> p.filter == "categoria"
    ensures |Split(params, ' ')| < 2 ==> p == ReportParams(PadStart2(NatText(today.month)), IntText(today.year), "", None)
  {
    var parts := Split(params, ' ');
    if |parts| >= 2 then
      var filter := if |parts| > 2 then Lower(parts[2]) else "";
      ReportParams(PadStart2(parts[0]), parts[1], filter, if filter == "categoria" && |parts| > 3 then Some(parts[3]) else None)
    else ReportParams(PadStart2(NatText(today.month)), IntText(today.year), "", None)
  }

  /** Words typed with single spaces are read by position. */
  lemma ReportParamsOfWords(words: seq<string>, today: Date)
    requires ValidDate(today) && |words| >= 2
    requires forall k :: 0 <= k < |words| ==> ' ' !in words[k]
    ensures var p := ReportParamsOf(Join(words, ' '), today);
            && p.month == PadStart2(words[0]) && p.year == words[1]
            && p.filter == (if |words| > 2 then Lower(words[2]) else "")
            && p.category == (if |words| > 3 && Lower(words[2]) == "categoria" then Some(words[3]) else None)
  {
    SplitJoin(words, ' ');
  }

  /** `isNaN(parseInt(mes)) || isNaN(parseInt(ano))` is false. */
  predicate Readable(month: string, year: string)
  {
    ParseInt(month).Some? && ParseInt(year).Some?
  }

  /** Whether a row passes the report filter. */
  predicate Kept(r: Row, filter: string, category: Option<string>)
  {
    if filter == "receita" then r.tx.kind == "receita"
    else if filter == "despesa" then r.tx.kind == "despesa"
    else if filter == "categoria" && category.Some? && category.value != "" then
      r.categoryName.Some? && r.categoryName.value != "" && Lower(r.categoryName.value) == Lower(category.value)
    else true
  }

  /** The filtered rows, in their order. */
  function FilterRows(rows: seq<Row>, filter: string, category: Option<string>): (r: seq<Row>)
    ensures |r| <= |rows|
    ensures forall x :: x in r <==> x in rows && Kept(x, filter, category)
  {
    if rows == [] then []
    else
      assert forall x :: x in rows <==> x == rows[0] || x in rows[1..];
      (if Kept(rows[0], filter, category) then [rows[0]] else []) + FilterRows(rows[1..], filter, category)
  }

  function ShareValue(s: Chat.CategoryShare): real { s.value }

  /** The category lines of a report section, largest first; `guarded` writes 0% when the total is not positive. */
  function Shares(e: Tally.Entries<string>, total: real, guarded: bool): (r: seq<Chat.CategoryShare>)
    ensures Sorting.SortedDesc(r, ShareValue)
    ensures forall s :: s in r <==> exists i :: 0 <= i < |e| && s == ShareOf(e[i], total, guarded)
  {
    var lines := seq(|e|, i requires 0 <= i < |e| => ShareOf(e[i], total, guarded));
    var r := Sorting.SortDesc(lines, ShareValue);
    assert forall s :: s in r <==> s in lines by {
      forall s ensures s in r <==> s in lines {
        assert s in r <==> s in multiset(r);
        assert s in lines <==> s in multiset(lines);
      }
    }
    assert forall s :: s in lines <==> exists i :: 0 <= i < |e| && s == ShareOf(e[i], total, guarded) by {
      forall s ensures s in lines <==> exists i :: 0 <= i < |e| && s == ShareOf(e[i], total, guarded) {
        if exists i :: 0 <= i < |e| && s == ShareOf(e[i], total, guarded) {
          var i :| 0 <= i < |e| && s == ShareOf(e[i], total, guarded);
          assert lines[i] == s;
        }
      }
    }
    r
  }

  function ShareOf(entry: (string, real), total: real, guarded: bool): Chat.CategoryShare
  {
    Chat.CategoryShare(entry.0, entry.1, if guarded && !(total > 0.0) then Finite(0.0) else Percent(entry.1, total))
  }

  /** The report of a month's rows, its filter and the current balance. */
  function BuildReport(p: ReportParams, rows: seq<Row>, balance: real): (r: Chat.Report)
  {
    var f := FilterRows(rows, p.filter, p.category);
    ReportOf(p, f, KindSum(f, "receita"), KindSum(f, "despesa"), KindTally(f, "receita"), KindTally(f, "despesa"), balance)
  }

  /** The report text of the kept rows and their figures: each section only when the filter shows it. */
  function ReportOf(p: ReportParams, f: seq<Row>, income: real, expenses: real,
                    incomeCats: Tally.Entries<string>, expenseCats: Tally.Entries<string>, balance: real): Chat.Report
  {
    var all := p.filter == "";
    Chat.Report(p.month, p.year, p.filter, p.category,
      if all || p.filter == "receita" then Some(income) else None,
      if all || p.filter == "despesa" then Some(expenses) else None,
      if all then Some(income - expenses) else None,
      if all then Some(balance) else None,
      if all || p.filter == "receita" then Shares(incomeCats, income, false) else [],
      if all || p.filter == "despesa" then Shares(expenseCats, expenses, true) else [],
      if all then Sorting.Take(f, 5) else f,
      all && |f| > 5)
  }

  /**
   * A filtered report lists every kept row and nothing else; an unfiltered one
   * lists the first five rows and says whether there are more.
   */
  lemma ReportRows(p: ReportParams, rows: seq<Row>, balance: real)
    ensures var r := BuildReport(p, rows, balance);
            p.filter != "" ==> forall x :: x in r.transactions <==> x in rows && Kept(x, p.filter, p.category)
    ensures var r := BuildReport(p, rows, balance);
            p.filter == "" ==> r.transactions == rows[..|r.transactions|] && |r.transactions| == (if |rows| < 5 then |rows| else 5)
                               && (r.more <==> |rows| > 5)
  {
    if p.filter == "" {
      assert FilterRows(rows, p.filter, p.category) == rows by {
        FilterKeepsAll(rows, p.filter, p.category);
      }
    }
  }

  lemma {:induction false} FilterKeepsAll(rows: seq<Row>, filter: string, category: Option<string>)
    requires filter == ""
    ensures FilterRows(rows, filter, category) == rows
  {
    if rows != [] {
      FilterKeepsAll(rows[1..], filter, category);
      assert rows == [rows[0]] + rows[1..];
    }
  }

  /**
   * Each category line of a report section carries the sum of that category
   * among the shown rows, every category of the section has a line, and the
   * summary shows only the figures its filter asks for.
   */
  lemma ReportSections(p: ReportParams, rows: seq<Row>, balance: real)
    ensures var r := BuildReport(p, rows, balance);
            var f := FilterRows(rows, p.filter, p.category);
            && (forall s :: s in r.expenseByCategory ==> s.value == CategorySum(f, "despesa", s.name))
            && (forall s :: s in r.incomeByCategory ==> s.value == CategorySum(f, "receita", s.name))
            && ((p.filter == "" || p.filter == "despesa") ==>
                  forall name :: Occurs(f, "despesa", name) ==> exists s :: s in r.expenseByCategory && s.name == name)
            && (r.incomeTotal.Some? <==> p.filter == "" || p.filter == "receita")
            && (r.expenseTotal.Some? <==> p.filter == "" || p.filter == "despesa")
  {
    var f := FilterRows(rows, p.filter, p.category);
    var r := BuildReport(p, rows, balance);
    KindTallySpec(f, "despesa");
    KindTallySpec(f, "receita");
    SharesCarrySums(f, "despesa", KindSum(f, "despesa"), true);
    SharesCarrySums(f, "receita", KindSum(f, "receita"), false);
    if p.filter == "" || p.filter == "despesa" {
      var e := KindTally(f, "despesa");
      forall name | Occurs(f, "despesa", name)
        ensures exists s :: s in r.expenseByCategory && s.name == name
      {
        assert name in Tally.Keys(e);
        var i :| 0 <= i < |e| && Tally.Keys(e)[i] == name;
        assert ShareOf(e[i], KindSum(f, "despesa"), true) in r.expenseByCategory;
      }
    }
  }

  lemma SharesCarrySums(f: seq<Row>, kind: string, total: real, guarded: bool)
    ensures forall s :: s in Shares(KindTally(f, kind), total, guarded) ==> s.value == CategorySum(f, kind, s.name)
  {
    var e := KindTally(f, kind);
    KindTallySpec(f, kind);
    forall s | s in Shares(e, total, guarded)
      ensures s.value == CategorySum(f, kind, s.name)
    {
      var i :| 0 <= i < |e| && s == ShareOf(e[i], total, guarded);
      Tally.GetUnique(e, i);
    }
  }

  /** `filteredTransactions.forEach(…)`: both sections' sums in one pass. */
  method Tabulate(rows: seq<Row>) returns (income: real, expenses: real, incomeCats: Tally.Entries<string>, expenseCats: Tally.Entries<string>)
    ensures income == KindSum(rows, "receita") && expenses == KindSum(rows, "despesa")
    ensures incomeCats == KindTally(rows, "receita") && expenseCats == KindTally(rows, "despesa")
  {
    income, expenses, incomeCats, expenseCats := 0.0, 0.0, [], [];
    for i := 0 to |rows|
      invariant income == KindSum(rows[..i], "receita") && expenses == KindSum(rows[..i], "despesa")
      invariant incomeCats == KindTally(rows[..i], "receita") && expenseCats == KindTally(rows[..i], "despesa")
    {
      var r := rows[i];
      assert rows[..i + 1][..i] == rows[..i];
      if r.tx.kind == "receita" {
        income := income + r.tx.amount;
        incomeCats := Tally.Bump(incomeCats, CategoryOf(r), r.tx.amount);
      } else if r.tx.kind == "despesa" {
        expenses := expenses + r.tx.amount;
        expenseCats := Tally.Bump(expenseCats, CategoryOf(r), r.tx.amount);
      }
    }
    assert rows[..|rows|] == rows;
  }

  // ---------------------------------------------------------------- /comparar

  /** The distinct non-empty category names of some rows, in first-appearance order (a `Set`). */
  function NamesOf(rows: seq<Row>): (ns: seq<string>)
    ensures forall i, j :: 0 <= i < j < |ns| ==> ns[i] != ns[j]
  {
    if rows == [] then []
    else
      var rest := NamesOf(rows[..|rows| - 1]);
      var c := rows[|rows| - 1].categoryName;
      if c.Some? && c.value != "" && c.value !in rest then rest + [c.value] else rest
  }

  /** The names collected are exactly the non-empty category names of the rows. */
  lemma {:induction false} NamesOfMembers(rows: seq<Row>, name: string)
    ensures name in NamesOf(rows) <==> name != "" && exists i :: 0 <= i < |rows| && rows[i].categoryName == Some(name)
  {
    if rows != [] {
      var pre := rows[..|rows| - 1];
      NamesOfMembers(pre, name);
      if exists i :: 0 <= i < |pre| && pre[i].categoryName == Some(name) {
        var i :| 0 <= i < |pre| && pre[i].categoryName == Some(name);
        assert rows[i] == pre[i];
      }
      if exists i :: 0 <= i < |rows| && rows[i].categoryName == Some(name) {
        var i :| 0 <= i < |rows| && rows[i].categoryName == Some(name);
        if i < |pre| {
          assert pre[i] == rows[i];
        }
      }
    }
  }

  /** `[...transactions1, ...transactions2].forEach(t => { if (t.category_name) allCategories.add(t.category_name) })`. */
  method CollectNames(rows: seq<Row>) returns (names: seq<string>)
    ensures names == NamesOf(rows)
  {
    names := [];
    for i := 0 to |rows|
      invariant names == NamesOf(rows[..i])
    {
      assert rows[..i + 1][..i] == rows[..i];
      var c := rows[i].categoryName;
      if c.Some? && c.value != "" && c.value !in names {
        names := names + [c.value];
      }
    }
    assert rows[..|rows|] == rows;
  }

  /** The change of one category between the two months' expense totals. */
  function ChangeOf(name: string, t1: Chat.Totals, t2: Chat.Totals): Chat.CategoryChange
  {
    var v1 := Tally.Get(t1.categorias, name);
    var v2 := Tally.Get(t2.categorias, name);
    Chat.CategoryChange(name, v1, v2, v2 - v1, if v1 > 0.0 then (v2 - v1) / v1 * 100.0 else 0.0)
  }

  /** `categoryComparison.push(…)` for every collected name, in order. */
  method Changes(names: seq<string>, t1: Chat.Totals, t2: Chat.Totals) returns (changes: seq<Chat.CategoryChange>)
    ensures |changes| == |names|
    ensures forall k :: 0 <= k < |names| ==> changes[k] == ChangeOf(names[k], t1, t2)
  {
    changes := [];
    for k := 0 to |names|
      invariant |changes| == k
      invariant forall n :: 0 <= n < k ==> changes[n] == ChangeOf(names[n], t1, t2)
    {
      changes := changes + [ChangeOf(names[k], t1, t2)];
    }
  }

  function AbsDiff(c: Chat.CategoryChange): real
  {
    if c.diff >= 0.0 then c.diff else -c.diff
  }

  /** The comparison of two months' rows. */
  function Compare(m1: string, y1: string, m2: string, y2: string, rows1: seq<Row>, rows2: seq<Row>): (c: Chat.Comparison)
    ensures |c.changes| <= 5
  {
    var t1 := Chat.Totals(KindSum(rows1, "receita"), KindSum(rows1, "despesa"), KindTally(rows1, "despesa"));
    var t2 := Chat.Totals(KindSum(rows2, "receita"), KindSum(rows2, "despesa"), KindTally(rows2, "despesa"));
    var names := NamesOf(rows1 + rows2);
    var changes := seq(|names|, k requires 0 <= k < |names| => ChangeOf(names[k], t1, t2));
    Chat.Comparison(m1, y1, m2, y2, t1, t2, Sorting.Take(Sorting.SortDesc(changes, AbsDiff), 5))
  }

  /**
   * The comparison shows at most five categories, each a category named in
   * either month, with the difference of its expense sums; a category left
   * out changed by no more than any category shown.
   */
  lemma LargestChangesShown(m1: string, y1: string, m2: string, y2: string, rows1: seq<Row>, rows2: seq<Row>, name: string)
    requires name != "" && exists i :: 0 <= i < |rows1 + rows2| && (rows1 + rows2)[i].categoryName == Some(name)
    ensures var c := Compare(m1, y1, m2, y2, rows1, rows2);
            var ch := ChangeOf(name, c.totals1, c.totals2);
            && ch.value1 == CategorySum(rows1, "despesa", name)
            && ch.value2 == CategorySum(rows2, "despesa", name)
            && (ch in c.changes || forall s :: s in c.changes ==> AbsDiff(s) >= AbsDiff(ch))
  {
    var c := Compare(m1, y1, m2, y2, rows1, rows2);
    KindTallyGet(rows1, "despesa", name);
    KindTallyGet(rows2, "despesa", name);
    var names := NamesOf(rows1 + rows2);
    NamesOfMembers(rows1 + rows2, name);
    var k :| 0 <= k < |names| && names[k] == name;
    var changes := seq(|names|, k requires 0 <= k < |names| => ChangeOf(names[k], c.totals1, c.totals2));
    var ch := ChangeOf(name, c.totals1, c.totals2);
    assert changes[k] == ch;
    var sorted := Sorting.SortDesc(changes, AbsDiff);
    assert ch in multiset(sorted) by { assert ch in multiset(changes); }
    var j :| 0 <= j < |sorted| && sorted[j] == ch;
    Sorting.TakeKeepsLargest(sorted, AbsDiff, 5);
    if j >= |c.changes| {
      forall s | s in c.changes
        ensures AbsDiff(s) >= AbsDiff(ch)
      {
        var i :| 0 <= i < |c.changes| && c.changes[i] == s;
        assert sorted[i] == s;
      }
    } else {
      assert c.changes[j] == ch;
    }
  }

  /**
   * The comparison shows the largest changes first, one for each of the first
   * five (or fewer) collected names by size of change, and nothing else: every
   * shown change is the change of a category named in either month.
   */
  lemma ShownChangesAreCollected(m1: string, y1: string, m2: string, y2: string, rows1: seq<Row>, rows2: seq<Row>)
    ensures var c := Compare(m1, y1, m2, y2, rows1, rows2);
            var names := NamesOf(rows1 + rows2);
            && |c.changes| == (if |names| < 5 then |names| else 5)
            && Sorting.SortedDesc(c.changes, AbsDiff)
            && forall s :: s in c.changes ==> exists name :: name in names && s == ChangeOf(name, c.totals1, c.totals2)
  {
    var c := Compare(m1, y1, m2, y2, rows1, rows2);
    var names := NamesOf(rows1 + rows2);
    var changes := seq(|names|, k requires 0 <= k < |names| => ChangeOf(names[k], c.totals1, c.totals2));
    var sorted := Sorting.SortDesc(changes, AbsDiff);
    assert c.changes == sorted[..|c.changes|];
    forall s | s in c.changes
      ensures exists name :: name in names && s == ChangeOf(name, c.totals1, c.totals2)
    {
      assert s in multiset(sorted);
      assert s in multiset(changes);
      var k :| 0 <= k < |changes| && changes[k] == s;
      assert names[k] in names;
    }
  }

  // ---------------------------------------------------------------- /media

  /** `format('MM')` of a month. */
  function MonthText(month: int): (s: string)
    requires 1 <= month <= 12
    ensures |s| == 2 && AllDigits(s) && DigitsValue(s) == month
  {
    NatTextShort(month);
    PadStart2Value(NatText(month));
    PadStart2(NatText(month))
  }

  /** `format('YYYY')` of a year: four digits at least, with a sign before a year before 0. */
  function YearText(year: int): string
  {
    if year >= 0 then Calendar.Year4(year) else "-" + Calendar.Year4(-year)
  }

  /** The month `i` months before today, as the texts `getTransactions` receives. */
  function Period(today: Date, i: nat): (string, string)
    requires ValidDate(today)
  {
    var (y, m) := Calendar.MonthsBack(today.year, today.month, i);
    (MonthText(m), YearText(y))
  }

  /** For a four-digit year, the texts of a month back select exactly that month. */
  lemma PeriodSelects(today: Date, i: nat)
    requires ValidDate(today)
    requires 0 <= Calendar.MonthsBack(today.year, today.month, i).0 <= 9999
    ensures PeriodOf(Period(today, i).0, Period(today, i).1) == Some(Calendar.MonthsBack(today.year, today.month, i))
  {
    var (y, m) := Calendar.MonthsBack(today.year, today.month, i);
    assert PadStart2(MonthText(m)) == MonthText(m);
  }

  /** The rows of the month `i` months before today. */
  function MonthOf(txs: seq<Transaction>, categories: seq<Category>, phone: string, today: Date, i: nat): seq<Row>
    requires ValidDate(today)
  {
    var period := Period(today, i);
    GetTransactions(txs, categories, phone, period.0, period.1)
  }

  /** The rows of each of the last `n` months, this month first. */
  function MonthsRows(txs: seq<Transaction>, categories: seq<Category>, phone: string, today: Date, n: nat): (r: seq<seq<Row>>)
    requires ValidDate(today)
    ensures |r| == n
  {
    if n == 0 then [] else MonthsRows(txs, categories, phone, today, n - 1) + [MonthOf(txs, categories, phone, today, n - 1)]
  }

  /** The rows of several months, one month after the other. */
  function Flatten(months: seq<seq<Row>>): seq<Row>
  {
    if months == [] then [] else Flatten(months[..|months| - 1]) + months[|months| - 1]
  }

  function AverageValue(c: Chat.CategoryAverage): real { c.average }

  /** The averages over `n` months of the rows of those months. */
  function AveragesOf(all: seq<Row>, n: nat): (a: Chat.Averages)
    requires n >= 1
  {
    Chat.Averages(n, KindSum(all, "receita") / n as real, KindSum(all, "despesa") / n as real,
      Sorting.SortDesc(AverageLines(all, n), AverageValue))
  }

  /** The category lines of `/media`, before sorting. */
  function AverageLines(all: seq<Row>, n: nat): (lines: seq<Chat.CategoryAverage>)
    requires n >= 1
  {
    var expenses := KindSum(all, "despesa") / n as real;
    var e := KindTally(all, "despesa");
    seq(|e|, i requires 0 <= i < |e| =>
      Chat.CategoryAverage(e[i].0, e[i].1 / n as real, Percent(e[i].1 / n as real, expenses)))
  }

  /**
   * A `/media` category line means what it says: its average is the category's
   * sum over the months divided by their number, and its percentage is the
   * category's share of all the expenses, whatever the number of months.
   */
  predicate AverageMeans(c: Chat.CategoryAverage, all: seq<Row>, n: nat)
    requires n >= 1
  {
    && c.average == CategorySum(all, "despesa", c.name) / n as real
    && (KindSum(all, "despesa") != 0.0 ==> c.percent == Percent(CategorySum(all, "despesa", c.name), KindSum(all, "despesa")))
  }

  /**
   * The `/media` categories come largest average first, each line means what it
   * says, and there is a line for exactly the expense categories of the months.
   */
  lemma AveragesMeaning(all: seq<Row>, n: nat)
    requires n >= 1
    ensures Sorting.SortedDesc(AveragesOf(all, n).categories, AverageValue)
    ensures forall c :: c in AveragesOf(all, n).categories ==> AverageMeans(c, all, n)
    ensures forall name :: Occurs(all, "despesa", name) <==> exists c :: c in AveragesOf(all, n).categories && c.name == name
  {
    var lines := AverageLines(all, n);
    var sorted := Sorting.SortDesc(lines, AverageValue);
    assert AveragesOf(all, n).categories == sorted;
    forall c | c in sorted
      ensures AverageMeans(c, all, n)
    {
      assert c in multiset(sorted);
      var i :| 0 <= i < |lines| && lines[i] == c;
      AverageLine(all, n, i);
    }
    AverageNames(all, n);
  }

  /** There is a `/media` line for exactly the expense categories of the months. */
  lemma AverageNames(all: seq<Row>, n: nat)
    requires n >= 1
    ensures forall name :: Occurs(all, "despesa", name) <==> exists c :: c in AveragesOf(all, n).categories && c.name == name
  {
    assert AveragesOf(all, n).categories == Sorting.SortDesc(AverageLines(all, n), AverageValue);
    forall name
      ensures Occurs(all, "despesa", name) <==> exists c :: c in Sorting.SortDesc(AverageLines(all, n), AverageValue) && c.name == name
    {
      AverageName(all, n, name);
    }
  }

  lemma AverageName(all: seq<Row>, n: nat, name: string)
    requires n >= 1
    ensures Occurs(all, "despesa", name) <==> exists c :: c in Sorting.SortDesc(AverageLines(all, n), AverageValue) && c.name == name
  {
    var lines := AverageLines(all, n);
    var sorted := Sorting.SortDesc(lines, AverageValue);
    var e := KindTally(all, "despesa");
    AverageLineNames(all, n);
    KindTallyNames(all, "despesa", name);
    if Occurs(all, "despesa", name) {
      var i :| 0 <= i < |e| && Tally.Keys(e)[i] == name;
      assert lines[i] in multiset(sorted) by { assert lines[i] in multiset(lines); }
      assert lines[i] in sorted && lines[i].name == name;
    }
    if exists c :: c in sorted && c.name == name {
      var c :| c in sorted && c.name == name;
      assert c in multiset(lines) by { assert c in multiset(sorted); }
      var i :| 0 <= i < |lines| && lines[i] == c;
      assert Tally.Keys(e)[i] == name;
    }
  }

  lemma AverageLineNames(all: seq<Row>, n: nat)
    requires n >= 1
    ensures |AverageLines(all, n)| == |KindTally(all, "despesa")|
    ensures forall i :: 0 <= i < |AverageLines(all, n)| ==> AverageLines(all, n)[i].name == KindTally(all, "despesa")[i].0
  {
  }

  lemma AverageLine(all: seq<Row>, n: nat, i: nat)
    requires n >= 1 && i < |AverageLines(all, n)|
    ensures AverageMeans(AverageLines(all, n)[i], all, n)
  {
    var e := KindTally(all, "despesa");
    KindTallySpec(all, "despesa");
    Tally.GetUnique(e, i);
    var c := AverageLines(all, n)[i];
    assert c.name == e[i].0 && c.average == e[i].1 / n as real;
    assert CategorySum(all, "despesa", c.name) == e[i].1;
    if KindSum(all, "despesa") != 0.0 {
      ShareScales(e[i].1, KindSum(all, "despesa"), n as real);
    }
  }

  lemma ShareScales(part: real, whole: real, n: real)
    requires whole != 0.0 && n > 0.0
    ensures (part / n) / (whole / n) == part / whole
  {
  }

  /** One month of the `/media` loop: its income and expenses, with its expenses added to the running category sums. */
  method SumMonth(ghost done: seq<Row>, cats0: Tally.Entries<string>, m: seq<Row>)
    returns (monthIncome: real, monthExpenses: real, cats: Tally.Entries<string>)
    requires cats0 == KindTally(done, "despesa")
    ensures monthIncome == KindSum(m, "receita") && monthExpenses == KindSum(m, "despesa")
    ensures cats == KindTally(done + m, "despesa")
  {
    monthIncome, monthExpenses, cats := 0.0, 0.0, cats0;
    assert done + m[..0] == done;
    for j := 0 to |m|
      invariant monthIncome == KindSum(m[..j], "receita") && monthExpenses == KindSum(m[..j], "despesa")
      invariant cats == KindTally(done + m[..j], "despesa")
    {
      var r := m[j];
      assert m[..j + 1][..j] == m[..j];
      PrefixStep(done, m, j);
      KindStep(done + m[..j], r, "despesa");
      if r.tx.kind == "receita" {
        monthIncome := monthIncome + r.tx.amount;
      } else if r.tx.kind == "despesa" {
        monthExpenses := monthExpenses + r.tx.amount;
        cats := Tally.Bump(cats, CategoryOf(r), r.tx.amount);
      }
    }
    assert m[..|m|] == m;
  }

  /** The monthly sums of `/media`, added month by month; the category sums run across the months. */
  method SumMonths(months: seq<seq<Row>>) returns (income: real, expenses: real, cats: Tally.Entries<string>)
    ensures income == KindSum(Flatten(months), "receita") && expenses == KindSum(Flatten(months), "despesa")
    ensures cats == KindTally(Flatten(months), "despesa")
  {
    income, expenses, cats := 0.0, 0.0, [];
    for i := 0 to |months|
      invariant income == KindSum(Flatten(months[..i]), "receita") && expenses == KindSum(Flatten(months[..i]), "despesa")
      invariant cats == KindTally(Flatten(months[..i]), "despesa")
    {
      ghost var done := Flatten(months[..i]);
      var m := months[i];
      var monthIncome, monthExpenses;
      monthIncome, monthExpenses, cats := SumMonth(done, cats, m);
      assert months[..i + 1][..i] == months[..i];
      assert Flatten(months[..i + 1]) == done + m;
      KindSumAppend(done, m, "receita");
      KindSumAppend(done, m, "despesa");
      income := income + monthIncome;
      expenses := expenses + monthExpenses;
    }
    assert months[..|months|] == months;
  }

  /** The report of `/relatorio`, built the way the handler builds it: filter, tabulate, then assemble. */
  method MakeReport(p: ReportParams, rows: seq<Row>, balance: real) returns (report: Chat.Report)
    ensures report == BuildReport(p, rows, balance)
  {
    var f := FilterRows(rows, p.filter, p.category);
    var income, expenses, incomeCats, expenseCats := Tabulate(f);
    report := ReportOf(p, f, income, expenses, incomeCats, expenseCats, balance);
  }


  /** The comparison of `/comparar`: both months' totals, the names of either month, their changes, the five largest. */
  method CompareMonths(m1: string, y1: string, m2: string, y2: string, rows1: seq<Row>, rows2: seq<Row>)
    returns (c: Chat.Comparison)
    ensures c == Compare(m1, y1, m2, y2, rows1, rows2)
  {
    var t1 := CalculateTotals(rows1);
    var t2 := CalculateTotals(rows2);
    var names := CollectNames(rows1 + rows2);
    var changes := Changes(names, t1, t2);
    assert changes == seq(|names|, k requires 0 <= k < |names| => ChangeOf(names[k], t1, t2));
    c := Chat.Comparison(m1, y1, m2, y2, t1, t2, Sorting.Take(Sorting.SortDesc(changes, AbsDiff), 5));
  }

  /** The rows of the current month and the `n - 1` before it, fetched one month at a time. */
  method CollectMonths(txs: seq<Transaction>, categories: seq<Category>, phone: string, today: Date, n: nat)
    returns (months: seq<seq<Row>>)
    requires ValidDate(today)
    ensures months == MonthsRows(txs, categories, phone, today, n)
  {
    months := [];
    for i := 0 to n
      invariant months == MonthsRows(txs, categories, phone, today, i)
    {
      months := months + [MonthOf(txs, categories, phone, today, i)];
    }
  }

  /** The averages of `/media`: the sums over the months, then one line per expense category, sorted. */
  method AveragesOfMonths(months: seq<seq<Row>>, n: nat) returns (a: Chat.Averages)
    requires n >= 1
    ensures a == AveragesOf(Flatten(months), n)
  {
    var income, expenses, cats := SumMonths(months);
    var lines: seq<Chat.CategoryAverage> := [];
    for k := 0 to |cats|
      invariant |lines| == k
      invariant forall i :: 0 <= i < k ==>
                  lines[i] == Chat.CategoryAverage(cats[i].0, cats[i].1 / n as real, Percent(cats[i].1 / n as real, expenses / n as real))
    {
      var average := cats[k].1 / n as real;
      lines := lines + [Chat.CategoryAverage(cats[k].0, average, Percent(average, expenses / n as real))];
    }
    assert lines == AverageLines(Flatten(months), n);
    a := Chat.Averages(n, income / n as real, expenses / n as real, Sorting.SortDesc(lines, AverageValue));
  }
}
