/**
 * The text charts of the bot: the pie chart of expenses, the dispatch by
 * chart type, the line chart's empty guard and the budget status chart with
 * its ten-cell progress bars. Rendering is kept as data (which symbol, how
 * many filled cells, which percentage); number formatting is not modelled.
 */
module Charts {
  import opened Wrappers
  import opened JsNumber
  import Database
  import Sorting
  import Tally

  /** Entries of the `pieData`/`barData` objects, keyed by the row's description (NULL is `None`). */
  type PieData = Tally.Entries<Option<string>>

  /** The eight slice symbols; a slice at position `i` gets symbol `i % 8`. */
  const SymbolCount: nat := 8

  /** The `bars` table has ten entries. */
  const BarCount: nat := 10

  /** `Math.min(Math.floor(percent / 10), 9)`; an index `bars` has no entry for is `None`. */
  function PieBarIndex(percent: Num): (r: Option<int>)
    ensures r.Some? ==> 0 <= r.value <= 9
    ensures percent.PosInf? ==> r == Some(9)
    ensures percent.Finite? && percent.v >= 0.0 ==> r.Some?
    ensures percent.Finite? && percent.v >= 90.0 ==> r == Some(9)
    ensures percent.NaN? || percent.NegInf? ==> r.None?
  {
    match percent
    case PosInf => Some(9)
    case Finite(v) =>
      var i := if (v / 10.0).Floor < 9 then (v / 10.0).Floor else 9;
      if i >= 0 then Some(i) else None
    case _ => None
  }

  /** The index chosen is the tenth of the percentage, capped at 9. */
  lemma PieBarIndexOfShare(v: real)
    requires 0.0 <= v <= 100.0
    ensures PieBarIndex(Finite(v)).Some?
    ensures var i := PieBarIndex(Finite(v)).value;
            (i as real) * 10.0 <= v && (v < (i as real + 1.0) * 10.0 || i == 9)
  {
  }

  /** How many `▰` the entry `bars[i]` of the source's table holds: ten minus its index. */
  function FilledSegmentsAsWritten(i: int): (n: int)
    requires 0 <= i < BarCount
    ensures 1 <= n <= 10 && n + i == 10
  {
    10 - i
  }

  /**
   * As written, a larger share of the expenses draws a shorter bar: a 95%
   * slice gets one filled segment and a 5% slice gets ten.
   */
  lemma PieBarsInverted()
    ensures FilledSegmentsAsWritten(PieBarIndex(Finite(95.0)).value) == 1
    ensures FilledSegmentsAsWritten(PieBarIndex(Finite(5.0)).value) == 10
  {
    assert (95.0 / 10.0).Floor == 9;
    assert (5.0 / 10.0).Floor == 0;
  }

  /** The corrected bar of the Findings row on the pie legend: one filled segment per started tenth, so a larger share draws a longer bar. */
  function FilledSegments(i: int): (n: int)
    requires 0 <= i < BarCount
    ensures 1 <= n <= 10
  {
    i + 1
  }

  /** With the intended bar, a larger percentage never draws fewer filled segments. */
  lemma FilledSegmentsMonotonic(p: real, q: real)
    requires 0.0 <= p <= q
    ensures FilledSegments(PieBarIndex(Finite(p)).value) <= FilledSegments(PieBarIndex(Finite(q)).value)
  {
    assert p / 10.0 <= q / 10.0;
  }

  /** One slice line of the pie chart. */
  datatype PieLine = PieLine(symbol: nat, name: Option<string>, filled: Option<int>, percent: Num, value: real)

  /** The pie chart: the total header and one line per entry, largest first. */
  datatype PieChart = PieChart(total: real, lines: seq<PieLine>)

  function EntryValue(e: (Option<string>, real)): real { e.1 }

  /** The line drawn for the entry at position `i` of the sorted entries. */
  function PieLineAt(entries: PieData, total: real, i: nat): PieLine
    requires i < |entries|
  {
    var p := Percent(entries[i].1, total);
    var idx := PieBarIndex(p);
    PieLine(i % SymbolCount, entries[i].0, if idx.Some? then Some(FilledSegmentsAsWritten(idx.value)) else None, p, entries[i].1)
  }

  /**
   * The pie chart of `data`: the total of all values, then the entries sorted
   * by value (largest first), each with its symbol, bar and percentage of the total.
   */
  predicate PieOf(chart: PieChart, data: PieData)
  {
    && chart.total == Tally.Total(data)
    && |chart.lines| == |data|
    && var entries := Sorting.SortDesc(data, EntryValue);
       forall i :: 0 <= i < |chart.lines| ==> chart.lines[i] == PieLineAt(entries, chart.total, i)
  }

  /** `generatePieChart`: the pie chart of its data. */
  method GeneratePieChart(data: PieData) returns (chart: PieChart)
    ensures PieOf(chart, data)
    ensures forall i :: 0 <= i < |chart.lines| ==> chart.lines[i].symbol < SymbolCount
  {
    var total := Tally.Total(data);
    var entries := Sorting.SortDesc(data, EntryValue);
    var lines: seq<PieLine> := [];
    var index := 0;
    while index < |entries|
      invariant 0 <= index <= |entries|
      invariant |lines| == index
      invariant forall i :: 0 <= i < index ==> lines[i] == PieLineAt(entries, total, i)
    {
      lines := lines + [PieLineAt(entries, total, index)];
      index := index + 1;
    }
    chart := PieChart(total, lines);
  }

  /** Every symbol index is one of the eight symbols, and slice `i` gets symbol `i % 8`, so neighbours differ. */
  lemma NeighbourSymbolsDiffer(entries: PieData, total: real, i: nat)
    requires i + 1 < |entries|
    ensures PieLineAt(entries, total, i).symbol != PieLineAt(entries, total, i + 1).symbol
  {
  }

  /** `pieData[item.description] = item.total` over the rows, in order. */
  function PieDataOf(data: seq<Database.ChartRow>): PieData
  {
    if data == [] then []
    else
      var rest := PieDataOf(data[..|data| - 1]);
      var item := data[|data| - 1];
      if item.Slice? then Tally.Put(rest, item.name, item.total) else rest
  }

  /**
   * What `generateTextChart` appends after the month header. `NoDataBody` is its
   * own "not enough data" text; `NoLineDataBody` is the different text of the
   * line chart's own empty guard.
   */
  datatype ChartBody =
    | PieBody(pie: PieChart)
    | BarBody(bars: PieData)
    | LineBody(days: seq<Database.ChartRow>)
    | NoLineDataBody
    | NoDataBody

  /** A chart text: the month header and the body. */
  datatype ChartText = ChartText(month: string, year: string, body: ChartBody)

  /** `generateLineChart`: its own no-data text for no rows, else the chart of the rows. */
  function GenerateLineChart(data: seq<Database.ChartRow>): (r: ChartBody)
    ensures data == [] <==> r == NoLineDataBody
    ensures data != [] ==> r == LineBody(data)
  {
    if data == [] then NoLineDataBody else LineBody(data)
  }

  /**
   * `generateTextChart`: a pie chart for `pizza` with rows, the bar chart for
   * `barra` whether or not there are rows, the line chart for `linha` with rows,
   * and the "not enough data" text otherwise.
   */
  method GenerateTextChart(kind: string, data: seq<Database.ChartRow>, month: string, year: string) returns (text: ChartText)
    ensures text.month == month && text.year == year
    ensures kind == "pizza" && data != [] ==> text.body.PieBody? && PieOf(text.body.pie, PieDataOf(data))
    ensures kind == "barra" ==> text.body == BarBody(PieDataOf(data))
    ensures kind == "linha" && data != [] ==> text.body == LineBody(data)
    ensures text.body == NoDataBody <==> (kind != "barra" && (data == [] || (kind != "pizza" && kind != "linha")))
  {
    if kind == "pizza" && |data| > 0 {
      var pie := GeneratePieChart(PieDataOf(data));
      text := ChartText(month, year, PieBody(pie));
    } else if kind == "barra" {
      text := ChartText(month, year, BarBody(PieDataOf(data)));
    } else if kind == "linha" && |data| > 0 {
      text := ChartText(month, year, GenerateLineChart(data));
    } else {
      text := ChartText(month, year, NoDataBody);
    }
  }

  /** A cell of a budget progress bar. */
  datatype Cell = Red | Yellow | Green | White

  /** The colour of filled cells: red when exceeded, yellow on warning, green otherwise. */
  function FillColour(status: string): (c: Cell)
    ensures c != White
    ensures c == Red <==> status == "exceeded"
    ensures c == Yellow <==> status == "warning"
  {
    if status == "exceeded" then Red else if status == "warning" then Yellow else Green
  }

  /**
   * `Math.min(Math.round((percentUsed / 100) * 10), 10)`: how many of the ten
   * cells are filled; `NaN` fills none (no index is below it).
   */
  function FilledBlocks(percentUsed: Num): (n: int)
    ensures n <= 10
    ensures percentUsed.PosInf? ==> n == 10
  {
    match percentUsed
    case Finite(v) => var r := Round(v / 100.0 * 10.0); if r < 10 then r else 10
    case PosInf => 10
    case NegInf => 0
    case NaN => 0
  }

  /** A percentage of at least 95 fills the whole bar; below 5 fills none. */
  lemma FilledBlocksBounds(v: real)
    ensures v >= 95.0 ==> FilledBlocks(Finite(v)) == 10
    ensures v < 5.0 ==> FilledBlocks(Finite(v)) <= 0
  {
  }

  /** The progress bar: ten cells, the first `FilledBlocks` of the status colour, the rest white. */
  method ProgressBar(percentUsed: Num, status: string) returns (bar: seq<Cell>)
    ensures |bar| == 10
    ensures forall i :: 0 <= i < 10 ==> bar[i] == (if i < FilledBlocks(percentUsed) then FillColour(status) else White)
  {
    var filled := FilledBlocks(percentUsed);
    bar := [];
    for i := 0 to 10
      invariant |bar| == i
      invariant forall k :: 0 <= k < i ==> bar[k] == (if k < filled then FillColour(status) else White)
    {
      if i < filled {
        bar := bar + [FillColour(status)];
      } else {
        bar := bar + [White];
      }
    }
  }

  /** One budget in the status chart. */
  datatype BudgetLine = BudgetLine(
    categoryName: string, status: string, bar: seq<Cell>, percentUsed: Num,
    budgetAmount: real, spentAmount: real, remaining: real)

  /**
   * A strictly increasing map of the reals into the open interval (-1, 1), so
   * that the infinities can sit at its ends.
   */
  function Squash(v: real): (r: real)
    ensures -1.0 < r < 1.0
    ensures (r >= 0.0 <==> v >= 0.0) && (r == 0.0 <==> v == 0.0)
  {
    var m := if v >= 0.0 then v else -v;
    Fraction(m, 1.0 + m);
    if v >= 0.0 then m / (1.0 + m) else -(m / (1.0 + m))
  }

  /** A non-negative number over a larger one is a fraction in [0, 1), zero only for zero. */
  lemma Fraction(n: real, d: real)
    requires 0.0 <= n < d
    ensures 0.0 <= n / d < 1.0 && (n / d == 0.0 <==> n == 0.0)
  {
    Quotient(n, d, n / d);
  }

  lemma Quotient(n: real, d: real, q: real)
    requires 0.0 <= n < d && q * d == n
    ensures 0.0 <= q < 1.0
    ensures q == 0.0 <==> n == 0.0
  {
    ScaleOrder(1.0, q, d);
    ScaleOrder(q, 0.0, d);
    ScaleOrder(0.0, q, d);
  }

  /** Scaling by a positive number keeps order. */
  lemma ScaleOrder(x: real, y: real, d: real)
    requires d > 0.0
    ensures x <= y ==> x * d <= y * d
    ensures x < y ==> x * d < y * d
  {
  }

  lemma SquashMonotone(a: real, b: real)
    ensures a <= b <==> Squash(a) <= Squash(b)
  {
    var x, y := Squash(a), Squash(b);
    if a >= 0.0 {
      assert x * (1.0 + a) == a;
    } else {
      assert x * (1.0 - a) == a;
    }
    if b >= 0.0 {
      assert y * (1.0 + b) == b;
    } else {
      assert y * (1.0 - b) == b;
    }
    if a >= 0.0 && b >= 0.0 {
      SameSideOrder(a, b, x, y, 1.0 + a, 1.0 + b);
    } else if a < 0.0 && b < 0.0 {
      SameSideOrder(a, b, x, y, 1.0 - a, 1.0 - b);
    }
  }

  /** `x = a / p` and `y = b / q` with `p`, `q` positive and `a·q - b·p` of the sign of `a - b`. */
  lemma SameSideOrder(a: real, b: real, x: real, y: real, p: real, q: real)
    requires p > 0.0 && q > 0.0 && x * p == a && y * q == b
    requires (a <= b) <==> (a * q <= b * p)
    ensures a <= b <==> x <= y
  {
    assert a * q == x * p * q && b * p == y * q * p;
    if x <= y {
      assert x * (p * q) <= y * (p * q);
    } else {
      assert x * (p * q) > y * (p * q);
    }
  }

  /**
   * The order key of a budget row, ordered as `b.percent_used - a.percent_used`
   * orders the rows: finite percentages by value, `Infinity` (a zero budget
   * with spending) above all of them and `-Infinity` below.
   */
  function PercentKey(b: Database.BudgetProgress): (r: real)
    ensures b.percentUsed.PosInf? <==> r == 1.0
    ensures b.percentUsed.NegInf? <==> r == -1.0
    ensures b.percentUsed.Finite? ==> -1.0 < r < 1.0
  {
    match b.percentUsed
    case Finite(v) => Squash(v)
    case PosInf => 1.0
    case NegInf => -1.0
    case NaN => 0.0
  }

  /** `b - a >= 0` on percentages that are not `NaN`, as JavaScript computes it. */
  predicate AtLeast(x: Num, y: Num)
  {
    x.PosInf? || y.NegInf? || (x.Finite? && y.Finite? && x.v >= y.v)
  }

  /** The key orders two rows without `NaN` exactly as the comparator does. */
  lemma PercentKeyOrder(a: Database.BudgetProgress, b: Database.BudgetProgress)
    requires !a.percentUsed.NaN? && !b.percentUsed.NaN?
    ensures PercentKey(a) >= PercentKey(b) <==> AtLeast(a.percentUsed, b.percentUsed)
  {
    if a.percentUsed.Finite? && b.percentUsed.Finite? {
      SquashMonotone(b.percentUsed.v, a.percentUsed.v);
    }
  }

  /** `budgets.sort((a, b) => b.percent_used - a.percent_used)`: the caller's array is reordered in place, highest first, stably. */
  method SortByPercentUsed(a: array<Database.BudgetProgress>)
    modifies a
    ensures a[..] == Sorting.SortDesc(old(a[..]), PercentKey)
  {
    var sorted := Sorting.SortDesc(a[..], PercentKey);
    forall i | 0 <= i < a.Length {
      a[i] := sorted[i];
    }
  }

  /** The line drawn for one budget row. */
  function BudgetLineOf(b: Database.BudgetProgress, bar: seq<Cell>): BudgetLine
  {
    BudgetLine(b.categoryName, b.status, bar, b.percentUsed, b.budgetAmount, b.spentAmount, b.budgetAmount - b.spentAmount)
  }

  /**
   * The line of a budget row shows the row's own category, status, percentage,
   * budgeted and spent amounts and what is left of the budget, with a ten-cell
   * bar filled up to `FilledBlocks` in the status colour.
   */
  predicate DrawnAs(line: BudgetLine, b: Database.BudgetProgress)
  {
    && line == BudgetLineOf(b, line.bar)
    && |line.bar| == 10
    && forall k :: 0 <= k < 10 ==> line.bar[k] == (if k < FilledBlocks(b.percentUsed) then FillColour(b.status) else White)
  }

  /**
   * `generateBudgetChart`: `null` for a missing or empty list; otherwise the
   * caller's array is sorted in place by percentage used, highest first, and
   * every budget gets its line with a ten-cell bar.
   */
  method GenerateBudgetChart(budgets: array?<Database.BudgetProgress>) returns (chart: Option<seq<BudgetLine>>)
    modifies budgets
    ensures budgets == null || budgets.Length == 0 <==> chart.None?
    ensures budgets != null ==> budgets[..] == Sorting.SortDesc(old(budgets[..]), PercentKey)
    ensures chart.Some? ==> |chart.value| == budgets.Length
    ensures chart.Some? ==> forall i :: 0 <= i < |chart.value| ==> DrawnAs(chart.value[i], budgets[i])
  {
    if budgets == null || budgets.Length == 0 {
      return None;
    }
    SortByPercentUsed(budgets);
    ghost var sorted := budgets[..];
    var lines: seq<BudgetLine> := [];
    var i := 0;
    while i < budgets.Length
      invariant 0 <= i <= budgets.Length
      invariant budgets[..] == sorted
      invariant |lines| == i
      invariant forall n :: 0 <= n < i ==> DrawnAs(lines[n], budgets[n])
    {
      var bar := ProgressBar(budgets[i].percentUsed, budgets[i].status);
      assert DrawnAs(BudgetLineOf(budgets[i], bar), budgets[i]);
      lines := lines + [BudgetLineOf(budgets[i], bar)];
      i := i + 1;
    }
    chart := Some(lines);
  }
}
