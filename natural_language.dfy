/**
 * `naturalLanguage.js`: a free-text message is lower-cased and trimmed, its
 * sender registered, and the text tried against ten groups of regular
 * expressions in a fixed order. The first group with a matching pattern
 * decides what happens: a slash-command handler runs, an expense or an income
 * read from the match is recorded, or a help or fallback text is sent.
 *
 * The regular expressions are not interpreted: each is a `Matcher`, seen only
 * through what `text.match(re)` returns. What the declared patterns guarantee
 * about their matches (how many groups, which are always defined, how the text
 * must begin, that it must contain white space) is stated once, in
 * `PatternsAsDeclared`, and the lemmas that need it require it.
 */
module NaturalLanguage {
  import opened Wrappers
  import opened JsText
  import opened Database
  import Chat
  import Commands
  import Reports
  import Goals
  import Budget
  import Reminders
  import Expressions

  // ---------------------------------------------------------------- matchers

  /** The array `text.match(re)` returns: the whole match, then each capture group (`None` when undefined). */
  type Captures = seq<Option<string>>

  /** A regular expression, through `text.match`: `None` is `null`. */
  type Matcher = string -> Option<Captures>

  /** The `patterns` object, each group's expressions in declaration order, and the inline `recebi N reais de` test. */
  datatype Patterns = Patterns(
    expense: seq<Matcher>, income: seq<Matcher>, balance: seq<Matcher>, report: seq<Matcher>,
    help: seq<Matcher>, analysis: seq<Matcher>, goals: seq<Matcher>, budget: seq<Matcher>,
    reminders: seq<Matcher>, chart: seq<Matcher>,
    receivedReais: Matcher)

  /** Pattern `i` is the first of `patterns` to match `text`. */
  predicate FirstAt(text: string, patterns: seq<Matcher>, i: int)
  {
    0 <= i < |patterns| && patterns[i](text).Some? && forall j :: 0 <= j < i ==> patterns[j](text).None?
  }

  /** `findFirstMatch`: the match of the first pattern that matches, `None` when none does. */
  function FindFirstMatch(text: string, patterns: seq<Matcher>): (r: Option<Captures>)
    ensures r.None? <==> forall i :: 0 <= i < |patterns| ==> patterns[i](text).None?
    decreases |patterns|
  {
    if patterns == [] then None
    else if patterns[0](text).Some? then patterns[0](text)
    else FindFirstMatch(text, patterns[1..])
  }

  /** The match found is that of the first matching pattern; later patterns are not consulted. */
  lemma {:induction false} FindFirstMatchIsFirst(text: string, patterns: seq<Matcher>, i: int)
    requires FirstAt(text, patterns, i)
    ensures FindFirstMatch(text, patterns) == patterns[i](text)
    decreases |patterns|
  {
    if i > 0 {
      assert FirstAt(text, patterns[1..], i - 1) by {
        forall j | 0 <= j < i - 1 ensures patterns[1..][j](text).None? {
          assert patterns[1..][j] == patterns[j + 1];
        }
      }
      FindFirstMatchIsFirst(text, patterns[1..], i - 1);
    }
  }

  /** Some pattern matching means some pattern matches first. */
  lemma {:induction false} SomeMatchIsFirst(text: string, patterns: seq<Matcher>, k: int)
    requires 0 <= k < |patterns| && patterns[k](text).Some?
    ensures exists i :: 0 <= i <= k && FirstAt(text, patterns, i)
    decreases k
  {
    if forall j :: 0 <= j < k ==> patterns[j](text).None? {
      assert FirstAt(text, patterns, k);
    } else {
      var j :| 0 <= j < k && patterns[j](text).Some?;
      SomeMatchIsFirst(text, patterns, j);
    }
  }

  /** `matchesAnyPattern`: `patterns.some(pattern => text.match(pattern))`. */
  function MatchesAnyPattern(text: string, patterns: seq<Matcher>): (r: bool)
    ensures r <==> exists i :: 0 <= i < |patterns| && patterns[i](text).Some?
    decreases |patterns|
  {
    if patterns == [] then false
    else patterns[0](text).Some? || MatchesAnyPattern(text, patterns[1..])
  }

  // ---------------------------------------------------------------- the priority chain

  /** What the first matching group asks for; the three groups whose match is used carry it. */
  datatype Intent =
    | BalanceIntent
    | AnalysisIntent
    | GoalsIntent
    | BudgetIntent
    | RemindersIntent
    | ChartIntent(chartMatch: Captures)
    | ExpenseIntent(expenseMatch: Captures)
    | IncomeIntent(incomeMatch: Captures)
    | ReportIntent
    | HelpIntent
    | NoIntent
  {
    /** The intent's place in the order the groups are tried; 10 for the fallback. */
    function Rank(): nat
    {
      match this
      case BalanceIntent => 0
      case AnalysisIntent => 1
      case GoalsIntent => 2
      case BudgetIntent => 3
      case RemindersIntent => 4
      case ChartIntent(_) => 5
      case ExpenseIntent(_) => 6
      case IncomeIntent(_) => 7
      case ReportIntent => 8
      case HelpIntent => 9
      case NoIntent => 10
    }
  }

  /** The groups in the order `processMessage` tries them. */
  function Groups(p: Patterns): (gs: seq<seq<Matcher>>)
    ensures |gs| == 10
  {
    [p.balance, p.analysis, p.goals, p.budget, p.reminders, p.chart, p.expense, p.income, p.report, p.help]
  }

  /** The index of the first group with a matching pattern; the number of groups when none has one. */
  function FirstGroup(text: string, groups: seq<seq<Matcher>>): (k: nat)
    ensures k <= |groups|
    ensures forall j :: 0 <= j < k ==> !MatchesAnyPattern(text, groups[j])
    ensures k < |groups| ==> MatchesAnyPattern(text, groups[k])
    decreases |groups|
  {
    if groups == [] then 0
    else if MatchesAnyPattern(text, groups[0]) then 0
    else
      var k := FirstGroup(text, groups[1..]);
      assert forall j :: 1 <= j < k + 1 ==> groups[j] == groups[1..][j - 1];
      1 + k
  }

  /** A place in the order with no match before it and a match at it (or at the end) is the first group. */
  lemma FirstGroupAt(text: string, groups: seq<seq<Matcher>>, k: nat)
    requires k <= |groups|
    requires forall j :: 0 <= j < k ==> !MatchesAnyPattern(text, groups[j])
    requires k < |groups| ==> MatchesAnyPattern(text, groups[k])
    ensures FirstGroup(text, groups) == k
  {
  }

  /**
   * The `if` chain of `processMessage`: balance, analysis, goals, budget,
   * reminders, chart, expense, income, report, help, then the fallback.
   */
  function Classify(p: Patterns, text: string): Intent
  {
    if MatchesAnyPattern(text, p.balance) then BalanceIntent
    else if MatchesAnyPattern(text, p.analysis) then AnalysisIntent
    else if MatchesAnyPattern(text, p.goals) then GoalsIntent
    else if MatchesAnyPattern(text, p.budget) then BudgetIntent
    else if MatchesAnyPattern(text, p.reminders) then RemindersIntent
    else if FindFirstMatch(text, p.chart).Some? then ChartIntent(FindFirstMatch(text, p.chart).value)
    else if FindFirstMatch(text, p.expense).Some? then ExpenseIntent(FindFirstMatch(text, p.expense).value)
    else if FindFirstMatch(text, p.income).Some? then IncomeIntent(FindFirstMatch(text, p.income).value)
    else if MatchesAnyPattern(text, p.report) then ReportIntent
    else if MatchesAnyPattern(text, p.help) then HelpIntent
    else NoIntent
  }

  /**
   * The group that decides is the first one with a matching pattern, and the
   * match an intent carries is the one `findFirstMatch` returns for its group.
   */
  lemma ClassifyFollowsOrder(p: Patterns, text: string)
    ensures Classify(p, text).Rank() == FirstGroup(text, Groups(p))
    ensures Classify(p, text).ChartIntent? ==> FindFirstMatch(text, p.chart) == Some(Classify(p, text).chartMatch)
    ensures Classify(p, text).ExpenseIntent? ==> FindFirstMatch(text, p.expense) == Some(Classify(p, text).expenseMatch)
    ensures Classify(p, text).IncomeIntent? ==> FindFirstMatch(text, p.income) == Some(Classify(p, text).incomeMatch)
  {
    FirstGroupAt(text, Groups(p), Classify(p, text).Rank());
  }

  /** Two groups agree on a text when each pattern of one matches it exactly as the same pattern of the other. */
  predicate SameOn(text: string, a: seq<Matcher>, b: seq<Matcher>)
  {
    |a| == |b| && forall i :: 0 <= i < |a| ==> a[i](text) == b[i](text)
  }

  lemma {:induction false} SameOnSameMatch(text: string, a: seq<Matcher>, b: seq<Matcher>)
    requires SameOn(text, a, b)
    ensures FindFirstMatch(text, a) == FindFirstMatch(text, b)
    ensures MatchesAnyPattern(text, a) == MatchesAnyPattern(text, b)
    decreases |a|
  {
    if a != [] {
      assert SameOn(text, a[1..], b[1..]) by {
        forall i | 0 <= i < |a| - 1 ensures a[1..][i](text) == b[1..][i](text) {
          assert a[1..][i] == a[i + 1] && b[1..][i] == b[i + 1];
        }
      }
      SameOnSameMatch(text, a[1..], b[1..]);
    }
  }

  /**
   * The groups after the winning one are never consulted: two tables that
   * agree on the text up to and including the group that wins classify it alike.
   */
  lemma LaterGroupsIgnored(p: Patterns, q: Patterns, text: string)
    requires forall j :: 0 <= j <= Classify(p, text).Rank() && j < 10 ==> SameOn(text, Groups(p)[j], Groups(q)[j])
    ensures Classify(q, text) == Classify(p, text)
  {
    var k := Classify(p, text).Rank();
    var gp, gq := Groups(p), Groups(q);
    forall j | 0 <= j <= k && j < 10
      ensures FindFirstMatch(text, gp[j]) == FindFirstMatch(text, gq[j])
      ensures MatchesAnyPattern(text, gp[j]) == MatchesAnyPattern(text, gq[j])
    {
      SameOnSameMatch(text, gp[j], gq[j]);
    }
    ClassifyFollowsOrder(p, text);
    ClassifyFollowsOrder(q, text);
    FirstGroupAt(text, gq, k);
    SameRankSameIntent(Classify(p, text), Classify(q, text));
  }

  /** Intents of the same rank carrying the same match are the same intent. */
  lemma SameRankSameIntent(a: Intent, b: Intent)
    requires a.Rank() == b.Rank()
    requires a.ChartIntent? ==> b.chartMatch == a.chartMatch
    requires a.ExpenseIntent? ==> b.expenseMatch == a.expenseMatch
    requires a.IncomeIntent? ==> b.incomeMatch == a.incomeMatch
    ensures a == b
  {
  }

  // ---------------------------------------------------------------- what the declared patterns guarantee

  /** A match needs white space in the text: the expression has a `\s+` or a literal space outside every optional part. */
  ghost predicate NeedsSpace(m: Matcher)
  {
    forall s :: m(s).Some? ==> HasSpace(s)
  }

  ghost predicate AllNeedSpace(ms: seq<Matcher>)
  {
    forall i :: 0 <= i < |ms| ==> NeedsSpace(ms[i])
  }

  /** A match in a lower-case text needs one of `words` in it. */
  ghost predicate NeedsWord(m: Matcher, words: set<string>)
  {
    forall s :: IsLower(s) && m(s).Some? ==> exists w :: w in words && Contains(s, w)
  }

  /** A match in a lower-case text needs the text to begin with `prefix` (`^prefix`). */
  ghost predicate Anchored(m: Matcher, prefix: string)
  {
    forall s :: IsLower(s) && m(s).Some? ==> StartsWith(s, prefix)
  }

  /** `text.match(/^\d+/)`. */
  predicate LeadingDigit(text: string)
  {
    text != [] && IsDigit(text[0])
  }

  /** A match needs the text to begin with a digit (`^(\d+...`). */
  ghost predicate DigitAnchored(m: Matcher)
  {
    forall s :: m(s).Some? ==> LeadingDigit(s)
  }

  /** Every match has `n` capture groups, and groups 1 to `defined` always take part in it. */
  ghost predicate Shape(m: Matcher, n: nat, defined: nat)
    requires defined <= n
  {
    forall s :: m(s).Some? ==> |m(s).value| == n + 1 && forall g :: 1 <= g <= defined ==> m(s).value[g].Some?
  }

  predicate IsChartType(kind: string)
  {
    kind == "pizza" || kind == "linha" || kind == "barra"
  }

  /** Every match has one group, always defined, holding `pizza`, `linha` or `barra` in some case. */
  ghost predicate CapturesChartType(m: Matcher)
  {
    forall s :: m(s).Some? ==> |m(s).value| == 2 && m(s).value[1].Some? && IsChartType(Lower(m(s).value[1].value))
  }

  /**
   * What the expressions declared in `naturalLanguage.js` guarantee, read off
   * their text: how many there are in each group, how the expense expressions
   * are anchored, the shape of the expense, income and chart matches, and
   * which expressions cannot match a text without white space.
   */
  ghost predicate PatternsAsDeclared(p: Patterns)
  {
    && |p.expense| == 5 && |p.income| == 6 && |p.balance| == 8 && |p.report| == 5 && |p.help| == 7
    && |p.analysis| == 6 && |p.goals| == 4 && |p.budget| == 4 && |p.reminders| == 4 && |p.chart| == 3
    && DigitAnchored(p.expense[0]) && Anchored(p.expense[1], "comprei")
    && Anchored(p.expense[2], "gastei") && Anchored(p.expense[3], "paguei")
    && (forall i :: 0 <= i < 5 ==> Shape(p.expense[i], 2, 2))
    && Shape(p.income[0], 2, 2) && (forall i :: 1 <= i < 6 ==> Shape(p.income[i], 2, 1))
    && CapturesChartType(p.chart[0]) && CapturesChartType(p.chart[1]) && Shape(p.chart[2], 0, 0)
    && AllNeedSpace(p.expense) && AllNeedSpace(p.income) && AllNeedSpace(p.report) && AllNeedSpace(p.analysis)
    && AllNeedSpace(p.goals) && AllNeedSpace(p.budget) && AllNeedSpace(p.reminders) && AllNeedSpace(p.chart)
    && (forall i :: 0 <= i < 8 && i != 5 ==> NeedsSpace(p.balance[i]))
    && NeedsWord(p.balance[5], {"saldo"}) && NeedsWord(p.balance[5], {"favor", "pfv"})
    && (forall i :: 0 <= i < 6 ==> NeedsSpace(p.help[i])) && NeedsWord(p.help[6], {"instruções", "manual"})
    && NeedsSpace(p.receivedReais)
  }

  /**
   * What the balance, analysis, goals, budget, reminders and chart expressions
   * guarantee about the words of a lower-case text they match: for each, one
   * alternation that a match cannot do without.
   */
  ghost predicate QueriesAsDeclared(p: Patterns)
  {
    && BalanceNeeds(p.balance) && AnalysisNeeds(p.analysis) && GoalsNeeds(p.goals)
    && BudgetNeeds(p.budget) && RemindersNeeds(p.reminders) && ChartNeeds(p.chart)
  }

  ghost predicate BalanceNeeds(ms: seq<Matcher>)
  {
    && |ms| == 8
    && NeedsWord(ms[0], {"quanto"})
    && NeedsWord(ms[1], {"saldo", "dinheiro", "grana", "valor", "montante", "disponível"})
    && NeedsWord(ms[2], {"saldo", "dinheiro", "grana", "valor", "montante"})
    && NeedsWord(ms[3], {"saldo", "balanço", "dinheiro", "grana"})
    && NeedsWord(ms[4], {"saldo", "dinheiro", "grana"})
    && NeedsWord(ms[5], {"saldo"})
    && NeedsWord(ms[6], {"estou"})
    && NeedsWord(ms[7], {"quanto"})
  }

  ghost predicate AnalysisNeeds(ms: seq<Matcher>)
  {
    && |ms| == 6
    && NeedsWord(ms[0], {"estão", "andam", "estou", "foram", "andaram"})
    && NeedsWord(ms[1], {"mostre", "mostra", "exibe", "apresenta", "fala sobre"})
    && NeedsWord(ms[2], {"quanto"})
    && NeedsWord(ms[3], {"ver", "mostrar"})
    && NeedsWord(ms[4], {"estou", "ando", "venho", "tenho"})
    && NeedsWord(ms[5], {"onde"})
  }

  ghost predicate GoalsNeeds(ms: seq<Matcher>)
  {
    && |ms| == 4
    && NeedsWord(ms[0], {"minhas", "ver", "mostrar", "listar", "quais", "quero ver", "como estão"})
    && NeedsWord(ms[1], {"mostre", "mostra", "exibe", "apresenta", "fala sobre"})
    && NeedsWord(ms[2], {"quais", "como estão", "quero ver"})
    && NeedsWord(ms[3], {"do", "para", "deste", "desse", "meu", "minhas"})
  }

  ghost predicate BudgetNeeds(ms: seq<Matcher>)
  {
    && |ms| == 4
    && NeedsWord(ms[0], {"orçamento"})
    && forall i :: 1 <= i < 4 ==> NeedsWord(ms[i], {"orçamento", "budget"})
  }

  ghost predicate RemindersNeeds(ms: seq<Matcher>)
  {
    && |ms| == 4
    && NeedsWord(ms[0], {"lembretes"}) && NeedsWord(ms[1], {"lembretes"})
    && NeedsWord(ms[2], {"lembrete"})
    && NeedsWord(ms[3], {"lembretes", "avisos", "notificações"})
  }

  ghost predicate ChartNeeds(ms: seq<Matcher>)
  {
    && |ms| == 3
    && NeedsWord(ms[0], {"gráfico"}) && NeedsWord(ms[1], {"gráfico"})
    && NeedsWord(ms[2], {"pizza", "linha", "barra"})
  }

  /** The recogniser of `/^gastei\s+(?:R\$\s*)?(\d+[.,]?\d*)\s+(?:com|em|no|na|de)\s+(.+)$/i` keeps what is declared of the third expense expression. */
  lemma SpentExpressionAsDeclared()
    ensures Anchored(Expressions.SpentExpression, "gastei")
    ensures Shape(Expressions.SpentExpression, 2, 2) && NeedsSpace(Expressions.SpentExpression)
  {
    SpentShaped();
    forall s | Expressions.SpentExpression(s).Some?
      ensures HasSpace(s) && (IsLower(s) ==> StartsWith(s, "gastei"))
    {
      LoweredFacts(s, 6, "gastei");
    }
  }

  lemma SpentShaped()
    ensures Shape(Expressions.SpentExpression, 2, 2)
  {
    forall s | Expressions.SpentExpression(s).Some?
      ensures |Expressions.SpentExpression(s).value| == 3 && forall g :: 1 <= g <= 2 ==> Expressions.SpentExpression(s).value[g].Some?
    {
      Expressions.SpentExpressionGroups(s);
    }
  }


  /** The recogniser of `/^comprei\s+(.+?)\s+(?:por|no valor de|:)\s+(?:R\$\s*)?(\d+[.,]?\d*)/i` keeps what is declared of the second. */
  lemma BoughtExpressionAsDeclared()
    ensures Anchored(Expressions.BoughtExpression, "comprei")
    ensures Shape(Expressions.BoughtExpression, 2, 2) && NeedsSpace(Expressions.BoughtExpression)
  {
    BoughtShaped();
    forall s | Expressions.BoughtExpression(s).Some?
      ensures HasSpace(s) && (IsLower(s) ==> StartsWith(s, "comprei"))
    {
      LoweredFacts(s, 7, "comprei");
    }
  }

  lemma BoughtShaped()
    ensures Shape(Expressions.BoughtExpression, 2, 2)
  {
    forall s | Expressions.BoughtExpression(s).Some?
      ensures |Expressions.BoughtExpression(s).value| == 3 && forall g :: 1 <= g <= 2 ==> Expressions.BoughtExpression(s).value[g].Some?
    {
      Expressions.BoughtExpressionGroups(s);
    }
  }


  /** White space and a prefix seen in the lower-cased text are in the text, the prefix when it is lower-case already. */
  lemma LoweredFacts(s: string, k: nat, prefix: string)
    requires k < |s| && IsSpace(Lower(s)[k]) && StartsWith(Lower(s), prefix)
    ensures HasSpace(s) && (IsLower(s) ==> StartsWith(s, prefix))
  {
    LowerKeepsSpaces(s[k]);
    if IsLower(s) {
      Expressions.LowerOfLower(s);
    }
  }

  /** A lower-case text without the letters q, d, n, v, b and u asks for no balance. */
  lemma NoBalanceQuery(ms: seq<Matcher>, text: string)
    requires BalanceNeeds(ms) && IsLower(text)
    requires 'q' !in text && 'd' !in text && 'n' !in text && 'v' !in text && 'b' !in text && 'u' !in text
    ensures !MatchesAnyPattern(text, ms)
  {
    AbsentChar(text, "quanto", 'q');
    AbsentChar(text, "saldo", 'd');
    AbsentChar(text, "dinheiro", 'd');
    AbsentChar(text, "grana", 'n');
    AbsentChar(text, "valor", 'v');
    AbsentChar(text, "montante", 'n');
    AbsentChar(text, "disponível", 'd');
    AbsentChar(text, "balanço", 'b');
    AbsentChar(text, "estou", 'u');
  }

  /** A lower-case text without the letters ã, n, u, f, r, x, p, q and v asks for no analysis. */
  lemma NoAnalysisQuery(ms: seq<Matcher>, text: string)
    requires AnalysisNeeds(ms) && IsLower(text)
    requires 'ã' !in text && 'n' !in text && 'u' !in text && 'f' !in text && 'r' !in text
    requires 'x' !in text && 'p' !in text && 'q' !in text && 'v' !in text
    ensures !MatchesAnyPattern(text, ms)
  {
    AbsentChar(text, "estão", 'ã');
    AbsentChar(text, "andam", 'n');
    AbsentChar(text, "estou", 'u');
    AbsentChar(text, "foram", 'f');
    AbsentChar(text, "andaram", 'n');
    Unmatched(ms[0], text, {"estão", "andam", "estou", "foram", "andaram"});
    NoShowing(ms[1], text);
    AbsentChar(text, "quanto", 'q');
    AbsentChar(text, "ver", 'v');
    AbsentChar(text, "mostrar", 'r');
    AbsentChar(text, "ando", 'n');
    AbsentChar(text, "venho", 'n');
    AbsentChar(text, "tenho", 'n');
    AbsentChar(text, "onde", 'n');
    Unmatched(ms[4], text, {"estou", "ando", "venho", "tenho"});
  }

  /** `mostre`, `mostra`, `exibe`, `apresenta` and `fala sobre` all need an r, x, p or f. */
  lemma NoShowing(m: Matcher, text: string)
    requires NeedsWord(m, {"mostre", "mostra", "exibe", "apresenta", "fala sobre"}) && IsLower(text)
    requires 'r' !in text && 'x' !in text && 'p' !in text && 'f' !in text
    ensures m(text).None?
  {
    AbsentChar(text, "mostre", 'r');
    AbsentChar(text, "mostra", 'r');
    AbsentChar(text, "exibe", 'x');
    AbsentChar(text, "apresenta", 'p');
    AbsentChar(text, "fala sobre", 'f');
  }

  /** An expression that needs one of `words` does not match a lower-case text with none of them. */
  lemma Unmatched(m: Matcher, text: string, words: set<string>)
    requires NeedsWord(m, words) && IsLower(text)
    requires forall w :: w in words ==> !Contains(text, w)
    ensures m(text).None?
  {
  }

  /** A lower-case text without the letters n, v, r, q, ã, x, p, f, d and u asks for no goals. */
  lemma NoGoalsQuery(ms: seq<Matcher>, text: string)
    requires GoalsNeeds(ms) && IsLower(text)
    requires 'n' !in text && 'v' !in text && 'r' !in text && 'q' !in text && 'ã' !in text
    requires 'x' !in text && 'p' !in text && 'f' !in text && 'd' !in text && 'u' !in text
    ensures !MatchesAnyPattern(text, ms)
  {
    AbsentChar(text, "minhas", 'n');
    AbsentChar(text, "ver", 'v');
    AbsentChar(text, "mostrar", 'r');
    AbsentChar(text, "listar", 'r');
    AbsentChar(text, "quais", 'q');
    AbsentChar(text, "quero ver", 'q');
    AbsentChar(text, "como estão", 'ã');
    Unmatched(ms[0], text, {"minhas", "ver", "mostrar", "listar", "quais", "quero ver", "como estão"});
    NoShowing(ms[1], text);
    AbsentChar(text, "do", 'd');
    AbsentChar(text, "para", 'p');
    AbsentChar(text, "deste", 'd');
    AbsentChar(text, "desse", 'd');
    AbsentChar(text, "meu", 'u');
    Unmatched(ms[3], text, {"do", "para", "deste", "desse", "meu", "minhas"});
  }

  /** A lower-case text without the letters r and b asks for no budget. */
  lemma NoBudgetQuery(ms: seq<Matcher>, text: string)
    requires BudgetNeeds(ms) && IsLower(text)
    requires 'r' !in text && 'b' !in text
    ensures !MatchesAnyPattern(text, ms)
  {
    AbsentChar(text, "orçamento", 'r');
    AbsentChar(text, "budget", 'b');
  }

  /** A lower-case text without the letters b, v and n asks for no reminders. */
  lemma NoRemindersQuery(ms: seq<Matcher>, text: string)
    requires RemindersNeeds(ms) && IsLower(text)
    requires 'b' !in text && 'v' !in text && 'n' !in text
    ensures !MatchesAnyPattern(text, ms)
  {
    AbsentChar(text, "lembretes", 'b');
    AbsentChar(text, "lembrete", 'b');
    AbsentChar(text, "avisos", 'v');
    AbsentChar(text, "notificações", 'n');
  }

  /** A lower-case text without the letters r, p, n and b asks for no chart. */
  lemma NoChartQuery(ms: seq<Matcher>, text: string)
    requires ChartNeeds(ms) && IsLower(text)
    requires 'r' !in text && 'p' !in text && 'n' !in text && 'b' !in text
    ensures !MatchesAnyPattern(text, ms)
  {
    AbsentChar(text, "gráfico", 'r');
    AbsentChar(text, "pizza", 'p');
    AbsentChar(text, "linha", 'n');
    AbsentChar(text, "barra", 'b');
  }

  /** No expression that needs white space matches a text without any. */
  lemma NoMatchWithoutSpace(text: string, ms: seq<Matcher>)
    requires AllNeedSpace(ms) && !HasSpace(text)
    ensures !MatchesAnyPattern(text, ms) && FindFirstMatch(text, ms).None?
  {
  }

  /**
   * A bare `ajuda` or `saldo` matches no group: every expression but two needs
   * white space, `/saldo.{0,20}(?:favor|...)/` needs a polite word after
   * `saldo`, and `/(?:instruções|manual)/` needs one of those words. Both get
   * the fallback text, though the expense confirmation tells the user to type
   * `saldo`.
   */
  lemma BareWordsNotUnderstood(p: Patterns)
    requires PatternsAsDeclared(p)
    ensures Classify(p, "ajuda") == NoIntent
    ensures Classify(p, "saldo") == NoIntent
  {
    Unspaced("ajuda");
    Unspaced("saldo");
    AbsentChar("ajuda", "saldo", 's');
    AbsentChar("ajuda", "instruções", 'i');
    AbsentChar("ajuda", "manual", 'm');
    AbsentChar("saldo", "favor", 'f');
    AbsentChar("saldo", "pfv", 'f');
    AbsentChar("saldo", "instruções", 'i');
    AbsentChar("saldo", "manual", 'm');
    BareWordFallsBack(p, "ajuda");
    BareWordFallsBack(p, "saldo");
  }

  /** A word of lower-case letters has no white space. */
  lemma Unspaced(w: string)
    requires forall k :: 0 <= k < |w| ==> 'a' <= w[k] <= 'z'
    ensures !HasSpace(w) && IsLower(w)
  {
  }

  /** A lower-case text without white space that the two exceptional expressions miss falls back. */
  lemma BareWordFallsBack(p: Patterns, w: string)
    requires PatternsAsDeclared(p) && !HasSpace(w) && IsLower(w)
    requires !Contains(w, "saldo") || (!Contains(w, "favor") && !Contains(w, "pfv"))
    requires !Contains(w, "instruções") && !Contains(w, "manual")
    ensures Classify(p, w) == NoIntent
  {
    NoMatchWithoutSpace(w, p.analysis);
    NoMatchWithoutSpace(w, p.goals);
    NoMatchWithoutSpace(w, p.budget);
    NoMatchWithoutSpace(w, p.reminders);
    NoMatchWithoutSpace(w, p.chart);
    NoMatchWithoutSpace(w, p.expense);
    NoMatchWithoutSpace(w, p.income);
    NoMatchWithoutSpace(w, p.report);
    assert p.balance[5](w).None?;
    assert p.help[6](w).None?;
  }

  // ---------------------------------------------------------------- reading an expense

  /** `match[g]`: `None` (undefined) for a group the match lacks. */
  function Group(m: Captures, g: nat): Option<string>
  {
    if g < |m| then m[g] else None
  }

  /** The texts whose amount is taken from group 1: they start with a digit, `gastei` or `paguei`. */
  predicate AmountFirst(text: string)
  {
    LeadingDigit(text) || StartsWith(text, "gastei") || StartsWith(text, "paguei")
  }

  /** The destructuring of an expense match: the amount's group and the description's group. */
  function ExpenseFields(text: string, m: Captures): (Option<string>, Option<string>)
  {
    if AmountFirst(text) then (Group(m, 1), Group(m, 2)) else (Group(m, 2), Group(m, 1))
  }

  /**
   * An expense read from its match: the description trimmed, the amount read
   * by `parseFloat` after its first comma becomes a point; `None` when the
   * description is missing or empty or the amount is not a positive number.
   */
  function ExpenseOf(text: string, m: Captures): (r: Option<(string, real)>)
    ensures r.Some? ==> r.value.0 != [] && !IsSpace(r.value.0[0]) && !IsSpace(r.value.0[|r.value.0| - 1])
    ensures r.Some? ==> r.value.1 > 0.0
    ensures r.Some? ==> ExpenseFields(text, m).1.Some? && ExpenseFields(text, m).0.Some?
  {
    var fields := ExpenseFields(text, m);
    EmptyAmount();
    match fields.1
    case None => None
    case Some(d) =>
      match ParseAmount(fields.0.GetOr(""))
      case None => None
      case Some(a) => if Trim(d) == [] || a <= 0.0 then None else Some((Trim(d), a))
  }

  /** `parseFloat('')` is `NaN`. */
  lemma EmptyAmount()
    ensures ParseAmount("") == None
  {
    assert ReplaceFirst("", ',', '.') == "";
    assert TrimStart("") == "" && Unsigned("") == "" && Digits("") == "";
  }

  /**
   * The first three anchored expressions take the amount from the group the
   * destructuring expects: `N reais de X`, `gastei N com X` and `paguei N de X`
   * have the amount first, `comprei X por N` has it second.
   */
  lemma ExpenseOrderFollowsPattern(p: Patterns, text: string, i: int)
    requires PatternsAsDeclared(p) && IsLower(text) && FirstAt(text, p.expense, i) && i < 4
    ensures AmountFirst(text) <==> i != 1
  {
    if i == 1 {
      assert StartsWith(text, "comprei");
      assert text[0] == "comprei"[0];
      assert !StartsWith(text, "gastei") by { assert "gastei"[0] != text[0]; }
      assert !StartsWith(text, "paguei") by { assert "paguei"[0] != text[0]; }
    }
  }

  /** Text with a non-space character at each end: what trimming leaves unchanged. */
  predicate Word(s: string)
  {
    s != [] && !IsSpace(s[0]) && !IsSpace(s[|s| - 1])
  }

  /** The descriptions the scenarios record. */
  lemma ScenarioWords()
    ensures Word("10") && Word("almoço") && Word("pão")
  {
  }

  lemma ExpenseRead(text: string, m: Captures, amountText: string, description: string, amount: real)
    requires ExpenseFields(text, m) == (Some(amountText), Some(description))
    requires ParseAmount(amountText) == Some(amount) && amount > 0.0
    requires Word(description)
    ensures ExpenseOf(text, m) == Some((description, amount))
  {
  }

  /**
   * The fifth expression, `X custou N`, is read by the text's first letter, not
   * by which expression matched: a description that starts with a digit is read
   * as the amount, so `2 pães custou 10` records 2 for the description `10`.
   */
  lemma DigitLedDescriptionReadAsAmount(text: string, m: Captures)
    requires text == "2 pães custou 10" && m == [Some(text), Some("2 pães"), Some("10")]
    ensures ExpenseOf(text, m) == Some(("10", 2.0))
  {
    AmountFirstFields(text, m);
    AmountTwo();
    ScenarioWords();
    ExpenseRead(text, m, "2 pães", "10", 2.0);
  }

  /** A text that starts with a digit, `gastei` or `paguei` reads its amount from group 1. */
  lemma AmountFirstFields(text: string, m: Captures)
    requires |m| == 3
    requires (text != [] && text[0] == '2') || (|text| >= 6 && text[..6] == "gastei")
    ensures ExpenseFields(text, m) == (m[1], m[2])
  {
  }

  /** `gastei 15 com almoço`, as the third expense expression reads it, records 15 for `almoço`. */
  lemma SpentScenario(text: string, m: Captures)
    requires text == "gastei 15 com almoço" && Expressions.SpentExpression(text) == Some(m)
    ensures ExpenseOf(text, m) == Some(("almoço", 15.0))
  {
    Expressions.SpentScenarioReads();
    AmountFirstFields(text, m);
    AmountFifteen();
    ScenarioWords();
    ExpenseRead(text, m, "15", "almoço", 15.0);
  }

  /** `comprei pão por 5,50`, as the second expense expression reads it, records 5.5 for `pão`: the decimal comma is read as a point. */
  lemma BoughtScenario(text: string, m: Captures)
    requires text == "comprei pão por 5,50" && Expressions.BoughtExpression(text) == Some(m)
    ensures ExpenseOf(text, m) == Some(("pão", 5.5))
  {
    Expressions.BoughtScenarioReads();
    DescriptionFirstFields(text, m);
    CommaAmount();
    ScenarioWords();
    ExpenseRead(text, m, "5,50", "pão", 5.5);
  }

  /** A text that starts with `c` reads its description from group 1. */
  lemma DescriptionFirstFields(text: string, m: Captures)
    requires |m| == 3 && text != [] && text[0] == 'c'
    ensures ExpenseFields(text, m) == (m[2], m[1])
  {
    assert !StartsWith(text, "gastei") by { assert "gastei"[0] != text[0]; }
    assert !StartsWith(text, "paguei") by { assert "paguei"[0] != text[0]; }
  }

  /** The values of the numerals the scenarios use. */
  lemma NumeralValues()
    ensures DigitsValue("2") == 2 && DigitsValue("5") == 5 && DigitsValue("15") == 15 && DigitsValue("50") == 50
    ensures DigitsValue("100") == 100 && DigitsValue("1000") == 1000 && Pow10(2) == 100
  {
    assert "2"[..0] == "" && "5"[..0] == "" && "1"[..0] == "";
    assert "15"[..1] == "1" && "50"[..1] == "5" && "10"[..1] == "1";
    assert "100"[..2] == "10" && "1000"[..3] == "100";
    assert Pow10(1) == 10;
  }

  lemma AmountTwo()
    ensures ParseAmount("2 pães") == Some(2.0)
  {
    ParseWhole("2", " pães");
    LoavesLiteral();
    NumeralValues();
  }

  lemma AmountFifteen()
    ensures ParseAmount("15") == Some(15.0)
  {
    ParseWhole("15", "");
    assert "15" + "" == "15";
    NumeralValues();
  }

  lemma AmountHundred()
    ensures ParseAmount("100") == Some(100.0)
  {
    ParseWhole("100", "");
    assert "100" + "" == "100";
    NumeralValues();
  }

  lemma AmountThousand()
    ensures ParseAmount("1000") == Some(1000.0)
  {
    ParseWhole("1000", "");
    assert "1000" + "" == "1000";
    NumeralValues();
  }

  /** `5,50` reads as 5.5. */
  lemma CommaAmount()
    ensures ParseAmount("5,50") == Some(5.5)
  {
    CommaReadsAsPoint("5", "50");
    NumeralValues();
    CommaLiteral();
  }

  lemma LoavesLiteral()
    ensures "2" + " pães" == "2 pães"
  {
  }

  lemma CommaLiteral()
    ensures "5" + "," + "50" == "5,50"
  {
  }

  /** Writing the amount with a decimal comma or a decimal point records the same expense, of value `i.f`. */
  lemma ExpenseCommaOrPoint(text: string, m1: Captures, m2: Captures, i: string, f: string)
    requires AllDigits(i) && AllDigits(f) && i != []
    requires ExpenseFields(text, m1).1 == ExpenseFields(text, m2).1
    requires ExpenseFields(text, m1).0 == Some(i + "," + f) && ExpenseFields(text, m2).0 == Some(i + "." + f)
    ensures ExpenseOf(text, m1) == ExpenseOf(text, m2)
    ensures ExpenseOf(text, m1).Some? ==> ExpenseOf(text, m1).value.1 == DecimalValue(i, f)
  {
    CommaReadsAsPoint(i, f);
  }

  // ---------------------------------------------------------------- reading an income

  /** Reading a value from a match: the value, a refusal, or a `TypeError` thrown on an undefined group. */
  datatype Reading<T> = Read(value: T) | Refused | Threw

  const UnspecifiedIncome := "Receita não especificada"

  /**
   * An income read from its match: the amount from group 1 (comma read as a
   * point), the description from group 2 or `Receita não especificada`; when
   * the text says `recebi N reais de`, group 2 as it is, even undefined.
   */
  function IncomeOf(m: Captures, overridden: bool): (r: Reading<(real, Option<string>)>)
    ensures r.Threw? <==> Group(m, 1).None?
    ensures r.Read? ==> r.value.0 > 0.0
    ensures r.Read? ==> r.value.1 == IncomeText(Group(m, 2), overridden)
  {
    match Group(m, 1)
    case None => Threw
    case Some(raw) =>
      match ParseAmount(raw)
      case None => Refused
      case Some(amount) => if amount <= 0.0 then Refused else Read((amount, IncomeText(Group(m, 2), overridden)))
  }

  /** `incomeMatch[2] || "Receita não especificada"`, or `incomeMatch[2]` itself for `recebi N reais de`. */
  function IncomeText(described: Option<string>, overridden: bool): Option<string>
  {
    if overridden then described
    else if described.None? || described.value == [] then Some(UnspecifiedIncome)
    else described
  }

  /** A readable positive amount is recorded with the income's description. */
  lemma IncomeRead(m: Captures, overridden: bool, raw: string, amount: real)
    requires Group(m, 1) == Some(raw) && ParseAmount(raw) == Some(amount) && amount > 0.0
    ensures IncomeOf(m, overridden) == Read((amount, IncomeText(Group(m, 2), overridden)))
  {
  }

  /** The description is group 2 when it is non-empty, and the default text otherwise. */
  lemma IncomeDescription(m: Captures, overridden: bool)
    requires IncomeOf(m, overridden).Read?
    ensures var d := IncomeOf(m, overridden).value.1;
            && (Group(m, 2).Some? && Group(m, 2).value != [] ==> d == Group(m, 2))
            && (overridden ==> d == Group(m, 2))
            && (!overridden ==> d.Some? && d.value != [])
            && (!overridden && (Group(m, 2).None? || Group(m, 2) == Some("")) ==> d == Some(UnspecifiedIncome))
  {
  }

  /** Only the amount can be refused: a readable positive amount is always recorded. */
  lemma IncomeRefusedOnlyOnAmount(m: Captures, overridden: bool)
    requires Group(m, 1).Some?
    ensures IncomeOf(m, overridden).Refused? <==> ParseAmount(Group(m, 1).value).None? || ParseAmount(Group(m, 1).value).value <= 0.0
  {
  }

  /** Every income expression always defines group 1, so reading an income never throws. */
  lemma IncomeNeverThrows(p: Patterns, text: string, i: int, overridden: bool)
    requires PatternsAsDeclared(p) && FirstAt(text, p.income, i)
    ensures !IncomeOf(p.income[i](text).value, overridden).Threw?
  {
    if i == 0 {
      assert Shape(p.income[0], 2, 2);
    } else {
      assert Shape(p.income[i], 2, 1);
    }
  }

  /** `recebi 1000 de salário` records 1000 described as `salário`. */
  lemma ReceivedScenario(m: Captures)
    requires m == [Some("recebi 1000 de salário"), Some("1000"), Some("salário")]
    ensures IncomeOf(m, false) == Read((1000.0, Some("salário")))
  {
    ThreeGroups(m, m[0], Some("1000"), Some("salário"));
    AmountThousand();
    IncomeRead(m, false, "1000", 1000.0);
  }

  /** `recebi 100 de` captures no description and records the default one. */
  lemma UndescribedIncomeScenario(m: Captures)
    requires m == [Some("recebi 100 de"), Some("100"), None]
    ensures IncomeOf(m, false) == Read((100.0, Some(UnspecifiedIncome)))
  {
    ThreeGroups(m, m[0], Some("100"), None);
    AmountHundred();
    IncomeRead(m, false, "100", 100.0);
  }

  /** The groups of a three-element match. */
  lemma ThreeGroups(m: Captures, whole: Option<string>, first: Option<string>, second: Option<string>)
    requires m == [whole, first, second]
    ensures Group(m, 1) == first && Group(m, 2) == second
  {
  }

  /** Writing the amount with a decimal comma or a decimal point records the same income. */
  lemma IncomeCommaOrPoint(m1: Captures, m2: Captures, overridden: bool, i: string, f: string)
    requires AllDigits(i) && AllDigits(f) && i != []
    requires Group(m1, 1) == Some(i + "," + f) && Group(m2, 1) == Some(i + "." + f) && Group(m1, 2) == Group(m2, 2)
    ensures IncomeOf(m1, overridden) == IncomeOf(m2, overridden)
    ensures IncomeOf(m1, overridden).Read? ==> IncomeOf(m1, overridden).value.0 == DecimalValue(i, f)
  {
    CommaReadsAsPoint(i, f);
  }

  // ---------------------------------------------------------------- charts and reports asked for in words

  /** `${currentMonth} ${currentYear}`: the month's number and the year, unpadded. */
  function MonthYearWords(today: Date): string
    requires ValidDate(today)
  {
    NatText(today.month) + " " + IntText(today.year)
  }

  /** `${tipo} ${currentMonth} ${currentYear}` with `tipo = chartMatch[1].toLowerCase()`; `None` where that throws. */
  function ChartWords(m: Captures, today: Date): (r: Option<string>)
    requires ValidDate(today)
    ensures r.None? <==> Group(m, 1).None?
  {
    match Group(m, 1)
    case None => None
    case Some(kind) => Some(Lower(kind) + " " + MonthYearWords(today))
  }

  /**
   * Only the third chart expression, which captures nothing, makes the chart
   * route throw; the other two capture a chart type.
   */
  lemma ChartThrowsOnlyOnThird(p: Patterns, text: string, i: int, today: Date)
    requires PatternsAsDeclared(p) && ValidDate(today) && FirstAt(text, p.chart, i)
    ensures ChartWords(p.chart[i](text).value, today).None? <==> i == 2
    ensures i < 2 ==> ChartTyped(p.chart[i](text).value)
  {
    if i < 2 {
      assert CapturesChartType(p.chart[i]);
    } else {
      assert Shape(p.chart[2], 0, 0);
    }
  }

  /** Group 1 is defined and holds a chart type. */
  predicate ChartTyped(m: Captures)
  {
    Group(m, 1).Some? && IsChartType(Lower(Group(m, 1).value))
  }

  /** Three words without spaces, joined by single spaces, split back into themselves. */
  lemma ThreeWords(a: string, b: string, c: string)
    requires ' ' !in a && ' ' !in b && ' ' !in c
    ensures Split(a + " " + (b + " " + c), ' ') == [a, b, c]
  {
    assert Join([b, c], ' ') == b + " " + c;
    assert Join([a, b, c], ' ') == a + " " + (b + " " + c) by {
      assert [a, b, c][1..] == [b, c];
    }
    SplitJoin([a, b, c], ' ');
  }

  /** The month and the year as `String` writes them have no space and are read back by `parseInt`. */
  lemma MonthYearReadable(today: Date)
    requires ValidDate(today)
    ensures ' ' !in NatText(today.month) && ' ' !in IntText(today.year)
    ensures ParseInt(NatText(today.month)) == Some(today.month) && ParseInt(IntText(today.year)) == Some(today.year)
  {
    var n, y := NatText(today.month), NatText(if today.year >= 0 then today.year else -today.year);
    assert ' ' !in n by { forall k | 0 <= k < |n| ensures n[k] != ' ' { assert IsDigit(n[k]); } }
    assert ' ' !in y by { forall k | 0 <= k < |y| ensures y[k] != ' ' { assert IsDigit(y[k]); } }
    assert IntText(today.year) == y || IntText(today.year) == "-" + y;
    IntTextRoundTrip(today.month);
    IntTextRoundTrip(today.year);
  }

  /**
   * A chart asked for by its type is asked for the current month and year,
   * which `grafico` always reads; it then answers with the chart, or with "no
   * data" (always so for `barra`, for which no rows are ever built).
   */
  lemma ChartWordsRead(m: Captures, today: Date, txs: seq<Transaction>, categories: seq<Category>, phone: string)
    requires ChartTyped(m) && ValidDate(today)
    ensures ChartWords(m, today).Some?
    ensures var w := ChartWords(m, today).value;
            var kind := Lower(Group(m, 1).value);
            && Split(w, ' ') == [kind, NatText(today.month), IntText(today.year)]
            && (Commands.GraficoRefusal(txs, categories, phone, w) == None
                || Commands.GraficoRefusal(txs, categories, phone, w) == Some(Chat.ChartNoData))
            && (kind == "barra" ==> Commands.GraficoRefusal(txs, categories, phone, w) == Some(Chat.ChartNoData))
  {
    var kind := Lower(Group(m, 1).value);
    assert ' ' !in kind;
    MonthYearReadable(today);
    ThreeWords(kind, NatText(today.month), IntText(today.year));
    CurrentMonthChart(kind, NatText(today.month), IntText(today.year), kind + " " + MonthYearWords(today), txs, categories, phone);
  }

  /** `grafico` on a chart type and a readable month and year passes its type and period checks. */
  lemma CurrentMonthChart(kind: string, month: string, year: string, w: string,
                          txs: seq<Transaction>, categories: seq<Category>, phone: string)
    requires IsChartType(kind)
    requires Split(w, ' ') == [kind, month, year] && Reports.Readable(month, year)
    ensures var r := Commands.GraficoRefusal(txs, categories, phone, w);
            && (r == None || r == Some(Chat.ChartNoData))
            && (kind == "barra" ==> r == Some(Chat.ChartNoData))
  {
    LowerTypes();
  }

  /** The chart types are written in lower case. */
  lemma LowerTypes()
    ensures Lower("pizza") == "pizza" && Lower("linha") == "linha" && Lower("barra") == "barra"
  {
  }

  /**
   * A report asked for in words is the current month's: the words passed to
   * `relatorio` read as the same parameters as no words at all.
   */
  lemma ReportWordsAreCurrentMonth(today: Date)
    requires ValidDate(today)
    ensures Reports.ReportParamsOf(MonthYearWords(today), today) == Reports.ReportParamsOf("", today)
    ensures Reports.ReportParamsOf("", today) == Reports.ReportParams(PadStart2(NatText(today.month)), IntText(today.year), "", None)
  {
    MonthYearReadable(today);
    var words := [NatText(today.month), IntText(today.year)];
    assert Join(words, ' ') == MonthYearWords(today) by {
      assert words[1..] == [IntText(today.year)];
    }
    Reports.ReportParamsOfWords(words, today);
    NoWords();
  }

  /** `''.split(' ')` is one empty word. */
  lemma NoWords()
    ensures Split("", ' ') == [""]
  {
  }

  // ---------------------------------------------------------------- the sender and the text

  /** `message._data.notifyName || 'Usuário'`. */
  function SenderName(m: Chat.Message): (name: string)
    ensures name != []
  {
    if m.notifyName.Some? && m.notifyName.value != [] then m.notifyName.value else "Usuário"
  }

  /** `message.body.toLowerCase().trim()`. */
  function Normalise(body: string): (text: string)
    ensures IsLower(text)
    ensures text == [] || (!IsSpace(text[0]) && !IsSpace(text[|text| - 1]))
    ensures |text| <= |body|
  {
    LowerIsLower(body);
    TrimKeepsLower(Lower(body));
    Trim(Lower(body))
  }

  /** A text with no white space at either end is its own trim. */
  lemma TrimOfTrimmed(w: string)
    requires w == [] || (!IsSpace(w[0]) && !IsSpace(w[|w| - 1]))
    ensures Trim(w) == w
  {
  }

  /** A normalised text is normalised again unchanged. */
  lemma NormaliseIdempotent(body: string)
    ensures Normalise(Normalise(body)) == Normalise(body)
  {
    var t := Normalise(body);
    assert Lower(t) == t;
    TrimOfTrimmed(t);
  }

  // ---------------------------------------------------------------- what a message leads to

  /** What `processMessage` does once the text is classified. */
  datatype Action =
    | RunSaldo
    | RunRelatorio(params: string)
    | RunMeta
    | RunOrcamento
    | RunLembrete
    | RunGrafico(params: string)
    | Record(kind: string, amount: real, description: Option<string>, reply: Chat.Reply)
    | Answer(reply: Chat.Reply)
    | Abort
  {
    /** The actions that hand the message to a slash-command handler. */
    predicate Delegated()
    {
      RunSaldo? || RunRelatorio? || RunMeta? || RunOrcamento? || RunLembrete? || RunGrafico?
    }
  }

  /** The chart route: `grafico` with the type and the current month, or a throw when group 1 is undefined. */
  function ChartAction(m: Captures, today: Date): (a: Action)
    requires ValidDate(today)
    ensures a.Abort? <==> Group(m, 1).None?
    ensures a.RunGrafico? <==> Group(m, 1).Some?
  {
    match ChartWords(m, today)
    case None => Abort
    case Some(w) => RunGrafico(w)
  }

  /** The expense route: the expense recorded and confirmed, or the format guidance. */
  function ExpenseAction(text: string, m: Captures): (a: Action)
    ensures a.Record? || a == Answer(Chat.ExpenseGuidance)
    ensures a.Record? ==> && a.kind == "despesa" && a.amount > 0.0
                          && a.description.Some? && a.description.value != []
                          && a.reply == Chat.ExpenseRecorded(a.description.value, a.amount)
  {
    match ExpenseOf(text, m)
    case None => Answer(Chat.ExpenseGuidance)
    case Some(e) => Record("despesa", e.1, Some(e.0), Chat.ExpenseRecorded(e.0, e.1))
  }

  /** The income route: the income recorded and confirmed, the amount guidance, or a throw. */
  function IncomeAction(m: Captures, overridden: bool): (a: Action)
    ensures a.Record? || a == Answer(Chat.IncomeGuidance) || a.Abort?
    ensures a.Abort? <==> Group(m, 1).None?
    ensures a.Record? ==> && a.kind == "receita" && a.amount > 0.0
                          && a.reply == Chat.IncomeRecorded(a.amount, a.description)
                          && (!overridden ==> a.description.Some? && a.description.value != [])
  {
    match IncomeOf(m, overridden)
    case Threw => Abort
    case Refused => Answer(Chat.IncomeGuidance)
    case Read(i) =>
      IncomeDescription(m, overridden);
      Record("receita", i.0, i.1, Chat.IncomeRecorded(i.0, i.1))
  }

  /**
   * The branch of `processMessage` a text takes: the handler and the words it
   * is given, the transaction recorded and its confirmation, the guidance or
   * help text, or `Abort` where the code throws.
   */
  function Plan(p: Patterns, text: string, today: Date): Action
    requires ValidDate(today)
  {
    match Classify(p, text)
    case BalanceIntent => RunSaldo
    case AnalysisIntent => RunRelatorio("")
    case GoalsIntent => RunMeta
    case BudgetIntent => RunOrcamento
    case RemindersIntent => RunLembrete
    case ChartIntent(m) => ChartAction(m, today)
    case ExpenseIntent(m) => ExpenseAction(text, m)
    case IncomeIntent(m) => IncomeAction(m, p.receivedReais(text).Some?)
    case ReportIntent => RunRelatorio(MonthYearWords(today))
    case HelpIntent => Answer(Chat.Assistant)
    case NoIntent => Answer(Chat.NotUnderstood)
  }

  /**
   * The whole path of `gastei 15 com almoço`: no balance, analysis, goals,
   * budget, reminders or chart expression matches it, the first two expense
   * expressions cannot (it starts with neither a digit nor `comprei`), the
   * third reads 15 and `almoço`, and that expense is recorded and confirmed.
   */
  lemma SpentSentenceRecorded(p: Patterns, text: string, today: Date)
    requires text == "gastei 15 com almoço"
    requires ValidDate(today) && PatternsAsDeclared(p) && QueriesAsDeclared(p)
    requires p.expense[2] == Expressions.SpentExpression
    ensures Plan(p, text, today) == Record("despesa", 15.0, Some("almoço"), Chat.ExpenseRecorded("almoço", 15.0))
  {
    Expressions.SpentScenarioReads();
    SpentLetters(text);
    SpentLacks(text);
    var m := Expressions.SpentExpression(text).value;
    ThirdExpenseClassified(p, text);
    SpentScenario(text, m);
    ExpensePlanned(p, text, today, m);
  }

  /** A text classified as an expense whose match reads as an expense is recorded as that expense. */
  lemma ExpensePlanned(p: Patterns, text: string, today: Date, m: Captures)
    requires ValidDate(today) && Classify(p, text) == ExpenseIntent(m) && ExpenseOf(text, m).Some?
    ensures var e := ExpenseOf(text, m).value;
            Plan(p, text, today) == Record("despesa", e.1, Some(e.0), Chat.ExpenseRecorded(e.0, e.1))
  {
  }

  /**
   * A lower-case text that starts with `g`, lacks the letters q, d, n, v, b, u,
   * ã, f, r, x and p, and matches the third expense expression is that
   * expense: no query group and neither earlier expense expression matches it.
   */
  lemma ThirdExpenseClassified(p: Patterns, text: string)
    requires PatternsAsDeclared(p) && QueriesAsDeclared(p) && IsLower(text) && text != [] && text[0] == 'g'
    requires 'q' !in text && 'd' !in text && 'n' !in text && 'v' !in text && 'b' !in text && 'u' !in text
    requires 'ã' !in text && 'f' !in text && 'r' !in text && 'x' !in text && 'p' !in text
    requires p.expense[2](text).Some?
    ensures Classify(p, text) == ExpenseIntent(p.expense[2](text).value)
  {
    NoQuery(p, text);
    assert !StartsWith(text, "comprei") by { assert text[0] != "comprei"[0]; }
    assert FirstAt(text, p.expense, 2);
    FindFirstMatchIsFirst(text, p.expense, 2);
  }

  /** No balance, analysis, goals, budget, reminders or chart expression matches a lower-case text without these letters. */
  lemma NoQuery(p: Patterns, text: string)
    requires QueriesAsDeclared(p) && IsLower(text)
    requires 'q' !in text && 'd' !in text && 'n' !in text && 'v' !in text && 'b' !in text && 'u' !in text
    requires 'ã' !in text && 'f' !in text && 'r' !in text && 'x' !in text && 'p' !in text
    ensures !MatchesAnyPattern(text, p.balance) && !MatchesAnyPattern(text, p.analysis)
    ensures !MatchesAnyPattern(text, p.goals) && !MatchesAnyPattern(text, p.budget)
    ensures !MatchesAnyPattern(text, p.reminders) && !MatchesAnyPattern(text, p.chart)
  {
    NoBalanceQuery(p.balance, text);
    NoAnalysisQuery(p.analysis, text);
    NoGoalsQuery(p.goals, text);
    NoBudgetQuery(p.budget, text);
    NoRemindersQuery(p.reminders, text);
    NoChartQuery(p.chart, text);
  }

  /** What a text written with the characters of `gastei 15 com almoço` lacks. */
  lemma SpentLacks(text: string)
    requires forall k :: 0 <= k < |text| ==> text[k] in {'g', 'a', 's', 't', 'e', 'i', ' ', '1', '5', 'c', 'o', 'm', 'l', 'ç'}
    ensures 'q' !in text && 'd' !in text && 'n' !in text && 'v' !in text && 'b' !in text && 'u' !in text
    ensures 'ã' !in text && 'f' !in text && 'r' !in text && 'x' !in text && 'p' !in text
  {
    var alphabet := {'g', 'a', 's', 't', 'e', 'i', ' ', '1', '5', 'c', 'o', 'm', 'l', 'ç'};
    Outside(text, alphabet, 'q');
    Outside(text, alphabet, 'd');
    Outside(text, alphabet, 'n');
    Outside(text, alphabet, 'v');
    Outside(text, alphabet, 'b');
    Outside(text, alphabet, 'u');
    Outside(text, alphabet, 'ã');
    Outside(text, alphabet, 'f');
    Outside(text, alphabet, 'r');
    Outside(text, alphabet, 'x');
    Outside(text, alphabet, 'p');
  }

  /** The characters of `gastei 15 com almoço`, and how it starts. */
  lemma SpentLetters(text: string)
    requires text == "gastei 15 com almoço"
    ensures IsLower(text) && text != [] && text[0] == 'g'
    ensures forall k :: 0 <= k < |text| ==> text[k] in {'g', 'a', 's', 't', 'e', 'i', ' ', '1', '5', 'c', 'o', 'm', 'l', 'ç'}
  {
    Expressions.SpentLiteral(text);
  }

  /** A character outside a text's alphabet is not in it. */
  lemma Outside(text: string, alphabet: set<char>, c: char)
    requires forall k :: 0 <= k < |text| ==> text[k] in alphabet
    requires c !in alphabet
    ensures c !in text
  {
  }

  /**
   * Only a positive amount is ever recorded, and only by the expense and income
   * routes: an expense with its trimmed, non-empty description, an income with
   * its description or the default text.
   */
  lemma RecordsArePositive(p: Patterns, text: string, today: Date)
    requires ValidDate(today)
    ensures var a := Plan(p, text, today);
            a.Record? ==>
              && a.amount > 0.0
              && (a.kind == "despesa" ==> Classify(p, text).ExpenseIntent? && a.description.Some? && a.description.value != []
                                          && a.reply == Chat.ExpenseRecorded(a.description.value, a.amount))
              && (a.kind == "receita" ==> Classify(p, text).IncomeIntent? && a.reply == Chat.IncomeRecorded(a.amount, a.description))
              && (a.kind == "despesa" || a.kind == "receita")
              && (a.kind == "receita" && p.receivedReais(text).None? ==> a.description.Some? && a.description.value != [])
  {
  }

  /**
   * With the declared expressions, `processMessage` throws on one kind of text
   * only: a chart asked for through the third chart expression
   * (`pizza de gastos`), which captures no chart type.
   */
  lemma AbortsOnlyOnUntypedChart(p: Patterns, text: string, today: Date)
    requires PatternsAsDeclared(p) && ValidDate(today)
    ensures Plan(p, text, today).Abort? <==> Classify(p, text).ChartIntent? && FirstAt(text, p.chart, 2)
  {
    ClassifyFollowsOrder(p, text);
    var c := Classify(p, text);
    if c.ChartIntent? {
      var i :| 0 <= i <= 2 && FirstAt(text, p.chart, i) by {
        var k :| 0 <= k < |p.chart| && p.chart[k](text).Some?;
        SomeMatchIsFirst(text, p.chart, k);
      }
      FindFirstMatchIsFirst(text, p.chart, i);
      ChartThrowsOnlyOnThird(p, text, i, today);
      FirstIsUnique(text, p.chart, i);
    } else if c.IncomeIntent? {
      var k :| 0 <= k < |p.income| && p.income[k](text).Some?;
      SomeMatchIsFirst(text, p.income, k);
      var i :| 0 <= i <= k && FirstAt(text, p.income, i);
      FindFirstMatchIsFirst(text, p.income, i);
      IncomeNeverThrows(p, text, i, p.receivedReais(text).Some?);
    }
  }

  /** At most one pattern is the first to match. */
  lemma FirstIsUnique(text: string, patterns: seq<Matcher>, i: int)
    requires FirstAt(text, patterns, i)
    ensures forall j :: FirstAt(text, patterns, j) ==> j == i
  {
  }

  /**
   * Both routes to `relatorio` ask for the current month's full report: the
   * analysis expressions pass no words, the report expressions pass the month
   * and the year, and the two read alike.
   */
  lemma ReportsAreCurrentMonth(p: Patterns, text: string, today: Date)
    requires ValidDate(today)
    ensures var a := Plan(p, text, today);
            a.RunRelatorio? ==>
              Reports.ReportParamsOf(a.params, today) == Reports.ReportParams(PadStart2(NatText(today.month)), IntText(today.year), "", None)
  {
    ReportWordsPlanned(p, text, today);
    ReportWordsAreCurrentMonth(today);
  }

  /** The analysis expressions pass `relatorio` no words, the report expressions the month and the year. */
  lemma ReportWordsPlanned(p: Patterns, text: string, today: Date)
    requires ValidDate(today)
    ensures var a := Plan(p, text, today);
            a.RunRelatorio? <==> Classify(p, text).AnalysisIntent? || Classify(p, text).ReportIntent?
    ensures var a := Plan(p, text, today);
            a.RunRelatorio? ==> a.params == (if Classify(p, text).AnalysisIntent? then "" else MonthYearWords(today))
  {
  }

  /**
   * A chart asked for in words always gets past `grafico`'s checks on the type
   * and the period: the answer is the chart or "no data", and "no data" for
   * every bar chart.
   */
  lemma ChartsAreCurrentMonth(p: Patterns, text: string, today: Date,
                              txs: seq<Transaction>, categories: seq<Category>, phone: string)
    requires PatternsAsDeclared(p) && ValidDate(today)
    ensures var a := Plan(p, text, today);
            a.RunGrafico? ==>
              && Split(a.params, ' ')[1..] == [NatText(today.month), IntText(today.year)]
              && (Commands.GraficoRefusal(txs, categories, phone, a.params) == None
                  || Commands.GraficoRefusal(txs, categories, phone, a.params) == Some(Chat.ChartNoData))
  {
    var c := Classify(p, text);
    if Plan(p, text, today).RunGrafico? {
      assert c.ChartIntent? && Plan(p, text, today) == ChartAction(c.chartMatch, today);
      ChartMatchTyped(p, text, today);
      ChartWordsRead(c.chartMatch, today, txs, categories, phone);
    }
  }

  /** A chart match whose group 1 is defined holds a chart type. */
  lemma ChartMatchTyped(p: Patterns, text: string, today: Date)
    requires PatternsAsDeclared(p) && ValidDate(today)
    requires Classify(p, text).ChartIntent? && Group(Classify(p, text).chartMatch, 1).Some?
    ensures ChartTyped(Classify(p, text).chartMatch)
  {
    ClassifyFollowsOrder(p, text);
    var k :| 0 <= k < |p.chart| && p.chart[k](text).Some?;
    SomeMatchIsFirst(text, p.chart, k);
    var i :| 0 <= i <= k && FirstAt(text, p.chart, i);
    FindFirstMatchIsFirst(text, p.chart, i);
    ChartThrowsOnlyOnThird(p, text, i, today);
  }

  // ---------------------------------------------------------------- processMessage

  /**
   * The messages an action leaves in the chat, going from `before` to `after`,
   * with `db` the tables as the handlers read them.
   */
  ghost predicate Answered(a: Action, before: seq<Chat.Outgoing>, after: seq<Chat.Outgoing>, m: Chat.Message, db: Db, now: Timestamp)
    requires ValidDate(now.date)
    reads db
  {
    var user := Commands.UserOf(m);
    match a
    case RunSaldo => after == before + [Chat.Outgoing(m.from, Chat.Balance(Balance(db.transactions, user)))]
    case RunRelatorio(params) =>
      && |before| <= |after| && after[..|before|] == before
      && Commands.ReportReplies(after[|before|..], m.from, Reports.ReportParamsOf(params, now.date),
                                db.transactions, db.categories, db.budgets, user, now.date)
    case RunMeta =>
      var goals := Goals.ListGoals(db.goals, db.categories, user, now);
      after == before + [Chat.Outgoing(m.from, if goals == [] then Chat.NoGoals else Chat.GoalList(goals))]
    case RunOrcamento =>
      var progress := Budget.CheckBudgetProgress(db.transactions, db.categories, db.budgets, user, now.date);
      after == before + [Chat.Outgoing(m.from, if progress == [] then Chat.NoBudgets else Chat.BudgetList(progress))]
    case RunLembrete =>
      var pending := Reminders.ListPendingReminders(db.reminders, db.categories, user, now);
      after == before + [Chat.Outgoing(m.from, if pending == [] then Chat.NoReminders else Chat.ReminderList(pending))]
    case RunGrafico(params) =>
      && |after| == |before| + 1 && after[..|before|] == before && after[|before|].to == m.from
      && Commands.GraficoAnswer(after[|before|].reply, db.transactions, db.categories, user, params)
    case Record(_, _, _, reply) => after == before + [Chat.Outgoing(m.from, reply)]
    case Answer(reply) => after == before + [Chat.Outgoing(m.from, reply)]
    case Abort => after == before
  }

  /**
   * `processMessage`: the sender is registered under `notifyName` (or
   * `Usuário`), then the lower-cased, trimmed text is classified and its
   * branch carried out. The tables other than users and transactions are left
   * as they were; a transaction is added exactly when an expense or income is
   * recorded; `settled` is false where the code throws (after registering).
   */
  method ProcessMessage(p: Patterns, db: Db, client: Chat.Client, message: Chat.Message, userPhone: string, now: Timestamp)
    returns (settled: bool)
    requires Commands.Ready(db) && ValidDate(now.date)
    modifies client, db`users, db`transactions
    ensures Commands.Ready(db)
    ensures db.users == old(db.users)[userPhone := User(SenderName(message), false, None)]
    ensures var a := Plan(p, Normalise(message.body), now.date);
            && (settled <==> !a.Abort?)
            && db.transactions == (if a.Record? then old(db.transactions) + [Transaction(userPhone, a.kind, a.amount, a.description, None, now)]
                                   else old(db.transactions))
            && db.budgets == old(db.budgets) && db.goals == old(db.goals) && db.reminders == old(db.reminders)
            && Answered(a, old(client.sent), client.sent, message, db, now)
  {
    db.RegisterUser(userPhone, SenderName(message));
    var a := Plan(p, Normalise(message.body), now.date);
    settled := Carry(db, client, message, userPhone, a, now);
  }

  /** The classified branch carried out, by a command handler or by the router itself. */
  method Carry(db: Db, client: Chat.Client, m: Chat.Message, userPhone: string, a: Action, now: Timestamp)
    returns (settled: bool)
    requires Commands.Ready(db) && ValidDate(now.date)
    modifies client, db`transactions
    ensures Commands.Ready(db)
    ensures settled <==> !a.Abort?
    ensures db.transactions == (if a.Record? then old(db.transactions) + [Transaction(userPhone, a.kind, a.amount, a.description, None, now)]
                                else old(db.transactions))
    ensures db.budgets == old(db.budgets) && db.goals == old(db.goals) && db.reminders == old(db.reminders)
    ensures Answered(a, old(client.sent), client.sent, m, db, now)
  {
    if a.Delegated() {
      Delegate(db, client, m, a, now);
      settled := true;
    } else {
      settled := Conclude(db, client, m, userPhone, a, now);
    }
  }

  /** The branches that answer by themselves: record and confirm, guide or help, or throw. */
  method Conclude(db: Db, client: Chat.Client, m: Chat.Message, userPhone: string, a: Action, now: Timestamp)
    returns (settled: bool)
    requires !a.Delegated() && ValidDate(now.date)
    modifies client, db`transactions
    ensures settled <==> !a.Abort?
    ensures db.transactions == (if a.Record? then old(db.transactions) + [Transaction(userPhone, a.kind, a.amount, a.description, None, now)]
                                else old(db.transactions))
    ensures Answered(a, old(client.sent), client.sent, m, db, now)
  {
    match a
    case Record(kind, amount, description, reply) =>
      db.AddTransaction(userPhone, kind, amount, description, None, now);
      client.SendMessage(m.from, reply);
      settled := true;
    case Answer(reply) =>
      client.SendMessage(m.from, reply);
      settled := true;
    case Abort =>
      settled := false;
  }

  /** The branches handed to a slash-command handler, with the words that branch gives it. */
  method Delegate(db: Db, client: Chat.Client, m: Chat.Message, a: Action, now: Timestamp)
    requires a.Delegated() && ValidDate(now.date)
    modifies client
    ensures Answered(a, old(client.sent), client.sent, m, db, now)
  {
    NoWords();
    match a
    case RunSaldo => Commands.Saldo(db, client, m);
    case RunRelatorio(params) => ghost var sent := Commands.Relatorio(db, client, m, params, now.date);
    case RunMeta => Commands.Meta(db, client, m, "", now);
    case RunOrcamento => Commands.Orcamento(db, client, m, "", now.date);
    case RunLembrete => Commands.Lembrete(db, client, m, "", now);
    case RunGrafico(params) => Commands.Grafico(db, client, m, params);
  }
}
