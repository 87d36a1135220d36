/**
 * The slash commands of `commands.js`: each handler reads its words, asks the
 * database and the feature modules, and sends its reply through the WhatsApp
 * client; `processCommand` resolves aliases and dispatches. Handlers that
 * change the database keep its table invariants.
 */
module Commands {
  import opened Wrappers
  import opened JsText
  import opened JsNumber
  import opened Database
  import Sorting
  import Chat
  import Charts
  import Budget
  import Categories
  import Goals
  import Reminders
  import Reports
  import Calendar

  /** `message.from.split('@')[0]`: the phone part of a chat id. */
  function UserOf(m: Chat.Message): string
  {
    Split(m.from, '@')[0]
  }

  /** The table invariants the handlers rely on and keep. */
  ghost predicate Ready(db: Db)
    reads db
  {
    db.Valid() && Budget.KeysUnique(db.budgets) && Reminders.DatesValid(db.reminders)
  }

  /** A command either goes ahead with what it read, or answers with a refusal. */
  datatype Outcome<T> = Proceed(value: T) | Refuse(reply: Chat.Reply)

  // ---------------------------------------------------------------- /ajuda, /saldo

  /** `ajuda`: the help text. */
  method Ajuda(client: Chat.Client, m: Chat.Message)
    modifies client
    ensures client.sent == old(client.sent) + [Chat.Outgoing(m.from, Chat.CommandHelp)]
  {
    client.SendMessage(m.from, Chat.CommandHelp);
  }

  /** `saldo`: the sender's balance. */
  method Saldo(db: Db, client: Chat.Client, m: Chat.Message)
    modifies client
    ensures client.sent == old(client.sent) + [Chat.Outgoing(m.from, Chat.Balance(Balance(db.transactions, UserOf(m))))]
  {
    client.SendMessage(m.from, Chat.Balance(Balance(db.transactions, UserOf(m))));
  }

  // ---------------------------------------------------------------- /relatorio

  /** Every message goes to one chat. */
  predicate AllTo(s: seq<Chat.Outgoing>, to: string)
  {
    forall k :: 0 <= k < |s| ==> s[k].to == to
  }

  /** A chart message of the month when there are rows, nothing otherwise. */
  predicate ChartMessage(s: seq<Chat.Outgoing>, kind: string, month: string, year: string, data: seq<ChartRow>)
  {
    && |s| == (if data != [] then 1 else 0)
    && (data != [] ==> s[0].reply.Chart? && s[0].reply.chart.month == month && s[0].reply.chart.year == year)
    && (data != [] && kind == "pizza" ==>
          s[0].reply.chart.body.PieBody? && Charts.PieOf(s[0].reply.chart.body.pie, Charts.PieDataOf(data)))
    && (data != [] && kind == "linha" ==> s[0].reply.chart.body == Charts.LineBody(data))
  }

  /** The budget chart message, one line per budget in the order of the percentage used, when there are budgets. */
  predicate BudgetMessage(s: seq<Chat.Outgoing>, progress: seq<BudgetProgress>)
  {
    && |s| == (if progress != [] then 1 else 0)
    && (progress != [] ==>
          && s[0].reply.BudgetChart? && |s[0].reply.bars| == |progress|
          && forall i :: 0 <= i < |progress| ==>
               Charts.DrawnAs(s[0].reply.bars[i], Sorting.SortDesc(progress, Charts.PercentKey)[i]))
  }

  /**
   * The messages after an unfiltered report, in order: the pie chart, the line
   * chart and the budget chart, each only when it has rows.
   */
  predicate ChartReplies(extra: seq<Chat.Outgoing>, to: string, month: string, year: string,
                         pie: seq<ChartRow>, line: seq<ChartRow>, progress: seq<BudgetProgress>)
  {
    var a := if pie != [] then 1 else 0;
    var b := a + (if line != [] then 1 else 0);
    && |extra| == b + (if progress != [] then 1 else 0)
    && AllTo(extra, to)
    && ChartMessage(extra[..a], "pizza", month, year, pie)
    && ChartMessage(extra[a..b], "linha", month, year, line)
    && BudgetMessage(extra[b..], progress)
  }

  /** The charts sent after an unfiltered report. */
  method SendCharts(client: Chat.Client, to: string, month: string, year: string,
                    pie: seq<ChartRow>, line: seq<ChartRow>, progress: seq<BudgetProgress>)
    returns (ghost extra: seq<Chat.Outgoing>)
    modifies client
    ensures client.sent == old(client.sent) + extra
    ensures ChartReplies(extra, to, month, year, pie, line, progress)
  {
    ghost var before := client.sent;
    var pieSent := SendChart(client, to, "pizza", pie, month, year);
    var lineSent := SendChart(client, to, "linha", line, month, year);
    var budgetSent := SendBudgetChart(client, to, progress);
    extra := pieSent + lineSent + budgetSent;
    assert before + pieSent + lineSent + budgetSent == before + extra;
    ChartsInOrder(pieSent, lineSent, budgetSent, to, month, year, pie, line, progress);
  }

  /** The three chart sends, one after the other, make up the replies after a report. */
  lemma ChartsInOrder(pieSent: seq<Chat.Outgoing>, lineSent: seq<Chat.Outgoing>, budgetSent: seq<Chat.Outgoing>, to: string,
                      month: string, year: string, pie: seq<ChartRow>, line: seq<ChartRow>, progress: seq<BudgetProgress>)
    requires AllTo(pieSent, to) && ChartMessage(pieSent, "pizza", month, year, pie)
    requires AllTo(lineSent, to) && ChartMessage(lineSent, "linha", month, year, line)
    requires AllTo(budgetSent, to) && BudgetMessage(budgetSent, progress)
    ensures ChartReplies(pieSent + lineSent + budgetSent, to, month, year, pie, line, progress)
  {
    var extra := pieSent + lineSent + budgetSent;
    assert extra[..|pieSent|] == pieSent;
    assert extra[|pieSent|..|pieSent| + |lineSent|] == lineSent;
    assert extra[|pieSent| + |lineSent|..] == budgetSent;
    AllToJoin(pieSent, lineSent, to);
    AllToJoin(pieSent + lineSent, budgetSent, to);
  }

  lemma AllToJoin(s: seq<Chat.Outgoing>, t: seq<Chat.Outgoing>, to: string)
    requires AllTo(s, to) && AllTo(t, to)
    ensures AllTo(s + t, to)
  {
    forall k | 0 <= k < |s + t| ensures (s + t)[k].to == to {
      if k >= |s| {
        assert (s + t)[k] == t[k - |s|];
      }
    }
  }

  /** One chart message when there are rows, none otherwise. */
  method SendChart(client: Chat.Client, to: string, kind: string, data: seq<ChartRow>, month: string, year: string)
    returns (ghost sent: seq<Chat.Outgoing>)
    modifies client
    ensures client.sent == old(client.sent) + sent
    ensures AllTo(sent, to) && ChartMessage(sent, kind, month, year, data)
  {
    sent := [];
    if |data| > 0 {
      var c := Charts.GenerateTextChart(kind, data, month, year);
      client.SendMessage(to, Chat.Chart(c));
      sent := [Chat.Outgoing(to, Chat.Chart(c))];
    }
  }

  /** The budget chart message when there are budgets, none otherwise. */
  method SendBudgetChart(client: Chat.Client, to: string, progress: seq<BudgetProgress>) returns (ghost sent: seq<Chat.Outgoing>)
    modifies client
    ensures client.sent == old(client.sent) + sent
    ensures AllTo(sent, to) && BudgetMessage(sent, progress)
  {
    sent := [];
    if |progress| > 0 {
      var a := new BudgetProgress[|progress|](i requires 0 <= i < |progress| => progress[i]);
      assert a[..] == progress;
      var chart := Charts.GenerateBudgetChart(a);
      client.SendMessage(to, Chat.BudgetChart(chart.value));
      sent := [Chat.Outgoing(to, Chat.BudgetChart(chart.value))];
    }
  }

  /**
   * The messages of a readable `relatorio`: the report, then, when it is not
   * filtered, the charts of the month and of the budgets.
   */
  predicate ReportMessages(sent: seq<Chat.Outgoing>, to: string, p: Reports.ReportParams, report: Chat.Report,
                           pie: seq<ChartRow>, line: seq<ChartRow>, progress: seq<BudgetProgress>)
  {
    && |sent| >= 1
    && sent[0] == Chat.Outgoing(to, Chat.ReportText(report))
    && (p.filter != "" ==> |sent| == 1)
    && (p.filter == "" ==> ChartReplies(sent[1..], to, p.month, p.year, pie, line, progress))
  }

  /**
   * What `relatorio` sends for the words read into `p`: a refusal when the
   * month or the year is not a number; otherwise the month's report, filtered
   * as asked, and after an unfiltered report the charts.
   */
  ghost predicate ReportReplies(sent: seq<Chat.Outgoing>, to: string, p: Reports.ReportParams, txs: seq<Transaction>,
                                categories: seq<Category>, budgets: seq<Database.Budget>, user: string, today: Date)
  {
    if !Reports.Readable(p.month, p.year) then sent == [Chat.Outgoing(to, Chat.ReportBadPeriod)]
    else
      ReportMessages(sent, to, p,
        Reports.BuildReport(p, GetTransactions(txs, categories, user, p.month, p.year), Balance(txs, user)),
        GetChartData(txs, categories, user, p.month, p.year, "pizza"),
        GetChartData(txs, categories, user, p.month, p.year, "linha"),
        Budget.CheckBudgetProgress(txs, categories, budgets, user, today))
  }

  /** `relatorio [mes] [ano] [filtro] [categoria]`. */
  method Relatorio(db: Db, client: Chat.Client, m: Chat.Message, params: string, today: Date) returns (ghost sent: seq<Chat.Outgoing>)
    requires ValidDate(today)
    modifies client
    ensures client.sent == old(client.sent) + sent
    ensures ReportReplies(sent, m.from, Reports.ReportParamsOf(params, today), db.transactions, db.categories, db.budgets, UserOf(m), today)
  {
    var p := Reports.ReportParamsOf(params, today);
    if !Reports.Readable(p.month, p.year) {
      client.SendMessage(m.from, Chat.ReportBadPeriod);
      return [Chat.Outgoing(m.from, Chat.ReportBadPeriod)];
    }
    var user := UserOf(m);
    var report := MonthReport(db.transactions, db.categories, user, p);
    sent := ReportFor(client, m.from, p, report,
      GetChartData(db.transactions, db.categories, user, p.month, p.year, "pizza"),
      GetChartData(db.transactions, db.categories, user, p.month, p.year, "linha"),
      Budget.CheckBudgetProgress(db.transactions, db.categories, db.budgets, user, today));
  }

  /** The sending steps of a readable `relatorio`. */
  method ReportFor(client: Chat.Client, to: string, p: Reports.ReportParams, report: Chat.Report,
                   pie: seq<ChartRow>, line: seq<ChartRow>, progress: seq<BudgetProgress>)
    returns (ghost sent: seq<Chat.Outgoing>)
    modifies client
    ensures client.sent == old(client.sent) + sent
    ensures ReportMessages(sent, to, p, report, pie, line, progress)
  {
    client.SendMessage(to, Chat.ReportText(report));
    sent := [Chat.Outgoing(to, Chat.ReportText(report))];
    if p.filter == "" {
      ghost var extra := SendCharts(client, to, p.month, p.year, pie, line, progress);
      sent := sent + extra;
      assert sent[1..] == extra;
    }
  }

  /** The report `relatorio` sends: the month's rows and the current balance, read from the tables. */
  method MonthReport(txs: seq<Transaction>, categories: seq<Category>, user: string, p: Reports.ReportParams) returns (report: Chat.Report)
    ensures report == Reports.BuildReport(p, GetTransactions(txs, categories, user, p.month, p.year), Balance(txs, user))
  {
    var rows := GetTransactions(txs, categories, user, p.month, p.year);
    report := Reports.MakeReport(p, rows, Balance(txs, user));
  }

  // ---------------------------------------------------------------- /comparar

  /** The reply of `comparar`: usage with fewer than four words, else the reply for the two periods named. */
  function CompararReply(txs: seq<Transaction>, categories: seq<Category>, phone: string, params: string): Chat.Reply
  {
    var parts := Split(params, ' ');
    if |parts| < 4 then Chat.CompareUsage
    else PeriodsReply(txs, categories, phone, PadStart2(parts[0]), parts[1], PadStart2(parts[2]), parts[3])
  }

  /** A refusal for a non-numeric period, else the comparison of the two months. */
  function PeriodsReply(txs: seq<Transaction>, categories: seq<Category>, phone: string, m1: string, y1: string, m2: string, y2: string): Chat.Reply
  {
    if !(Reports.Readable(m1, y1) && Reports.Readable(m2, y2)) then Chat.CompareBadPeriod
    else
      Chat.ComparisonText(Reports.Compare(m1, y1, m2, y2,
        GetTransactions(txs, categories, phone, m1, y1), GetTransactions(txs, categories, phone, m2, y2)))
  }

  /** `comparar [mes1] [ano1] [mes2] [ano2]`. */
  method Comparar(db: Db, client: Chat.Client, m: Chat.Message, params: string)
    modifies client
    ensures client.sent == old(client.sent) + [Chat.Outgoing(m.from, CompararReply(db.transactions, db.categories, UserOf(m), params))]
  {
    var reply := CompararAnswer(db.transactions, db.categories, UserOf(m), params);
    client.SendMessage(m.from, reply);
  }

  /** The steps of `comparar`: read the words, check the period, fetch both months, compare. */
  method CompararAnswer(txs: seq<Transaction>, categories: seq<Category>, user: string, params: string) returns (reply: Chat.Reply)
    ensures reply == CompararReply(txs, categories, user, params)
  {
    var parts := Split(params, ' ');
    if |parts| < 4 {
      return Chat.CompareUsage;
    }
    reply := PeriodsAnswer(txs, categories, user, PadStart2(parts[0]), parts[1], PadStart2(parts[2]), parts[3]);
  }

  /** The period check of `comparar`, then the comparison. */
  method PeriodsAnswer(txs: seq<Transaction>, categories: seq<Category>, user: string, m1: string, y1: string, m2: string, y2: string)
    returns (reply: Chat.Reply)
    ensures reply == PeriodsReply(txs, categories, user, m1, y1, m2, y2)
  {
    if !(Reports.Readable(m1, y1) && Reports.Readable(m2, y2)) {
      return Chat.CompareBadPeriod;
    }
    var comparison := CompareFetched(txs, categories, user, m1, y1, m2, y2);
    reply := Chat.ComparisonText(comparison);
  }

  /** Both months fetched from the table, then compared. */
  method CompareFetched(txs: seq<Transaction>, categories: seq<Category>, user: string, m1: string, y1: string, m2: string, y2: string)
    returns (comparison: Chat.Comparison)
    ensures comparison == Reports.Compare(m1, y1, m2, y2,
              GetTransactions(txs, categories, user, m1, y1), GetTransactions(txs, categories, user, m2, y2))
  {
    var rows1 := GetTransactions(txs, categories, user, m1, y1);
    var rows2 := GetTransactions(txs, categories, user, m2, y2);
    comparison := Reports.CompareMonths(m1, y1, m2, y2, rows1, rows2);
  }

  // ---------------------------------------------------------------- /media

  /** The reply of `media`: a count of months from 1 to 12, else a refusal. */
  function MediaReply(txs: seq<Transaction>, categories: seq<Category>, phone: string, params: string, today: Date): Chat.Reply
    requires ValidDate(today)
  {
    var n := ParseInt(Split(params, ' ')[0]);
    if n.None? || n.value < 1 || n.value > 12 then Chat.AverageBadCount
    else
      Chat.AveragesText(Reports.AveragesOf(Reports.Flatten(Reports.MonthsRows(txs, categories, phone, today, n.value)), n.value))
  }

  /** `media [meses]`: the monthly averages over the current month and the ones before it. */
  method Media(db: Db, client: Chat.Client, m: Chat.Message, params: string, today: Date)
    requires ValidDate(today)
    modifies client
    ensures client.sent == old(client.sent) + [Chat.Outgoing(m.from, MediaReply(db.transactions, db.categories, UserOf(m), params, today))]
  {
    var reply := MediaAnswer(db.transactions, db.categories, UserOf(m), params, today);
    client.SendMessage(m.from, reply);
  }

  /** The steps of `media`: read the count, collect the months one at a time, average them. */
  method MediaAnswer(txs: seq<Transaction>, categories: seq<Category>, user: string, params: string, today: Date) returns (reply: Chat.Reply)
    requires ValidDate(today)
    ensures reply == MediaReply(txs, categories, user, params, today)
  {
    var count := ParseInt(Split(params, ' ')[0]);
    if count.None? || count.value < 1 || count.value > 12 {
      return Chat.AverageBadCount;
    }
    var n: nat := count.value;
    var months := Reports.CollectMonths(txs, categories, user, today, n);
    var averages := Reports.AveragesOfMonths(months, n);
    reply := Chat.AveragesText(averages);
  }

  /** The refusal `grafico` answers with, if any; a bar chart is never drawn, since no bar data is ever selected. */
  function GraficoRefusal(txs: seq<Transaction>, categories: seq<Category>, phone: string, params: string): (r: Option<Chat.Reply>)
    ensures |Split(params, ' ')| >= 3 && Lower(Split(params, ' ')[0]) == "barra" ==> r.Some?
    ensures r.None? ==> var parts := Split(params, ' ');
                        |parts| >= 3 && (Lower(parts[0]) == "pizza" || Lower(parts[0]) == "linha")
                        && GetChartData(txs, categories, phone, parts[1], parts[2], Lower(parts[0])) != []
  {
    var parts := Split(params, ' ');
    if |parts| < 3 then Some(Chat.ChartUsage)
    else
      var kind := Lower(parts[0]);
      if kind != "pizza" && kind != "linha" && kind != "barra" then Some(Chat.ChartBadType)
      else if !Reports.Readable(parts[1], parts[2]) then Some(Chat.ChartBadPeriod)
      else if GetChartData(txs, categories, phone, parts[1], parts[2], kind) == [] then Some(Chat.ChartNoData)
      else None
  }

  /**
   * What `grafico` may answer: the refusal when there is one; otherwise a chart
   * of the requested month and year, the pie chart of the month's pie rows for
   * `pizza` and the line chart of the month's rows for `linha`.
   */
  predicate GraficoAnswer(reply: Chat.Reply, txs: seq<Transaction>, categories: seq<Category>, phone: string, params: string)
  {
    var refusal := GraficoRefusal(txs, categories, phone, params);
    var parts := Split(params, ' ');
    if refusal.Some? then reply == refusal.value
    else
      && reply.Chart? && reply.chart.month == parts[1] && reply.chart.year == parts[2]
      && (Lower(parts[0]) == "pizza" ==>
            reply.chart.body.PieBody?
            && Charts.PieOf(reply.chart.body.pie, Charts.PieDataOf(GetChartData(txs, categories, phone, parts[1], parts[2], "pizza"))))
      && (Lower(parts[0]) == "linha" ==> reply.chart.body == Charts.LineBody(GetChartData(txs, categories, phone, parts[1], parts[2], "linha")))
  }

  /** `grafico [tipo] [mes] [ano]`: one message, a refusal or the chart of the month's rows. */
  method Grafico(db: Db, client: Chat.Client, m: Chat.Message, params: string)
    modifies client
    ensures |client.sent| == |old(client.sent)| + 1 && client.sent[..|old(client.sent)|] == old(client.sent)
    ensures client.sent[|old(client.sent)|].to == m.from
    ensures GraficoAnswer(client.sent[|old(client.sent)|].reply, db.transactions, db.categories, UserOf(m), params)
  {
    var parts := Split(params, ' ');
    if |parts| < 3 {
      client.SendMessage(m.from, Chat.ChartUsage);
      return;
    }
    var kind := Lower(parts[0]);
    var month, year := parts[1], parts[2];
    if kind != "pizza" && kind != "linha" && kind != "barra" {
      client.SendMessage(m.from, Chat.ChartBadType);
      return;
    }
    if !Reports.Readable(month, year) {
      client.SendMessage(m.from, Chat.ChartBadPeriod);
      return;
    }
    var data := GetChartData(db.transactions, db.categories, UserOf(m), month, year, kind);
    if data == [] {
      client.SendMessage(m.from, Chat.ChartNoData);
      return;
    }
    var chart := Charts.GenerateTextChart(kind, data, month, year);
    client.SendMessage(m.from, Chat.Chart(chart));
  }

  // ---------------------------------------------------------------- /categorias

  /** The names of the categories of one type, in order. */
  function Names(cs: seq<Category>, kind: string): (r: seq<string>)
    ensures forall n :: n in r <==> exists c :: c in cs && c.kind == kind && c.name == n
  {
    if cs == [] then []
    else
      assert forall c :: c in cs <==> c == cs[0] || c in cs[1..];
      (if cs[0].kind == kind then [cs[0].name] else []) + Names(cs[1..], kind)
  }

  /** The reply of `categorias`: the names of the user's income categories, then of the expense ones. */
  function CategoriasReply(categories: seq<Category>, phone: string): Chat.Reply
  {
    var all := Categories.ListCategories(categories, phone, None);
    Chat.CategoryList(Names(all, "receita"), Names(all, "despesa"))
  }

  /** `categorias`: the user's income categories and expense categories. */
  method Categorias(db: Db, client: Chat.Client, m: Chat.Message)
    modifies client
    ensures client.sent == old(client.sent) + [Chat.Outgoing(m.from, CategoriasReply(db.categories, UserOf(m)))]
  {
    var all := Categories.ListCategories(db.categories, UserOf(m), None);
    client.SendMessage(m.from, Chat.CategoryList(Names(all, "receita"), Names(all, "despesa")));
  }

  /** The category list names exactly the user's own categories of each type. */
  lemma CategoriasListsOwn(categories: seq<Category>, phone: string, kind: string, n: string)
    ensures n in Names(Categories.ListCategories(categories, phone, None), kind)
            <==> exists c :: c in categories && c.userPhone == phone && c.kind == kind && c.name == n
  {
    var all := Categories.ListCategories(categories, phone, None);
    forall c ensures c in all <==> c in categories && c.userPhone == phone {
      Categories.ListCategoriesSelects(categories, phone, None, c);
    }
  }

  // ---------------------------------------------------------------- /orcamento

  /** `find(c => c.name.toLowerCase() === name.toLowerCase())`: the first category with the name, ignoring case. */
  function FindByName(cs: seq<Category>, name: string): (r: Option<nat>)
    ensures r.Some? ==> r.value < |cs| && Lower(cs[r.value].name) == Lower(name)
                        && forall k :: 0 <= k < r.value ==> Lower(cs[k].name) != Lower(name)
    ensures r.None? ==> forall k :: 0 <= k < |cs| ==> Lower(cs[k].name) != Lower(name)
  {
    if cs == [] then None
    else if Lower(cs[0].name) == Lower(name) then Some(0)
    else match FindByName(cs[1..], name)
      case None => None
      case Some(k) => Some(k + 1)
  }

  /**
   * What `orcamento [categoria] [valor]` asks for: the amount must be a number
   * and the category one of the user's own, whatever its case; the amount is
   * read before the category is looked up.
   */
  function BudgetRequest(categories: seq<Category>, phone: string, parts: seq<string>): (r: Outcome<(Category, real)>)
    requires |parts| >= 2
    ensures r == Refuse(Chat.BadAmount) <==> ParseAmount(parts[1]).None?
    ensures r == Refuse(Chat.CategoryNotFound) <==>
              ParseAmount(parts[1]).Some? && forall c :: c in categories && c.userPhone == phone ==> Lower(c.name) != Lower(parts[0])
    ensures r.Proceed? ==> r.value.0 in categories && r.value.0.userPhone == phone
                           && Lower(r.value.0.name) == Lower(parts[0]) && ParseAmount(parts[1]) == Some(r.value.1)
  {
    var list := Categories.ListCategories(categories, phone, None);
    forall c ensures c in list <==> c in categories && c.userPhone == phone {
      Categories.ListCategoriesSelects(categories, phone, None, c);
    }
    match ParseAmount(parts[1])
    case None => Refuse(Chat.BadAmount)
    case Some(amount) =>
      match FindByName(list, parts[0])
      case None => Refuse(Chat.CategoryNotFound)
      case Some(k) => Proceed((list[k], amount))
  }

  /**
   * The one reply of `orcamento`: the budget listing (or "no budgets") for
   * fewer than two words, a refusal as it is, and for a valid request the
   * catch's error reply, since `setBudget` rejects.
   */
  function OrcamentoReply(txs: seq<Transaction>, categories: seq<Category>, budgets: seq<Database.Budget>,
                          phone: string, params: string, today: Date): Chat.Reply
  {
    var parts := Split(params, ' ');
    if |parts| < 2 then
      var progress := Budget.CheckBudgetProgress(txs, categories, budgets, phone, today);
      if progress == [] then Chat.NoBudgets else Chat.BudgetList(progress)
    else
      match BudgetRequest(categories, phone, parts)
      case Refuse(reply) => reply
      case Proceed(_) => Chat.BudgetNotSet
  }

  /**
   * `orcamento`: with fewer than two words, the budget listing; otherwise the
   * request is read and, once it is valid, `setBudget` is awaited. As written
   * that call always rejects, so the catch answers "Ocorreu um erro ao definir
   * o orçamento." and the budgets stay as they were.
   */
  method Orcamento(db: Db, client: Chat.Client, m: Chat.Message, params: string, today: Date)
    modifies client
    ensures client.sent == old(client.sent) + [Chat.Outgoing(m.from, OrcamentoReply(db.transactions, db.categories, db.budgets, UserOf(m), params, today))]
  {
    var parts := Split(params, ' ');
    var user := UserOf(m);
    if |parts| < 2 {
      var progress := Budget.CheckBudgetProgress(db.transactions, db.categories, db.budgets, user, today);
      client.SendMessage(m.from, if |progress| == 0 then Chat.NoBudgets else Chat.BudgetList(progress));
      return;
    }
    SetRequestedBudget(db, client, m.from, user, BudgetRequest(db.categories, user, parts));
  }

  /** The second half of `orcamento` as written: the refusal, or the rejected `setBudget` and the catch's reply. */
  method SetRequestedBudget(db: Db, client: Chat.Client, to: string, user: string, request: Outcome<(Category, real)>)
    modifies client
    ensures request.Refuse? ==> client.sent == old(client.sent) + [Chat.Outgoing(to, request.reply)]
    ensures request.Proceed? ==> client.sent == old(client.sent) + [Chat.Outgoing(to, Chat.BudgetNotSet)]
  {
    match request
    case Refuse(reply) =>
      client.SendMessage(to, reply);
    case Proceed((c, amount)) =>
      var r := Budget.SetBudget(db, user, c.id, amount);
      assert r.NotAFunction?;
      client.SendMessage(to, Chat.BudgetNotSet);
  }

  /** The second half of `orcamento` with a working `setBudget`: the refusal, or the budget upserted and confirmed. */
  method SetRequestedBudgetConnected(db: Db, client: Chat.Client, to: string, user: string, request: Outcome<(Category, real)>)
    requires Ready(db)
    modifies client, db`budgets, db`nextBudgetId
    ensures Ready(db)
    ensures request.Refuse? ==> db.budgets == old(db.budgets) && client.sent == old(client.sent) + [Chat.Outgoing(to, request.reply)]
    ensures request.Proceed? ==>
              var (c, amount) := request.value;
              && db.budgets == Budget.Upsert(old(db.budgets), old(db.nextBudgetId), user, c.id, amount, "monthly").0
              && client.sent == old(client.sent) + [Chat.Outgoing(to, Chat.BudgetSet(c.name, amount))]
  {
    match request
    case Refuse(reply) =>
      client.SendMessage(to, reply);
    case Proceed((c, amount)) =>
      Budget.UpsertSpec(db.budgets, db.nextBudgetId, user, c.id, amount, "monthly");
      var _ := Budget.SetBudgetConnected(db, user, c.id, amount);
      client.SendMessage(to, Chat.BudgetSet(c.name, amount));
  }

  // ---------------------------------------------------------------- /meta

  /**
   * What `meta [valor] [descrição] [data]` asks for: the amount is the first
   * word, the date the last, and the words between joined by `_` make the
   * description; the amount is checked before the date.
   */
  function GoalRequest(parts: seq<string>): (r: Outcome<(string, real, Date)>)
    requires |parts| >= 3
    ensures r == Refuse(Chat.BadAmount) <==> ParseAmount(parts[0]).None?
    ensures r == Refuse(Chat.BadGoalDate) <==> ParseAmount(parts[0]).Some? && Calendar.ParseDate(parts[|parts| - 1]).None?
    ensures r.Proceed? ==> r.value.0 == Join(parts[1..|parts| - 1], '_') && ValidDate(r.value.2)
                           && Some(r.value.1) == ParseAmount(parts[0]) && Some(r.value.2) == Calendar.ParseDate(parts[|parts| - 1])
  {
    match ParseAmount(parts[0])
    case None => Refuse(Chat.BadAmount)
    case Some(amount) =>
      match Calendar.ParseDate(parts[|parts| - 1])
      case None => Refuse(Chat.BadGoalDate)
      case Some(date) => Proceed((Join(parts[1..|parts| - 1], '_'), amount, date))
  }

  /**
   * Words typed with spaces are read back: the goal is stored under the
   * description words joined by `_`, and the confirmation shows them joined by
   * spaces again.
   */
  lemma MetaReadsWords(amountWord: string, words: seq<string>, dateWord: string, amount: real, date: Date)
    requires |words| >= 1 && ' ' !in amountWord && ' ' !in dateWord
    requires forall k :: 0 <= k < |words| ==> ' ' !in words[k] && '_' !in words[k]
    requires ParseAmount(amountWord) == Some(amount) && Calendar.ParseDate(dateWord) == Some(date)
    ensures var parts := Split(Join([amountWord] + words + [dateWord], ' '), ' ');
            |parts| >= 3 && GoalRequest(parts) == Proceed((Join(words, '_'), amount, date))
    ensures ReplaceAll(Join(words, '_'), '_', ' ') == Join(words, ' ')
  {
    SpaceFree([amountWord], words);
    SpaceFree([amountWord] + words, [dateWord]);
    SplitJoin([amountWord] + words + [dateWord], ' ');
    GoalRequestOfWords(amountWord, words, dateWord, amount, date);
    UnderscoresShownAsSpaces(words);
  }

  /** Two runs of words without spaces make one. */
  lemma SpaceFree(a: seq<string>, b: seq<string>)
    requires forall k :: 0 <= k < |a| ==> ' ' !in a[k]
    requires forall k :: 0 <= k < |b| ==> ' ' !in b[k]
    ensures forall k :: 0 <= k < |a + b| ==> ' ' !in (a + b)[k]
  {
    forall k | 0 <= k < |a + b|
      ensures ' ' !in (a + b)[k]
    {
      if k >= |a| {
        assert (a + b)[k] == b[k - |a|];
      }
    }
  }

  lemma GoalRequestOfWords(amountWord: string, words: seq<string>, dateWord: string, amount: real, date: Date)
    requires |words| >= 1
    requires ParseAmount(amountWord) == Some(amount) && Calendar.ParseDate(dateWord) == Some(date)
    ensures GoalRequest([amountWord] + words + [dateWord]) == Proceed((Join(words, '_'), amount, date))
  {
    var all := [amountWord] + words + [dateWord];
    assert all[0] == amountWord && all[|all| - 1] == dateWord;
    assert all[1..|all| - 1] == words;
  }

  /** Words joined by `_` and shown with every `_` as a space read as the words joined by spaces. */
  lemma UnderscoresShownAsSpaces(words: seq<string>)
    requires |words| >= 1 && forall k :: 0 <= k < |words| ==> '_' !in words[k]
    ensures ReplaceAll(Join(words, '_'), '_', ' ') == Join(words, ' ')
  {
    SplitJoin(words, '_');
    SplitJoinReplaces(Join(words, '_'), '_', ' ');
  }

  /**
   * The one reply of `meta`: the open goals (or "no goals") for fewer than
   * three words, a refusal as it is, and for a valid request the catch's error
   * reply, since `createGoal` rejects.
   */
  function MetaReply(goals: seq<Goal>, categories: seq<Category>, phone: string, params: string, now: Timestamp): Chat.Reply
  {
    var parts := Split(params, ' ');
    if |parts| < 3 then
      var listed := Goals.ListGoals(goals, categories, phone, now);
      if listed == [] then Chat.NoGoals else Chat.GoalList(listed)
    else
      match GoalRequest(parts)
      case Refuse(reply) => reply
      case Proceed(_) => Chat.GoalNotCreated
  }

  /**
   * `meta`: with fewer than three words, the open goals; otherwise the request
   * is read and, once it is valid, `createGoal` is awaited. As written that
   * call always rejects, so the catch answers "Ocorreu um erro ao criar a
   * meta." and no goal is stored.
   */
  method Meta(db: Db, client: Chat.Client, m: Chat.Message, params: string, now: Timestamp)
    modifies client
    ensures client.sent == old(client.sent) + [Chat.Outgoing(m.from, MetaReply(db.goals, db.categories, UserOf(m), params, now))]
  {
    var parts := Split(params, ' ');
    var user := UserOf(m);
    if |parts| < 3 {
      var goals := Goals.ListGoals(db.goals, db.categories, user, now);
      client.SendMessage(m.from, if |goals| == 0 then Chat.NoGoals else Chat.GoalList(goals));
      return;
    }
    CreateRequestedGoal(db, client, m.from, user, GoalRequest(parts));
  }

  /** The second half of `meta` as written: the refusal, or the rejected `createGoal` and the catch's reply. */
  method CreateRequestedGoal(db: Db, client: Chat.Client, to: string, user: string, request: Outcome<(string, real, Date)>)
    modifies client
    ensures request.Refuse? ==> client.sent == old(client.sent) + [Chat.Outgoing(to, request.reply)]
    ensures request.Proceed? ==> client.sent == old(client.sent) + [Chat.Outgoing(to, Chat.GoalNotCreated)]
  {
    match request
    case Refuse(reply) =>
      client.SendMessage(to, reply);
    case Proceed((description, amount, date)) =>
      var r := Goals.CreateGoal(db, user, description, amount, date);
      assert r.NotAFunction?;
      client.SendMessage(to, Chat.GoalNotCreated);
  }

  /** The second half of `meta` with a working `createGoal`: the refusal, or the goal created and confirmed. */
  method CreateRequestedGoalConnected(db: Db, client: Chat.Client, to: string, user: string, request: Outcome<(string, real, Date)>)
    requires Ready(db)
    modifies client, db`goals, db`nextGoalId
    ensures Ready(db)
    ensures request.Refuse? ==> db.goals == old(db.goals) && client.sent == old(client.sent) + [Chat.Outgoing(to, request.reply)]
    ensures request.Proceed? ==>
              var (description, amount, date) := request.value;
              && db.goals == old(db.goals) + [Goal(old(db.nextGoalId), user, description, amount, 0.0, date, None, false)]
              && client.sent == old(client.sent) + [Chat.Outgoing(to, Chat.GoalCreated(ReplaceAll(description, '_', ' '), amount, date))]
  {
    match request
    case Refuse(reply) =>
      client.SendMessage(to, reply);
    case Proceed((description, amount, date)) =>
      var _ := Goals.CreateGoalConnected(db, user, description, amount, date);
      client.SendMessage(to, Chat.GoalCreated(ReplaceAll(description, '_', ' '), amount, date));
  }

  // ---------------------------------------------------------------- /lembrete, /concluir

  /**
   * What `lembrete [descrição] [data] [valor]` asks for: the amount is the last
   * word, the date the one before, and the words before them joined by `_`,
   * with every `_` then shown as a space, make the description; the amount is
   * checked before the date.
   */
  function ReminderRequest(parts: seq<string>): (r: Outcome<(string, Date, real)>)
    requires |parts| >= 3
    ensures r == Refuse(Chat.BadAmount) <==> ParseAmount(parts[|parts| - 1]).None?
    ensures r == Refuse(Chat.BadReminderDate) <==> ParseAmount(parts[|parts| - 1]).Some? && Calendar.ParseDate(parts[|parts| - 2]).None?
    ensures r.Proceed? ==> '_' !in r.value.0 && ValidDate(r.value.1)
                           && Some(r.value.1) == Calendar.ParseDate(parts[|parts| - 2]) && Some(r.value.2) == ParseAmount(parts[|parts| - 1])
  {
    match ParseAmount(parts[|parts| - 1])
    case None => Refuse(Chat.BadAmount)
    case Some(amount) =>
      match Calendar.ParseDate(parts[|parts| - 2])
      case None => Refuse(Chat.BadReminderDate)
      case Some(date) => Proceed((ReplaceAll(Join(parts[..|parts| - 2], '_'), '_', ' '), date, amount))
  }

  /** The description words, typed with spaces, are stored joined by spaces. */
  lemma LembreteReadsWords(words: seq<string>, dateWord: string, amountWord: string, date: Date, amount: real)
    requires |words| >= 1 && ' ' !in amountWord && ' ' !in dateWord
    requires forall k :: 0 <= k < |words| ==> ' ' !in words[k] && '_' !in words[k]
    requires ParseAmount(amountWord) == Some(amount) && Calendar.ParseDate(dateWord) == Some(date)
    ensures var parts := Split(Join(words + [dateWord, amountWord], ' '), ' ');
            |parts| >= 3 && ReminderRequest(parts) == Proceed((Join(words, ' '), date, amount))
  {
    SpaceFree(words, [dateWord, amountWord]);
    SplitJoin(words + [dateWord, amountWord], ' ');
    ReminderRequestOfWords(words, dateWord, amountWord, date, amount);
    UnderscoresShownAsSpaces(words);
  }

  lemma ReminderRequestOfWords(words: seq<string>, dateWord: string, amountWord: string, date: Date, amount: real)
    requires |words| >= 1
    requires ParseAmount(amountWord) == Some(amount) && Calendar.ParseDate(dateWord) == Some(date)
    ensures ReminderRequest(words + [dateWord, amountWord]) == Proceed((ReplaceAll(Join(words, '_'), '_', ' '), date, amount))
  {
    LastTwo(words, dateWord, amountWord);
  }

  lemma LastTwo<T>(s: seq<T>, a: T, b: T)
    ensures var all := s + [a, b];
            all[|all| - 1] == b && all[|all| - 2] == a && all[..|all| - 2] == s
  {
  }

  /**
   * The one reply of `lembrete`: the pending reminders (or "none") for fewer
   * than three words, a refusal as it is, and for a valid request the catch's
   * error reply, since `createReminder` rejects.
   */
  function LembreteReply(reminders: seq<Reminder>, categories: seq<Category>, phone: string, params: string, now: Timestamp): Chat.Reply
    requires ValidDate(now.date)
  {
    var parts := Split(params, ' ');
    if |parts| < 3 then
      var pending := Reminders.ListPendingReminders(reminders, categories, phone, now);
      if pending == [] then Chat.NoReminders else Chat.ReminderList(pending)
    else
      match ReminderRequest(parts)
      case Refuse(reply) => reply
      case Proceed(_) => Chat.ReminderNotCreated
  }

  /**
   * `lembrete`: with fewer than three words, the pending reminders; otherwise
   * the request is read and, once it is valid, `createReminder` is awaited. As
   * written that call always rejects, so the catch answers "Ocorreu um erro ao
   * criar o lembrete." and no reminder is stored.
   */
  method Lembrete(db: Db, client: Chat.Client, m: Chat.Message, params: string, now: Timestamp)
    requires ValidDate(now.date)
    modifies client
    ensures client.sent == old(client.sent) + [Chat.Outgoing(m.from, LembreteReply(db.reminders, db.categories, UserOf(m), params, now))]
  {
    var parts := Split(params, ' ');
    var user := UserOf(m);
    if |parts| < 3 {
      var pending := Reminders.ListPendingReminders(db.reminders, db.categories, user, now);
      client.SendMessage(m.from, if |pending| == 0 then Chat.NoReminders else Chat.ReminderList(pending));
      return;
    }
    CreateRequestedReminder(db, client, m.from, user, ReminderRequest(parts));
  }

  /** The second half of `lembrete` as written: the refusal, or the rejected `createReminder` and the catch's reply. */
  method CreateRequestedReminder(db: Db, client: Chat.Client, to: string, user: string, request: Outcome<(string, Date, real)>)
    modifies client
    ensures request.Refuse? ==> client.sent == old(client.sent) + [Chat.Outgoing(to, request.reply)]
    ensures request.Proceed? ==> client.sent == old(client.sent) + [Chat.Outgoing(to, Chat.ReminderNotCreated)]
  {
    match request
    case Refuse(reply) =>
      client.SendMessage(to, reply);
    case Proceed((description, date, amount)) =>
      var r := Reminders.CreateReminder(db, user, description, date, amount);
      assert r.NotAFunction?;
      client.SendMessage(to, Chat.ReminderNotCreated);
  }

  /** The second half of `lembrete` with a working `createReminder`: the refusal, or the reminder created and confirmed. */
  method CreateRequestedReminderConnected(db: Db, client: Chat.Client, to: string, user: string, request: Outcome<(string, Date, real)>)
    requires Ready(db)
    requires request.Proceed? ==> ValidDate(request.value.1)
    modifies client, db`reminders, db`nextReminderId
    ensures Ready(db)
    ensures request.Refuse? ==> db.reminders == old(db.reminders) && client.sent == old(client.sent) + [Chat.Outgoing(to, request.reply)]
    ensures request.Proceed? ==>
              var (description, date, amount) := request.value;
              && db.reminders == old(db.reminders) + [Reminder(old(db.nextReminderId), user, description, amount, date, None, false, None, false)]
              && client.sent == old(client.sent) + [Chat.Outgoing(to, Chat.ReminderCreated(description, date, amount))]
  {
    match request
    case Refuse(reply) =>
      client.SendMessage(to, reply);
    case Proceed((description, date, amount)) =>
      var _ := Reminders.CreateReminderConnected(db, user, description, date, amount);
      client.SendMessage(to, Chat.ReminderCreated(description, date, amount));
  }

  /**
   * Which pending reminder `concluir [número]` picks: the number counts from 1
   * in the listing the user was shown; a missing or out-of-range number is refused.
   */
  function ReminderPick(reminders: seq<Reminder>, categories: seq<Category>, phone: string, params: string, now: Timestamp): (r: Outcome<PendingReminder>)
    requires ValidDate(now.date)
    ensures r == Refuse(Chat.ReminderNumberMissing) <==> ParseInt(params).None?
    ensures r.Proceed? ==> r.value.reminder in reminders && Reminders.Pending(r.value.reminder, phone, now.date, 7)
  {
    match ParseInt(params)
    case None => Refuse(Chat.ReminderNumberMissing)
    case Some(n) =>
      var pending := Reminders.ListPendingReminders(reminders, categories, phone, now);
      if n < 1 || n > |pending| then Refuse(Chat.BadReminderNumber)
      else
        Reminders.ListPendingRows(reminders, categories, phone, now, 7, pending[n - 1]);
        Proceed(pending[n - 1])
  }

  /**
   * The one reply of `concluir`: a refusal as it is, and for a picked reminder
   * the catch's error reply, since `completeReminder` rejects.
   */
  function ConcluirReply(reminders: seq<Reminder>, categories: seq<Category>, phone: string, params: string, now: Timestamp): Chat.Reply
    requires ValidDate(now.date)
  {
    match ReminderPick(reminders, categories, phone, params, now)
    case Refuse(reply) => reply
    case Proceed(_) => Chat.ReminderNotDone
  }

  /**
   * `concluir`: the number picks a pending reminder and `completeReminder` is
   * awaited for it. As written that call always rejects, so the catch answers
   * "Ocorreu um erro ao concluir o lembrete." and nothing is recorded,
   * completed or scheduled.
   */
  method Concluir(db: Db, client: Chat.Client, m: Chat.Message, params: string, now: Timestamp)
    requires ValidDate(now.date)
    modifies client
    ensures client.sent == old(client.sent) + [Chat.Outgoing(m.from, ConcluirReply(db.reminders, db.categories, UserOf(m), params, now))]
  {
    var user := UserOf(m);
    CompletePicked(db, client, m.from, user, ReminderPick(db.reminders, db.categories, user, params, now), now);
  }

  /** The second half of `concluir` as written: the refusal, or the rejected `completeReminder` and the catch's reply. */
  method CompletePicked(db: Db, client: Chat.Client, to: string, user: string, pick: Outcome<PendingReminder>, now: Timestamp)
    modifies client
    ensures pick.Refuse? ==> client.sent == old(client.sent) + [Chat.Outgoing(to, pick.reply)]
    ensures pick.Proceed? ==> client.sent == old(client.sent) + [Chat.Outgoing(to, Chat.ReminderNotDone)]
  {
    match pick
    case Refuse(reply) =>
      client.SendMessage(to, reply);
    case Proceed(v) =>
      var r := Reminders.CompleteReminder(db, user, v.reminder.id, now, true);
      assert r.NotAFunction?;
      client.SendMessage(to, Chat.ReminderNotDone);
  }

  /** The second half of `concluir` with a working `completeReminder`: the refusal, or the picked reminder completed and confirmed. */
  method CompletePickedConnected(db: Db, client: Chat.Client, to: string, user: string, pick: Outcome<PendingReminder>, now: Timestamp)
    requires Ready(db) && ValidDate(now.date)
    requires pick.Proceed? ==> pick.value.reminder in db.reminders && pick.value.reminder.userPhone == user
    modifies client, db`transactions, db`reminders, db`nextReminderId
    ensures Ready(db)
    ensures pick.Refuse? ==>
              && db.transactions == old(db.transactions) && db.reminders == old(db.reminders)
              && client.sent == old(client.sent) + [Chat.Outgoing(to, pick.reply)]
    ensures pick.Proceed? ==>
              var rem := pick.value.reminder;
              var next := Reminders.Successor(rem, old(db.nextReminderId));
              && db.transactions == old(db.transactions) + Reminders.Recorded(rem, true, user, now)
              && db.reminders == Reminders.MarkCompleted(old(db.reminders), user, rem.id) + (if next.Some? then [next.value] else [])
              && client.sent == old(client.sent) + [Chat.Outgoing(to, Chat.ReminderDone(rem.description, rem.amount))]
  {
    match pick
    case Refuse(reply) =>
      client.SendMessage(to, reply);
    case Proceed(v) =>
      var rem := v.reminder;
      Reminders.FindsStoredRow(db.reminders, rem, db.nextReminderId);
      var _ := Reminders.CompleteReminderConnected(db, user, rem.id, now, true);
      client.SendMessage(to, Chat.ReminderDone(rem.description, rem.amount));
  }

  // ---------------------------------------------------------------- processCommand

  /** The handlers of the `commands` object. */
  const HandlerNames: set<string> :=
    {"ajuda", "saldo", "relatorio", "comparar", "media", "grafico", "categorias", "orcamento", "meta", "lembrete", "concluir"}

  /** The alias table as written: the goal and reminder families point to `metas` and `lembretes`. */
  const AliasesAsWritten: map<string, string> := map[
    "relatorios" := "relatorio", "relatório" := "relatorio", "relatórios" := "relatorio", "report" := "relatorio",
    "meta" := "metas", "objetivo" := "metas", "objetivos" := "metas", "goals" := "metas",
    "orcamentos" := "orcamento", "orçamento" := "orcamento", "orçamentos" := "orcamento", "budget" := "orcamento",
    "lembrete" := "lembretes", "alarme" := "lembretes", "alarmes" := "lembretes", "reminders" := "lembretes"]

  function ResolveAsWritten(c: string): string
  {
    if c in AliasesAsWritten then AliasesAsWritten[c] else c
  }

  /**
   * As written, no command name reaches the `meta` or `lembrete` handler: their
   * own names are aliases of `metas` and `lembretes`, and neither of those is a
   * handler, so goal and reminder commands all answer "command not found".
   */
  lemma GoalAndReminderUnreachableAsWritten(c: string)
    ensures ResolveAsWritten(c) != "meta" && ResolveAsWritten(c) != "lembrete"
    ensures ResolveAsWritten("meta") !in HandlerNames && ResolveAsWritten("metas") !in HandlerNames
    ensures ResolveAsWritten("lembrete") !in HandlerNames && ResolveAsWritten("lembretes") !in HandlerNames
  {
    if c in AliasesAsWritten {
      var v := AliasesAsWritten[c];
      assert v == "relatorio" || v == "metas" || v == "orcamento" || v == "lembretes";
    } else {
      assert "meta" in AliasesAsWritten && "lembrete" in AliasesAsWritten;
    }
  }

  /** The goal and reminder command words: every one of them resolves, as written, to a name with no handler. */
  const GoalAndReminderWords: set<string> :=
    {"meta", "metas", "objetivo", "objetivos", "goals", "lembrete", "lembretes", "alarme", "alarmes", "reminders"}

  lemma GoalAndReminderWordsNotFound(c: string)
    requires c in GoalAndReminderWords
    ensures ResolveAsWritten(c) !in HandlerNames
  {
    assert ResolveAsWritten(c) == "metas" || ResolveAsWritten(c) == "lembretes";
  }

  /** The alias table with the goal and reminder families pointing at their handlers. */
  const Aliases: map<string, string> := map[
    "relatorios" := "relatorio", "relatório" := "relatorio", "relatórios" := "relatorio", "report" := "relatorio",
    "metas" := "meta", "objetivo" := "meta", "objetivos" := "meta", "goals" := "meta",
    "orcamentos" := "orcamento", "orçamento" := "orcamento", "orçamentos" := "orcamento", "budget" := "orcamento",
    "lembretes" := "lembrete", "alarme" := "lembrete", "alarmes" := "lembrete", "reminders" := "lembrete"]

  /** `this.aliases[command] || command`. */
  function Resolve(c: string): string
  {
    if c in Aliases then Aliases[c] else c
  }

  /** Every alias leads to a handler, among them the goal and reminder handlers. */
  lemma AliasesReachHandlers(c: string)
    ensures c in Aliases ==> Resolve(c) in HandlerNames
    ensures Resolve("metas") == "meta" && Resolve("lembretes") == "lembrete"
  {
    if c in Aliases {
      var v := Aliases[c];
      assert v == "relatorio" || v == "meta" || v == "orcamento" || v == "lembrete";
    }
  }

  /** Every handler answers to its own name: no handler name is an alias. */
  lemma HandlersKeepTheirNames(c: string)
    ensures c in HandlerNames ==> Resolve(c) == c
  {
    if c in HandlerNames {
      assert c !in Aliases;
    }
  }

  /** `command.replace('/', '').toLowerCase()`. */
  function CommandName(command: string): string
  {
    Lower(RemoveFirst(command, '/'))
  }

  /** The handlers that would write to the database through a feature module. */
  const Writers: set<string> := {"orcamento", "meta", "lembrete", "concluir"}

  /**
   * What the handler named `c` sends to `to` for its words: the help text, the
   * balance, the report, the comparison, the averages, the chart, the category
   * list, or the one reply of each writer; the not-found reply for any other name.
   */
  ghost predicate HandlerReplies(sent: seq<Chat.Outgoing>, c: string, to: string, user: string, params: string, now: Timestamp,
                                 txs: seq<Transaction>, categories: seq<Category>, budgets: seq<Database.Budget>,
                                 goals: seq<Goal>, reminders: seq<Reminder>)
    requires ValidDate(now.date)
  {
    if c == "ajuda" then sent == [Chat.Outgoing(to, Chat.CommandHelp)]
    else if c == "saldo" then sent == [Chat.Outgoing(to, Chat.Balance(Balance(txs, user)))]
    else if c == "relatorio" then ReportReplies(sent, to, Reports.ReportParamsOf(params, now.date), txs, categories, budgets, user, now.date)
    else if c == "comparar" then sent == [Chat.Outgoing(to, CompararReply(txs, categories, user, params))]
    else if c == "media" then sent == [Chat.Outgoing(to, MediaReply(txs, categories, user, params, now.date))]
    else if c == "grafico" then |sent| == 1 && sent[0].to == to && GraficoAnswer(sent[0].reply, txs, categories, user, params)
    else if c == "categorias" then sent == [Chat.Outgoing(to, CategoriasReply(categories, user))]
    else if c == "orcamento" then sent == [Chat.Outgoing(to, OrcamentoReply(txs, categories, budgets, user, params, now.date))]
    else if c == "meta" then sent == [Chat.Outgoing(to, MetaReply(goals, categories, user, params, now))]
    else if c == "lembrete" then sent == [Chat.Outgoing(to, LembreteReply(reminders, categories, user, params, now))]
    else if c == "concluir" then sent == [Chat.Outgoing(to, ConcluirReply(reminders, categories, user, params, now))]
    else sent == [Chat.Outgoing(to, Chat.CommandNotFound)]
  }

  /**
   * `processCommand`: the name, resolved through the alias table as written,
   * picks the handler that answers; a name with no handler gets the not-found
   * reply, so every goal and reminder command does. Names the alias object
   * inherits (`constructor`, `__proto__`) resolve to a non-string value under
   * which the commands object has no handler either, so they get the same
   * reply. Every command sends at least one message, and none changes a table:
   * the only writes handlers attempt go through the feature modules, whose
   * statements reject.
   */
  method ProcessCommand(db: Db, client: Chat.Client, m: Chat.Message, command: string, params: string, now: Timestamp)
    returns (ghost sent: seq<Chat.Outgoing>)
    requires ValidDate(now.date)
    modifies client
    ensures unchanged(db)
    ensures client.sent == old(client.sent) + sent && |sent| > 0
    ensures HandlerReplies(sent, ResolveAsWritten(CommandName(command)), m.from, UserOf(m), params, now,
                           db.transactions, db.categories, db.budgets, db.goals, db.reminders)
    ensures ResolveAsWritten(CommandName(command)) !in HandlerNames ==> sent == [Chat.Outgoing(m.from, Chat.CommandNotFound)]
    ensures CommandName(command) in GoalAndReminderWords ==> sent == [Chat.Outgoing(m.from, Chat.CommandNotFound)]
    ensures ResolveAsWritten(CommandName(command)) in Writers ==> |sent| == 1
  {
    var c := ResolveAsWritten(CommandName(command));
    if CommandName(command) in GoalAndReminderWords {
      GoalAndReminderWordsNotFound(CommandName(command));
    }
    if c in Writers {
      sent := ApplyWriter(db, client, m, c, params, now);
    } else {
      sent := AnswerReader(db, client, m, c, params, now);
    }
  }

  /** The replies of `relatorio` are what the dispatch promises for that name. */
  lemma ReportHandled(sent: seq<Chat.Outgoing>, to: string, user: string, params: string, now: Timestamp,
                      txs: seq<Transaction>, categories: seq<Category>, budgets: seq<Database.Budget>,
                      goals: seq<Goal>, reminders: seq<Reminder>)
    requires ValidDate(now.date)
    requires ReportReplies(sent, to, Reports.ReportParamsOf(params, now.date), txs, categories, budgets, user, now.date)
    ensures HandlerReplies(sent, "relatorio", to, user, params, now, txs, categories, budgets, goals, reminders)
  {
  }

  /** The handlers that only read the database, and the not-found reply. */
  method AnswerReader(db: Db, client: Chat.Client, m: Chat.Message, c: string, params: string, now: Timestamp)
    returns (ghost sent: seq<Chat.Outgoing>)
    requires ValidDate(now.date) && c !in Writers
    modifies client
    ensures client.sent == old(client.sent) + sent && |sent| > 0
    ensures HandlerReplies(sent, c, m.from, UserOf(m), params, now, db.transactions, db.categories, db.budgets, db.goals, db.reminders)
  {
    if c == "relatorio" {
      sent := Relatorio(db, client, m, params, now.date);
      ReportHandled(sent, m.from, UserOf(m), params, now, db.transactions, db.categories, db.budgets, db.goals, db.reminders);
    } else {
      sent := AnswerOne(db, client, m, c, params, now);
    }
  }

  /** The reading handlers that send a single reply, and the not-found reply. */
  method AnswerOne(db: Db, client: Chat.Client, m: Chat.Message, c: string, params: string, now: Timestamp)
    returns (ghost sent: seq<Chat.Outgoing>)
    requires ValidDate(now.date) && c !in Writers && c != "relatorio"
    modifies client
    ensures client.sent == old(client.sent) + sent && |sent| == 1
    ensures HandlerReplies(sent, c, m.from, UserOf(m), params, now, db.transactions, db.categories, db.budgets, db.goals, db.reminders)
  {
    ghost var before := client.sent;
    if c == "ajuda" {
      Ajuda(client, m);
    } else if c == "saldo" {
      Saldo(db, client, m);
    } else if c == "comparar" {
      Comparar(db, client, m, params);
    } else if c == "media" {
      Media(db, client, m, params, now.date);
    } else if c == "grafico" {
      Grafico(db, client, m, params);
    } else if c == "categorias" {
      Categorias(db, client, m);
    } else {
      client.SendMessage(m.from, Chat.CommandNotFound);
    }
    sent := client.sent[|before|..];
  }


  /**
   * The handlers that would write: budgets, goals and reminders. Each sends
   * exactly its one reply; every table is left as it was.
   */
  method ApplyWriter(db: Db, client: Chat.Client, m: Chat.Message, c: string, params: string, now: Timestamp)
    returns (ghost sent: seq<Chat.Outgoing>)
    requires ValidDate(now.date) && c in Writers
    modifies client
    ensures unchanged(db)
    ensures client.sent == old(client.sent) + sent && |sent| == 1
    ensures HandlerReplies(sent, c, m.from, UserOf(m), params, now, db.transactions, db.categories, db.budgets, db.goals, db.reminders)
  {
    var user := UserOf(m);
    // None of the reading handlers' names is a writer's.
    assert c !in {"ajuda", "saldo", "relatorio", "comparar", "media", "grafico", "categorias"};
    if c == "orcamento" {
      Orcamento(db, client, m, params, now.date);
      sent := [Chat.Outgoing(m.from, OrcamentoReply(db.transactions, db.categories, db.budgets, user, params, now.date))];
    } else if c == "meta" {
      Meta(db, client, m, params, now);
      sent := [Chat.Outgoing(m.from, MetaReply(db.goals, db.categories, user, params, now))];
    } else if c == "lembrete" {
      Lembrete(db, client, m, params, now);
      sent := [Chat.Outgoing(m.from, LembreteReply(db.reminders, db.categories, user, params, now))];
    } else {
      Concluir(db, client, m, params, now);
      sent := [Chat.Outgoing(m.from, ConcluirReply(db.reminders, db.categories, user, params, now))];
    }
  }
}
