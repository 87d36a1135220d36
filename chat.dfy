/**
 * The WhatsApp side of the bot: an incoming message, the replies the bot
 * sends, and the client whose `sendMessage` calls are recorded in order.
 * A reply carries the facts its text is built from (amounts, rows, chart
 * data); the emoji-laden wording and the `toFixed` rendering are not modelled.
 */
module Chat {
  import opened Wrappers
  import opened JsNumber
  import opened Database
  import Charts
  import Tally

  /** An incoming message: the chat id (`phone@c.us`), the text, and the sender's display name. */
  datatype Message = Message(from: string, body: string, notifyName: Option<string>)

  /** A category total with its share of the section total. */
  datatype CategoryShare = CategoryShare(name: string, value: real, percent: Num)

  /**
   * The `/relatorio` text. `filter` is the lower-cased third word ("" when
   * absent); each summary figure is present only when that filter shows it.
   */
  datatype Report = Report(
    month: string, year: string, filter: string, category: Option<string>,
    incomeTotal: Option<real>, expenseTotal: Option<real>,
    periodBalance: Option<real>, currentBalance: Option<real>,
    incomeByCategory: seq<CategoryShare>, expenseByCategory: seq<CategoryShare>,
    transactions: seq<Row>, more: bool)

  /** What `calculateTotals` returns. */
  datatype Totals = Totals(receitas: real, despesas: real, categorias: Tally.Entries<string>)

  /** One line of the category variations in `/comparar`. */
  datatype CategoryChange = CategoryChange(category: string, value1: real, value2: real, diff: real, percent: real)

  /** The `/comparar` text. */
  datatype Comparison = Comparison(
    month1: string, year1: string, month2: string, year2: string,
    totals1: Totals, totals2: Totals, changes: seq<CategoryChange>)

  /** One category of the `/media` text. */
  datatype CategoryAverage = CategoryAverage(name: string, average: real, percent: Num)

  /** The `/media` text. */
  datatype Averages = Averages(months: nat, income: real, expenses: real, categories: seq<CategoryAverage>)

  /** One numbered reminder of the daily reminder message. */
  datatype ReminderLine = ReminderLine(number: nat, description: string, amount: Option<real>, categoryName: Option<string>)

  datatype Reply =
    // commands.js
    | CommandNotFound
    | CommandHelp
    | Balance(amount: real)
    | ReportBadPeriod
    | ReportText(report: Report)
    | Chart(chart: Charts.ChartText)
    | BudgetChart(bars: seq<Charts.BudgetLine>)
    | CompareUsage
    | CompareBadPeriod
    | ComparisonText(comparison: Comparison)
    | AverageBadCount
    | AveragesText(averages: Averages)
    | ChartUsage
    | ChartBadType
    | ChartBadPeriod
    | ChartNoData
    | CategoryList(income: seq<string>, expenses: seq<string>)
    | NoBudgets
    | BudgetList(budgets: seq<BudgetProgress>)
    | BadAmount
    | CategoryNotFound
    | BudgetSet(categoryName: string, amount: real)
    | BudgetNotSet
    | NoGoals
    | GoalList(goals: seq<GoalView>)
    | BadGoalDate
    | GoalCreated(description: string, amount: real, date: Date)
    | GoalNotCreated
    | NoReminders
    | ReminderList(reminders: seq<PendingReminder>)
    | BadReminderDate
    | ReminderCreated(description: string, date: Date, amount: real)
    | ReminderNotCreated
    | ReminderNumberMissing
    | BadReminderNumber
    | ReminderDone(description: string, amount: real)
    | ReminderNotDone
    // naturalLanguage.js
    | ExpenseGuidance
    | ExpenseRecorded(description: string, amount: real)
    | IncomeGuidance
    | IncomeRecorded(amount: real, source: Option<string>)
    | Assistant
    | NotUnderstood
    // reminders.js
    | DailyReminders(today: Date, lines: seq<ReminderLine>)

  /** One `client.sendMessage(to, text)` call. */
  datatype Outgoing = Outgoing(to: string, reply: Reply)

  /** The WhatsApp client: every message sent, in order. */
  class Client {
    var sent: seq<Outgoing>

    constructor ()
      ensures sent == []
    {
      sent := [];
    }

    method SendMessage(to: string, reply: Reply)
      modifies this
      ensures sent == old(sent) + [Outgoing(to, reply)]
    {
      sent := sent + [Outgoing(to, reply)];
    }
  }
}
