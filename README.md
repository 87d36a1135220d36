# Nexia finance assistant — a Dafny model of its core

Nexia is a WhatsApp assistant for personal finances, written in JavaScript
over SQLite. A user writes either free text (`gastei 15 com almoço`,
`recebi 1000 de salário`, `qual meu saldo?`) or a slash command
(`/relatorio 03 2024 despesa`, `/meta 5000 viagem 2025-12-31`). Free
text goes through a router that tries ten ordered pattern groups
(balance, analysis, goals, budget, reminders, chart, expense, income,
report, help) and falls back to a "not understood" reply. For expenses
and income it also picks the amount and the description out of the
captures, reads the decimal comma, validates both and records the
transaction. Slash commands resolve aliases and parse their words. The
handlers read budgets, goals, reminders and categories (their writes fail, as below), and
answer with text charts and randomised replies.

This project models that core in Dafny, one module per source file:

- `NaturalLanguage` and `Expressions` (`naturalLanguage.js`): routing and
  extraction are functions; `ProcessMessage` is a method over the
  database and the client.
- `Commands` and `Reports` (`commands.js`): parameter parsing is
  functions; the totals, report, comparison and average loops are
  methods proved against functions.
- `Database` (`database.js`): the class `Db`. Its tables are sequences in
  rowid order plus a users map, and its methods update them.
- `Budget`, `Goals`, `Reminders` and `Categories` (their files): derived
  rows and listings are functions. These files require `../database` and
  issue their statements as `db.get`, `db.run` and `db.all` on its module
  object, which exports none of them. So every write they attempt rejects
  with a TypeError before any SQL runs. Each write is therefore a method
  that changes nothing and reports the rejection. Beside it, a `…Connected`
  method takes the `Db` and states what the statement would do on the
  sqlite connection. Their reads go through `db.getConnection()` and work.
- `Charts` (`charts.js`): functions for the bar and pie arithmetic, and a
  method that sorts the caller's array in place and builds the budget
  chart.
- `Responses` (`responses.js`): functions.
- `Chat`: the WhatsApp client, a `Client` whose `sent` log records every
  reply.
- `JsText`, `JsNumber`, `Calendar`, `Sorting`, `TextOrder` and `Tally`:
  the JavaScript, moment and SQL behaviour the core relies on (strings,
  numbers, dates, sorts and objects used as dictionaries).

The clock (`moment()`, `new Date()`), the hour and the random draws of
`Math.random` are parameters. Each regular expression of the `patterns`
table is a matcher from text to optional capture groups. The routing is
proved over any matchers that behave as declared. The expressions
`gastei … com …` and `comprei … por …` are also written out as concrete
recognisers and proved to behave as declared.

Two behaviours of the router are modelled as the code has them and
stated as lemmas:
- the amount and description of an expense follow the text's prefix
  (a leading digit, or `gastei`/`paguei`, means amount first). So
  `2 pães custou 10` records 2 with description `10`
  (`NaturalLanguage.DigitLedDescriptionReadAsAmount`);
- text that only the third chart expression matches has no capture and
  aborts the handler (`NaturalLanguage.ChartThrowsOnlyOnThird`).

## Model

| member | source | states |
|---|---|---|
| Budget.FindBudget | budget.js:12-15 | the row `setBudget` looks up: the first budget with the same phone, category and period, or none when no row has that key |
| Budget.Upsert | budget.js:18-40 | the table grows by one row on an insert and keeps its size on an update |
| Budget.UpsertSpec | budget.js:9-44 | an update is reported exactly when a row for the key existed; afterwards the key has a row with the new amount and the returned id, and every row of another key is untouched |
| Budget.SetBudget | budget.js:9-13 | as written: the promise rejects with the TypeError of `db.get`, which the database module object does not export, and nothing is written |
| Budget.SetBudgetConnected | budget.js:9-44 | with a working connection: the table and result are the upsert's; the id counter moves only on an insert |
| Budget.Status | budget.js:135-136 | `exceeded` iff the percentage is at least 100, `warning` iff it is from 80 up to 100, `ok` iff below 80 |
| Budget.StatusBySpending | budget.js:130-136 | for a positive limit, `exceeded` iff spending reaches the limit, `warning` iff it is from 0.8 of the limit up to the limit, `ok` iff below 0.8 of it |
| Budget.LastDayPurchaseMissed | budget.js:83-100 | a purchase on the month's last day counts nothing in the query's window as written, and counts its amount in the whole month |
| Budget.SpentAsWrittenAppend | budget.js:111-115 | recording a transaction raises the category's spending, as the query counts it, by its amount exactly when its date text falls in the window |
| Budget.SpentAppend | budget.js:111-115 | the intended window: recording an expense of the category in the month raises its spending by the amount, whatever the day |
| Budget.ProgressOf | budget.js:109-137 | one report row: the budget's id, amount and category, the category's name and type, the spending as the query counts it, percentage, remaining amount and status |
| Budget.Progress | budget.js:108-118 | every row comes from a monthly budget of the user whose category exists, and every such budget gives a row |
| Budget.CheckBudgetProgress | budget.js:82-147 | the rows are ordered by category type then name, and are exactly the tracked budgets' progress rows |
| Budget.CheckBudgetProgressRows | budget.js:108-140 | a row is reported iff it is the progress row of a tracked budget of the user |
| Budget.Deleted | budget.js:153 | a row survives iff it is not the user's row with that id |
| Budget.DeletedNothing | budget.js:150-160 | deleting an id the user does not own leaves the table as it was |
| Budget.DeletedCount | budget.js:150-160 | a delete removes exactly one row when the user owns the id and none otherwise |
| Budget.DeletedIds | budget.js:150-160 | after a delete, ids still increase and stay below the counter |
| Budget.DeleteBudget | budget.js:150-153 | as written: the promise rejects with the TypeError of `db.run`, and nothing is deleted |
| Budget.DeleteBudgetConnected | budget.js:150-161 | with a working connection: the table is the filtered one, and the result is true iff the user owned a row with that id |
| Calendar.NextDay | reminders.js:123 | `add(1, 'day')` gives a valid date one day number later |
| Calendar.AddDays | reminders.js:123-125 | `add(n, 'days')` gives a valid date `n` day numbers later (a week is 7 days) |
| Calendar.AddMonth | reminders.js:127 | `add(1, 'month')`: the next month (January after December), the same day, clamped to that month's last day |
| Calendar.AddYear | reminders.js:129 | `add(1, 'year')`: the same month of the next year, the same day, clamped (29 February becomes 28 February) |
| Calendar.AddMonthLater | reminders.js:127 | a month later is always a strictly later day |
| Calendar.AddYearLater | reminders.js:129 | a year later is always a strictly later day |
| Calendar.DaysLeftAsWrittenBounds | reminders.js:51 | for a day not yet past, the truncated difference from the current instant lies between 0 and the calendar difference |
| Calendar.DaysLeftAsWrittenShift | goals.js:99 | the truncated difference is one less than the calendar difference for every future day, and equal to it for today and past days |
| Calendar.DateKeyBefore | reminders.js:40-42 | between valid dates, a smaller `YYYY-MM-DD` text is an earlier day |
| Calendar.DateKeyOrder | reminders.js:40-42 | the text order of valid `YYYY-MM-DD` dates, as SQL compares them, is their calendar order |
| Calendar.DateKeySame | reminders.js:40-42 | valid dates with the same text are the same date |
| Calendar.FormatDate | goals.js:12 | `format('YYYY-MM-DD')`: ten characters with dashes at positions 4 and 7 |
| Calendar.ParseDate | commands.js:725 | an accepted text is ten characters with dashes at positions 4 and 7 and names a real day of the years 0 to 9999 |
| Calendar.ParseFormatted | reminders.js:13 | reading back a formatted day gives that day |
| Calendar.FormatInjective | reminders.js:13 | two days with the same text are the same day |
| Calendar.MonthsBack | commands.js:467 | `subtract(i, 'months')` as a (year, month) pair: a month from 1 to 12, exactly `i` months before |
| Calendar.MonthsBackDistinct | commands.js:466-470 | distinct counts of months back give distinct months |
| Categories.DefaultPairs | categories.js:8-17 | the 19 defaults in insertion order: the ten expense names typed `despesa`, then the nine income names typed `receita` |
| Categories.Seeded | categories.js:24-29 | the first `n` default inserts give `n` rows for the user, numbered consecutively, with the defaults' names and types in order |
| Categories.InsertDefaults | categories.js:24-29 | with a working connection: the table gains exactly the seeded rows, the counter moves by their number, and the id invariant holds |
| Categories.SeededStep | categories.js:24-29 | one more insert appends the next default row |
| Categories.AddCategory | categories.js:54-57 | as written: the promise rejects with the TypeError of `db.run`, and no row is added |
| Categories.AddCategoryConnected | categories.js:54-66 | with a working connection: one row is appended under the next id, that id is returned, and the counter moves by one |
| Categories.SeedCount | categories.js:20-37 | at most 19 rows are written; none when the user already has categories; all 19 when nothing fails |
| Categories.InitSucceeds | categories.js:20-37 | the result is true when nothing fails, false when the count query fails, and for a user with categories true iff the count query succeeds |
| Categories.InitUserCategories | categories.js:20-51 | as written: the count query `db.get` throws, the catch returns false, and no default is seeded; this is `InitSucceeds` and `SeedCount` with the first statement failing |
| Categories.InitUserCategoriesConnected | categories.js:20-37 | with a working connection: the table gains exactly the rows written before any failure, the result is `InitSucceeds`, and a true result leaves the user with categories |
| Categories.SecondInitAddsNothing | categories.js:22-31 | once a user has categories, another call inserts nothing, whatever fails |
| Categories.SeededKinds | categories.js:8-17 | a complete seeding gives the user exactly ten expense and nine income categories |
| Categories.SeededRows | categories.js:24-29 | seeded rows 0-9 are the user's expense rows and rows 10-18 the user's income rows |
| Categories.Filter | categories.js:69-88 | a row is kept iff it is the user's and, when a type is given, of that type |
| Categories.FilterSplit | categories.js:69-88 | filtering a concatenation filters each part |
| Categories.ListCategories | categories.js:69-93 | the user's rows of the requested type, each once and no other, ordered by type then name |
| Categories.ListCategoriesSelects | categories.js:69-88 | a row is listed iff it is in the table, is the user's and has the requested type |
| Categories.Renamed | categories.js:138 | the table keeps its size |
| Categories.RenameCategory | categories.js:135-138 | as written: the promise rejects with the TypeError of `db.run`, and no row is renamed |
| Categories.RenameCategoryConnected | categories.js:135-146 | with a working connection: the table is renamed, and the result is true iff some row had that id and belonged to the user |
| Categories.RenameIsLocal | categories.js:135-146 | renaming keeps every row's id, owner and type, renames only the user's row with that id, and leaves any other user's listing unchanged |
| Categories.FilterRenamed | categories.js:135-146 | another user's filtered rows are unchanged by a rename |
| Categories.RenameKeepsIds | categories.js:135-146 | renaming preserves the ids-increasing-and-below-the-counter invariant |
| Categories.FirstEntry | categories.js:122-128 | the index of the first table entry with a term in the text; none iff no entry has one |
| Categories.SuggestCategory | categories.js:96-132 | the first entry, in declaration order, with a term contained in the lower-cased description, or `Outros` iff no entry has one; always `Outros` for a type other than despesa/receita |
| Categories.EarlierCategoryWins | categories.js:122-128 | a description with a term of the `i`-th entry gets that entry's category or an earlier one, never a later one and never `Outros` |
| Charts.PieBarIndex | charts.js:52-54 | `min(floor(percent / 10), 9)`: an index from 0 to 9, 9 for `Infinity` and for 90 and above, and none for `NaN` or `-Infinity` |
| Charts.PieBarIndexOfShare | charts.js:51-52 | for a share from 0 to 100 the index is the tenth of the percentage, capped at 9 |
| Charts.FilledSegmentsAsWritten | charts.js:38 | entry `i` of the source's bar table holds `10 - i` filled segments |
| Charts.PieBarsInverted | charts.js:38-54 | as written, a 95% slice draws one filled segment and a 5% slice draws ten |
| Charts.FilledSegments | charts.js:38-54 | the intended bar: from 1 to 10 filled segments, one per started tenth |
| Charts.FilledSegmentsMonotonic | charts.js:38-54 | with the intended bar, a larger percentage never draws fewer filled segments |
| Charts.GeneratePieChart | charts.js:36-61 | the total is the sum of the values; one line per entry, in order of value from largest, each with its symbol, bar and share of the total; symbols come from the eight |
| Charts.NeighbourSymbolsDiffer | charts.js:53 | slice `i` gets symbol `i % 8`, so neighbouring slices never share a symbol |
| Charts.GenerateLineChart | charts.js:64-65 | its own no-data text (distinct from `generateTextChart`'s fallback) iff there are no rows, otherwise the chart of the rows |
| Charts.GenerateTextChart | charts.js:155-184 | for `pizza` with rows, the pie chart of the slices the rows tally to (`Charts.PieOf`: their total, and one line per slice largest first); the bar chart for `barra` with or without rows, the line chart for `linha` with rows, and the "not enough data" text exactly in the remaining cases |
| Charts.FillColour | charts.js:211-212 | never white; red iff exceeded, yellow iff warning, green otherwise |
| Charts.FilledBlocks | charts.js:205 | `min(round(percent / 100 * 10), 10)`: at most 10, and 10 for `Infinity` |
| Charts.FilledBlocksBounds | charts.js:205 | from 95% the whole bar is filled; below 5% no cell is |
| Charts.ProgressBar | charts.js:208-216 | ten cells: the first `FilledBlocks` in the status colour, the rest white |
| Charts.Squash | charts.js:195 | a sign-preserving map of the reals into (-1, 1), zero only at zero |
| Charts.SquashMonotone | charts.js:195 | the map is strictly increasing: it keeps and reflects order |
| Charts.PercentKey | charts.js:195 | the order key of a budget row: 1 iff `Infinity`, -1 iff `-Infinity`, strictly between for a finite percentage |
| Charts.PercentKeyOrder | charts.js:195 | for rows without `NaN`, the key orders two rows exactly as `b.percent_used - a.percent_used` does |
| Charts.SortByPercentUsed | charts.js:195 | the caller's array is reordered in place into the stable descending sort by the key |
| Charts.GenerateBudgetChart | charts.js:187-229 | none iff the list is missing or empty; otherwise the caller's array is left sorted by percentage used, highest first, and line i is drawn from the i-th sorted budget: its own category name, status, percentage used, budgeted and spent amounts and remainder, and a ten-cell bar with `FilledBlocks` cells in the status colour and the rest white |
| Chat.Client.constructor | naturalLanguage.js:188 | a new client has sent nothing |
| Chat.Client.SendMessage | naturalLanguage.js:211 | each `sendMessage` appends one message, to the given chat, to the record of what was sent |
| Commands.Ajuda | commands.js:76-127 | exactly one message, the help text, is sent back to the sender |
| Commands.Saldo | commands.js:130-143 | exactly one message is sent back to the sender: the balance of their own transactions |
| Commands.SendCharts | commands.js:293-317 | the messages appended after an unfiltered report are the pie chart of the pie data when there is any, then the line chart when there is line data, then the budget chart when there are budgets, all to the sender |
| Commands.ChartsInOrder | commands.js:296-317 | the three chart sends, one after the other, make up exactly the replies that follow a report |
| Commands.SendChart | commands.js:297-307 | one chart message of the given type for the month when there are rows, none otherwise; for `pizza` it is the pie chart of those rows' slices, for `linha` the line chart of those rows |
| Commands.SendBudgetChart | commands.js:311-317 | the budget chart message when there are tracked budgets, none otherwise; its i-th line is the full line of the i-th budget by percentage used |
| Commands.Relatorio | commands.js:146-326 | the refusal when the month or the year is not a number; otherwise the month's report (filtered as asked) and, only when no filter is given, the chart messages |
| Commands.ReportFor | commands.js:290-317 | the report is sent first, alone when filtered, followed by the chart messages when unfiltered |
| Commands.MonthReport | commands.js:183-209 | the report is built from the month's own transactions and the user's current balance |
| Commands.Comparar | commands.js:329-437 | exactly one message to the sender: the usage text, the period refusal, or the comparison of the two months |
| Commands.CompararAnswer | commands.js:329-437 | the reply computed step by step is the comparison reply of the words |
| Commands.PeriodsAnswer | commands.js:345-359 | the period check then the comparison, as the reply function defines them |
| Commands.CompareFetched | commands.js:354-359 | the comparison is computed from the two months' own transactions |
| Commands.Media | commands.js:440-532 | exactly one message to the sender: the averages over the current month and the ones before it, or the refusal of a count outside 1 to 12 |
| Commands.MediaAnswer | commands.js:451-472 | the months are collected one at a time and averaged as the reply function defines |
| Commands.GraficoRefusal | commands.js:537-564 | a `barra` request with three words is always refused (no bar data is ever selected); without a refusal the words name a type, a month and a year |
| Commands.Grafico | commands.js:535-575 | exactly one message to the sender: the refusal when there is one, otherwise a chart of the requested period; for `pizza` it is the pie chart of the month's pie rows, for `linha` the line chart of the month's rows |
| Commands.Names | commands.js:586-600 | the names listed are exactly those of the categories of that type |
| Commands.Categorias | commands.js:578-612 | one message: the user's income names and expense names from the category listing |
| Commands.CategoriasListsOwn | commands.js:581-600 | a name is listed under a type iff one of the user's own categories of that type has it |
| Commands.FindByName | commands.js:655-657 | the first category whose lower-cased name equals the lower-cased word; none iff no category matches |
| Commands.BudgetRequest | commands.js:644-662 | refused for a bad amount iff the amount word does not parse; refused as not found iff it parses and no user category has the name; otherwise a category of the user and the amount |
| Commands.Orcamento | commands.js:615-680 | fewer than two words: the listing (or "no budgets") is sent; a refusal is sent as it is; a valid request awaits `setBudget`, which rejects, so the catch's error reply is sent; no table changes |
| Commands.SetRequestedBudget | commands.js:644-679 | as written: the refusal is sent, and a valid request gets the catch's error reply |
| Commands.SetRequestedBudgetConnected | commands.js:644-675 | with a working `setBudget`: the refusal leaves budgets unchanged; a request upserts the monthly budget and confirms it |
| Commands.GoalRequest | commands.js:714-730 | refused for a bad amount iff the first word does not parse; for a bad date iff it parses and the last word is not a date; otherwise the middle words joined by `_`, the amount and a valid date |
| Commands.MetaReadsWords | commands.js:715-717 | words typed with spaces are read back: the goal is stored under them joined by `_`, and the confirmation shows them joined by spaces |
| Commands.GoalRequestOfWords | commands.js:714-730 | an amount word, space-free description words and a date word give exactly that goal request |
| Commands.UnderscoresShownAsSpaces | commands.js:740 | words joined by `_` and shown with each `_` as a space read as the words joined by spaces |
| Commands.Meta | commands.js:683-747 | fewer than three words: the open goals (or "no goals") are sent; a refusal is sent as it is; a valid request awaits `createGoal`, which rejects, so the catch's error reply is sent; no table changes |
| Commands.CreateRequestedGoal | commands.js:714-746 | as written: the refusal is sent, and a valid request gets the catch's error reply |
| Commands.CreateRequestedGoalConnected | commands.js:714-742 | with a working `createGoal`: the refusal leaves goals unchanged; a request appends the goal and confirms it |
| Commands.ReminderRequest | commands.js:786-803 | refused for a bad amount iff the last word does not parse; for a bad date iff it parses and the word before it is not a date; otherwise a description without `_` and a valid date |
| Commands.LembreteReadsWords | commands.js:787-789 | the description words, typed with spaces, are stored joined by spaces |
| Commands.ReminderRequestOfWords | commands.js:786-803 | description words, a date word and an amount word give exactly that reminder request |
| Commands.Lembrete | commands.js:750-824 | fewer than three words: the pending listing (or "none") is sent; a refusal is sent as it is; a valid request awaits `createReminder`, which rejects, so the catch's error reply is sent; no table changes |
| Commands.CreateRequestedReminder | commands.js:786-823 | as written: the refusal is sent, and a valid request gets the catch's error reply |
| Commands.CreateRequestedReminderConnected | commands.js:786-819 | with a working `createReminder`: the refusal leaves reminders unchanged; a request appends the reminder and confirms it |
| Commands.ReminderPick | commands.js:827-847 | refused as missing iff the word is not an integer; a pick is one of the user's pending reminders in the seven-day window |
| Commands.Concluir | commands.js:827-862 | a refusal is sent as it is; a pick awaits `completeReminder`, which rejects, so the catch's error reply is sent and nothing is recorded, completed or scheduled |
| Commands.CompletePicked | commands.js:847-861 | as written, once the pick is made: the refusal, or the catch's error reply |
| Commands.CompletePickedConnected | commands.js:847-856 | with a working `completeReminder`: a pick completes the reminder, records its payment, schedules its next occurrence when recurring, and confirms it; a refusal changes nothing |
| Commands.GoalAndReminderUnreachableAsWritten | commands.js:28-59 | as written, no command name resolves to `meta` or `lembrete`, and `meta`, `metas`, `lembrete`, `lembretes` resolve to names with no handler |
| Commands.GoalAndReminderWordsNotFound | commands.js:35-61 | every goal and reminder word (meta, metas, objetivo, objetivos, goals, lembrete, lembretes, alarme, alarmes, reminders) resolves to a name that is no handler |
| Commands.AliasesReachHandlers | commands.js:28-47 | in the corrected table every alias leads to a handler, `metas` to `meta` and `lembretes` to `lembrete` |
| Commands.HandlersKeepTheirNames | commands.js:55 | with the corrected table, every handler name resolves to itself |
| Commands.ProcessCommand | commands.js:50-73 | with the alias table as written, the messages appended are exactly those of the handler the name resolves to (`HandlerReplies`): the help text for `ajuda`, the balance for `saldo`, the report and charts for `relatorio`, the comparison, the averages, the chart or its refusal, the category list, and the one reply of `orcamento`, `meta`, `lembrete` or `concluir` (a listing, a refusal or the catch's error reply); a name with no handler (including `constructor`) gets exactly the not-found reply, so every goal and reminder word does; no table changes |
| Commands.AnswerReader | commands.js:55-72 | the read-only handlers append at least one message, exactly those of the handler named: help, balance, report, comparison, averages, chart, category list; the not-found reply for a name with no handler |
| Commands.AnswerOne | commands.js:55-72 | the read-only handlers other than `relatorio` append exactly one message, the one of the handler named: help, balance, comparison, averages, chart, category list; the not-found reply for a name with no handler |
| Commands.ApplyWriter | commands.js:58-59 | `orcamento`, `meta`, `lembrete` and `concluir` each append exactly their one reply (`OrcamentoReply`, `MetaReply`, `LembreteReply`, `ConcluirReply`: the listing, the refusal, or the catch's error reply) and leave every table as it was |
| Database.DaysInMonth | database.js:233 | a month has from 28 to 31 days (`endOf('month')`) |
| Database.StatementsNotExported | database.js:357-370 | `get`, `run` and `all` are not among the names database.js exports, while `getConnection` is: the feature modules' statements are calls of missing functions, their reads through the connection are not |
| Database.Db.constructor | database.js:45-150 | a fresh database: every table empty and the id invariants hold |
| Database.Db.RegisterUser | database.js:154-165 | `INSERT OR REPLACE`: the phone's row becomes the new name with the column defaults (not authenticated, no login); other users are untouched |
| Database.Db.AddTransaction | database.js:182-194 | exactly one row is appended, dated with the current timestamp |
| Database.Db.AuthenticateUser | database.js:332-343 | the users table is the authenticated one, and the call resolves true |
| Database.Authenticate | database.js:335 | the same phones; only the given phone's flag is set, and only when it is registered |
| Database.AuthenticationLifecycle | database.js:154-343 | registering (again) leaves a phone unauthenticated; authenticating makes a phone authenticated iff it is registered; neither touches another phone |
| Database.VerifyCredentials | database.js:346-350 | true iff some configured entry has exactly this login and password; false with no entries |
| Database.SumOfAppend | database.js:216-217 | appending a row raises the user's sum of its type by its amount when it is theirs and of that type, and not otherwise |
| Database.BalanceAppend | database.js:212-225 | appending a row moves its owner's balance by its amount (up for income, down for an expense, not at all for another type) and no other user's balance |
| Database.BalanceWithoutRows | database.js:212-225 | a user without rows has balance 0, whatever other users recorded |
| Database.PeriodOf | database.js:231-233 | a selected period is a month 1 to 12 of a year 0 to 9999 |
| Database.FindCategory | database.js:243 | the category row with that id, or none iff no row has it |
| Database.MonthRows | database.js:238-245 | only the user's rows of that month, each joined with its category name |
| Database.MonthRowsExact | database.js:238-245 | a row is selected iff it is the user's and dated in that month |
| Database.GetTransactions | database.js:228-254 | newest first, only the user's rows, every row dated in the requested month, and nothing for a period that is not a valid date |
| Database.GetTransactionsSelects | database.js:238-246 | for every row and every period: the row is reported iff it is stored, belongs to the user, and the period is a valid month containing its date; rows of other months are excluded |
| Database.Slices | database.js:268-280 | one slice per tallied description, with its total |
| Database.Days | database.js:292-298 | one row per day with its expense total and its income total |
| Database.GetChartData | database.js:257-314 | no rows for a type other than `pizza`/`linha` or an invalid period; pie slices largest first; line rows by day |
| Database.PieRows | database.js:268-280 | slices only, largest total first |
| Database.LineRows | database.js:292-298 | day rows only, earliest day first |
| Database.ExpenseTallyTotal | database.js:268-279 | each description is one slice, and the slices add up to all of the month's expenses |
| Expressions.SpaceRun | naturalLanguage.js:19 | where a greedy `\s*` stops: every character consumed is white space and the next one is not |
| Expressions.DigitRun | naturalLanguage.js:19 | where a greedy `\d*` stops: every character consumed is a digit and the next one is not |
| Expressions.AmountEnd | naturalLanguage.js:19 | the end of `\d+[.,]?\d*` from a digit; a match can only use this greedy end, since nothing shorter is followed by white space |
| Expressions.NumberStart | naturalLanguage.js:19 | after an optional `R$` and white space, the number starts at a digit |
| Expressions.After | naturalLanguage.js:19 | a keyword matched at a position ends right after it |
| Expressions.SpentLink | naturalLanguage.js:19 | one of com, em, no, na, de at a position, ending after it |
| Expressions.TailStart | naturalLanguage.js:19 | where `(.+)$` starts, inside the text and after the white space, including when `\s+` gives a trailing character back |
| Expressions.SpentExpression | naturalLanguage.js:19 | a match has three groups with the amount and the description present, and the text starts, ignoring case, with `gastei` followed by white space |
| Expressions.BoughtLink | naturalLanguage.js:16 | one of por, no valor de, `:` at a position, ending after it |
| Expressions.BoughtTail | naturalLanguage.js:16 | after the description, the link and the number are found with the number's bounds |
| Expressions.BoughtFrom | naturalLanguage.js:16 | the lazy description ends at the first place whose tail matches |
| Expressions.BoughtAt | naturalLanguage.js:16 | the greedy `\s+` after `comprei` tried from its longest run down: all bounds lie in order inside the text |
| Expressions.BoughtExpression | naturalLanguage.js:16 | a match has three groups with the description and the amount present, and the text starts, ignoring case, with `comprei` followed by white space |
| Expressions.SpaceRunIs | naturalLanguage.js:19 | a run of white space ending at a non-space is the one found |
| Expressions.DigitRunIs | naturalLanguage.js:19 | a run of digits ending at a non-digit is the one found |
| Expressions.SpentReads | naturalLanguage.js:19 | `gastei N com D`, with digits `N` and a one-line `D` starting with a non-space, matches with `N` in group 1 and `D` in group 2 |
| Expressions.BoughtFromSkips | naturalLanguage.js:16 | the lazy description skips every end not followed by white space, up to the one whose tail matches |
| Expressions.BoughtReads | naturalLanguage.js:16 | `comprei D por I,F`, with a one-word `D` and digits around a comma, matches with `D` in group 1 and `I,F` in group 2 |
| Expressions.SpentScenarioReads | naturalLanguage.js:19 | `gastei 15 com almoço` gives groups `15` and `almoço` |
| Expressions.BoughtScenarioReads | naturalLanguage.js:16 | `comprei pão por 5,50` gives groups `pão` and `5,50` |
| Goals.CreateGoal | goals.js:9-17 | as written: the promise rejects with the TypeError of `db.run`, and no row is added |
| Goals.CreateGoalConnected | goals.js:9-26 | with a working connection: one row appended, with nothing saved and not completed, under the next id, which is returned |
| Goals.FindGoal | goals.js:31-37 | the first row with that id belonging to the user; none iff there is none |
| Goals.Capped | goals.js:40-48 | the new saved amount: the old one plus the amount when adding, else the amount, never above the target |
| Goals.StoredRowAsWritten | goals.js:51-56 | as written, the stored row has the new amount, and it is completed iff the amount *before* the update reached the target; nothing else changes |
| Goals.StoredRow | goals.js:51-61 | as intended, the stored row is completed iff the new amount reaches the target |
| Goals.SetProgress | goals.js:51-56 | the same rows, with only the user's row of that id rewritten as written |
| Goals.SetProgressIntended | goals.js:51-61 | the same rows, with only the user's row of that id rewritten as intended |
| Goals.ApplyProgress | goals.js:29-73 | rejected iff the user has no goal with that id; otherwise the table as written and the reported result: updated, completed iff the new amount reaches the target, and the progress |
| Goals.ProgressAtMostHundred | goals.js:48-66 | for a positive target the reported progress never exceeds 100%, nor drops below 0 for non-negative amounts |
| Goals.AdditionsCompose | goals.js:41-48 | two additions of non-negative amounts save what one addition of their sum saves |
| Goals.ReplaceIdempotent | goals.js:43-48 | replacing the saved amount twice with one value is replacing it once |
| Goals.UpdateGoalProgress | goals.js:29-32 | as written: the promise rejects with the TypeError of `db.get` before the goal is read, and nothing is written |
| Goals.UpdateGoalProgressConnected | goals.js:29-73 | with a working connection: a missing goal writes nothing and is rejected; otherwise the table and result are those of `ApplyProgress` |
| Goals.ViewOf | goals.js:97-107 | the goal with its category name, remaining amount (positive iff below the target), progress from 0 to 100 for a goal within its target, and moment's truncated days left |
| Goals.Views | goals.js:80-88 | a view is listed iff it is of a goal of the user that is open (or any goal when completed ones are asked for) |
| Goals.ListGoals | goals.js:76-117 | ordered by target date, and exactly the views of the listed goals |
| Goals.ListGoalsRows | goals.js:80-108 | a listing holds exactly the views of the user's goals, completed ones only when asked for |
| Goals.CreatedGoalListed | goals.js:9-108 | a goal just created is listed as open with progress 0 and its whole target remaining |
| Goals.ReachedGoalStaysOpenAsWritten | goals.js:52-61 | for every open goal taken from below its target to it, the update reports completed but stores the row as open, so the open listing keeps showing it |
| Goals.ReachedGoalClosesNextTimeAsWritten | goals.js:54 | as written, the flag catches up on the next update: a goal already at its target is stored completed |
| Goals.ReachedGoalCloses | goals.js:52-61 | as intended, the stored flag is the reported one: a goal that reaches its target leaves the open listing and one below it stays |
| Goals.Without | goals.js:162 | a row survives iff it is not the user's row with that id |
| Goals.DeleteGoal | goals.js:159-162 | as written: the promise rejects with the TypeError of `db.run`, and nothing is deleted |
| Goals.DeleteGoalConnected | goals.js:159-170 | with a working connection: the table is filtered, and the result is true iff the user had a goal with that id |
| Goals.DeletedGoalUnlisted | goals.js:159-170 | a deleted goal no longer appears in its owner's listings, and other users' listings are unchanged |
| JsNumber.Percent | budget.js:130 | `(part / whole) * 100`: the exact quotient for a non-zero whole; for a zero whole `Infinity` iff the part is positive, `-Infinity` iff negative, `NaN` iff zero |
| JsNumber.PercentOfShare | charts.js:51 | a part between 0 and a positive whole is a finite percentage from 0 to 100 |
| JsText.TrimStart | naturalLanguage.js:117 | leading white space removed: a suffix that starts with a non-space, and everything dropped is white space |
| JsText.TrimEnd | naturalLanguage.js:117 | trailing white space removed: a prefix that ends with a non-space, and everything dropped is white space |
| JsText.Trim | naturalLanguage.js:117 | `trim()`: no longer than the text, and empty or starting and ending with a non-space |
| JsText.TrimmedEdges | naturalLanguage.js:117 | trimming both ends leaves no white space at either end, and only white space is dropped |
| JsText.Lower | naturalLanguage.js:117 | `toLowerCase()`: the same length, each character lower-cased |
| JsText.LowerIsLower | naturalLanguage.js:117 | lower-casing twice is lower-casing once |
| JsText.LowerKeepsSpaces | naturalLanguage.js:117 | lower-casing maps white space to white space and nothing else to it, so it commutes with `trim` |
| JsText.TrimKeepsLower | naturalLanguage.js:117 | trimming a lower-cased text leaves it lower-cased |
| JsText.LowerPart | naturalLanguage.js:117 | every part of a lower-cased text is lower-cased |
| JsText.AbsentChar | categories.js:124 | a word with a character the text lacks is not contained in it |
| JsText.PrefixContained | naturalLanguage.js:175 | a text contains each of its prefixes |
| JsText.ReplaceFirst | naturalLanguage.js:183 | `replace(',', '.')`: the same length; unchanged without a comma, otherwise only the first comma becomes a point |
| JsText.IndexOf | naturalLanguage.js:183 | the position of the first occurrence of a character present in the text |
| JsText.IndexOfAt | naturalLanguage.js:183 | the first occurrence is the one with none before it |
| JsText.Split | commands.js:616 | `split(' ')`: at least one piece, and no piece contains the separator |
| JsText.JoinSplit | commands.js:717 | joining the pieces with the separator gives back the split text |
| JsText.SplitJoin | commands.js:717 | splitting undoes joining, for pieces that do not contain the separator |
| JsText.CountSplit | commands.js:616 | no separator iff the count is zero, and the count is additive over any cut |
| JsText.SplitLength | commands.js:619 | `split` yields one piece more than there are separators |
| JsText.PadStart2 | commands.js:153 | `padStart(2, '0')`: the text, preceded by zeros up to length two |
| JsText.Digits | naturalLanguage.js:183 | the longest prefix of decimal digits |
| JsText.FractionDigits | naturalLanguage.js:183 | the digits after a leading decimal point |
| JsText.DigitsValueOfPrefix | naturalLanguage.js:183 | a numeral followed by a non-digit is read as exactly that numeral |
| JsText.ReplaceCommaAt | naturalLanguage.js:183 | `i,f` with a comma-free `i` becomes `i.f` |
| JsText.ParseFloatOfDigitStart | naturalLanguage.js:183 | a text starting with a digit is read by `parseFloat` as its unsigned decimal prefix |
| JsText.ParsePointed | naturalLanguage.js:183 | `parseFloat("i.f")` is `i + f / 10^|f|` |
| JsText.WholeValue | naturalLanguage.js:183 | a numeral without a fraction is worth its digits |
| JsText.ParseWhole | commands.js:646 | a whole number followed by neither a digit, a point nor a comma is read as its value |
| JsText.CommaReadsAsPoint | commands.js:646 | a decimal comma reads as a decimal point: `i,f` and `i.f` both give `i + f / 10^|f|` |
| JsText.NatText | naturalLanguage.js:159-160 | `String(n)`: decimal digits without leading zeros whose value is `n` |
| JsText.IntText | naturalLanguage.js:159-160 | `String(i)`: a minus sign before the digits of a negative number |
| JsText.IntTextRoundTrip | commands.js:553 | `parseInt(String(i))` gives back `i` |
| JsText.ReplaceAll | commands.js:738 | `replace(/_/g, ' ')`: the same length, every `_` becomes a space and nothing else changes |
| JsText.RemoveFirst | commands.js:52 | `replace('/', '')`: the first `/`, if any, removed, and nothing else |
| JsText.SplitJoinReplaces | commands.js:717 | splitting at one character and joining with another replaces every occurrence |
| JsText.LeadingZeros | commands.js:153 | zeros in front do not change a numeral's value |
| JsText.PadStart2Value | commands.js:153 | `padStart(2, '0')` keeps a numeral's value |
| JsText.NatTextShort | commands.js:167 | a number below 100 has at most two digits, so the padding makes exactly two |
| JsText.NatTextFour | commands.js:168 | a year from 1000 to 9999 has exactly four digits |
| NaturalLanguage.FindFirstMatch | naturalLanguage.js:311-317 | none iff no pattern matches |
| NaturalLanguage.FindFirstMatchIsFirst | naturalLanguage.js:311-317 | the match returned is that of the first matching pattern; later patterns are not consulted |
| NaturalLanguage.SomeMatchIsFirst | naturalLanguage.js:311-317 | if some pattern matches, one of them is the first to match |
| NaturalLanguage.FirstIsUnique | naturalLanguage.js:311-317 | at most one pattern is the first to match |
| NaturalLanguage.MatchesAnyPattern | naturalLanguage.js:320-322 | true iff some pattern matches |
| NaturalLanguage.Groups | naturalLanguage.js:124-276 | the ten pattern groups, in the order `processMessage` tries them |
| NaturalLanguage.FirstGroup | naturalLanguage.js:124-276 | the first group with a matching pattern: no earlier group matches, and it does (or none does) |
| NaturalLanguage.FirstGroupAt | naturalLanguage.js:124-276 | a place with no match before it and a match at it is the first group |
| NaturalLanguage.ClassifyFollowsOrder | naturalLanguage.js:124-276 | the deciding group is the first with a matching pattern, and a chart, expense or income intent carries exactly the match `findFirstMatch` returns for its group |
| NaturalLanguage.SameOnSameMatch | naturalLanguage.js:311-322 | two pattern lists that agree on a text give it the same first match and the same any-match |
| NaturalLanguage.LaterGroupsIgnored | naturalLanguage.js:124-276 | groups after the winning one are never consulted: tables that agree up to it classify the text alike |
| NaturalLanguage.SameRankSameIntent | naturalLanguage.js:124-276 | intents of the same group carrying the same match are equal |
| NaturalLanguage.SpentExpressionAsDeclared | naturalLanguage.js:19 | the written-out `gastei` expression is anchored at `gastei`, has the declared groups, and needs white space |
| NaturalLanguage.BoughtExpressionAsDeclared | naturalLanguage.js:16 | the written-out `comprei` expression is anchored at `comprei`, has the declared groups, and needs white space |
| NaturalLanguage.NoBalanceQuery | naturalLanguage.js:42-51 | a lower-case text without q, d, n, v, b and u matches no balance expression |
| NaturalLanguage.NoAnalysisQuery | naturalLanguage.js:74-81 | a lower-case text without ã, n, u, f, r, x, p, q and v matches no analysis expression |
| NaturalLanguage.NoShowing | naturalLanguage.js:76 | `mostre`, `mostra`, `exibe`, `apresenta` and `fala sobre` all need an r, x, p or f |
| NaturalLanguage.NoGoalsQuery | naturalLanguage.js:84-89 | a lower-case text without n, v, r, q, ã, x, p, f, d and u matches no goals expression |
| NaturalLanguage.NoBudgetQuery | naturalLanguage.js:92-97 | a lower-case text without r and b matches no budget expression |
| NaturalLanguage.NoRemindersQuery | naturalLanguage.js:100-105 | a lower-case text without b, v and n matches no reminders expression |
| NaturalLanguage.NoChartQuery | naturalLanguage.js:108-112 | a lower-case text without r, p, n and b matches no chart expression |
| NaturalLanguage.NoQuery | naturalLanguage.js:124-164 | a lower-case text without those letters matches none of the six query groups |
| NaturalLanguage.NoMatchWithoutSpace | naturalLanguage.js:311-322 | no expression that needs white space matches a text without any |
| NaturalLanguage.BareWordsNotUnderstood | naturalLanguage.js:63-71 | a bare `ajuda` or `saldo` matches no group and gets the fallback text |
| NaturalLanguage.BareWordFallsBack | naturalLanguage.js:292-307 | a lower-case word without white space that the two space-free expressions miss falls back |
| NaturalLanguage.ExpenseOf | naturalLanguage.js:170-187 | a recorded expense has a non-empty description trimmed at both ends and a positive amount, and both groups were present |
| NaturalLanguage.EmptyAmount | naturalLanguage.js:183 | `parseFloat('')` is not a number |
| NaturalLanguage.ExpenseOrderFollowsPattern | naturalLanguage.js:13-22 | for the first four expressions, the text starts with a digit, `gastei` or `paguei` iff the expression is not `comprei`'s, so the destructuring takes the amount from the right group |
| NaturalLanguage.ExpenseRead | naturalLanguage.js:170-187 | a match with a one-word description and a readable positive amount records exactly those |
| NaturalLanguage.DigitLedDescriptionReadAsAmount | naturalLanguage.js:25 | `2 pães custou 10` records 2 described as `10`: the amount is chosen by the text's first character, not by the expression that matched |
| NaturalLanguage.AmountFirstFields | naturalLanguage.js:173-176 | a text starting with a digit, `gastei` or `paguei` reads its amount from group 1 |
| NaturalLanguage.DescriptionFirstFields | naturalLanguage.js:177-178 | any other text reads its description from group 1 |
| NaturalLanguage.SpentScenario | naturalLanguage.js:19 | `gastei 15 com almoço`, as the third expense expression reads it, records 15 for `almoço` |
| NaturalLanguage.BoughtScenario | naturalLanguage.js:16 | `comprei pão por 5,50`, as the second expense expression reads it, records 5.5 for `pão` |
| NaturalLanguage.CommaAmount | naturalLanguage.js:183 | `5,50` reads as 5.5 |
| NaturalLanguage.ExpenseCommaOrPoint | naturalLanguage.js:183 | an amount written with a decimal comma or a decimal point records the same expense, of value `i.f` |
| NaturalLanguage.IncomeOf | naturalLanguage.js:226-235 | throws iff group 1 is undefined; a recorded income has a positive amount and the description group 2 gives (or the default text) |
| NaturalLanguage.IncomeRead | naturalLanguage.js:226-235 | a readable positive amount is recorded with the income's description |
| NaturalLanguage.IncomeDescription | naturalLanguage.js:227-232 | the description is group 2 when non-empty, the default text otherwise, and group 2 as it is after `recebi N reais de` |
| NaturalLanguage.IncomeRefusedOnlyOnAmount | naturalLanguage.js:235-243 | an income is refused iff its amount does not read as a positive number |
| NaturalLanguage.IncomeNeverThrows | naturalLanguage.js:29-39 | every income expression defines group 1, so reading an income never throws |
| NaturalLanguage.ReceivedScenario | naturalLanguage.js:34 | `recebi 1000 de salário` records 1000 described as `salário` |
| NaturalLanguage.UndescribedIncomeScenario | naturalLanguage.js:227 | `recebi 100 de` records 100 with the default description |
| NaturalLanguage.IncomeCommaOrPoint | naturalLanguage.js:226 | an amount written with a decimal comma or a point records the same income |
| NaturalLanguage.ChartWords | naturalLanguage.js:157-162 | none (a throw) iff group 1 is undefined |
| NaturalLanguage.ChartThrowsOnlyOnThird | naturalLanguage.js:108-157 | only the third chart expression, which captures nothing, makes the chart route throw; the other two capture a chart type |
| NaturalLanguage.ThreeWords | naturalLanguage.js:162 | three space-free words joined by spaces split back into themselves |
| NaturalLanguage.MonthYearReadable | naturalLanguage.js:158-160 | the month and year as `String` writes them have no space and read back through `parseInt` |
| NaturalLanguage.ChartWordsRead | naturalLanguage.js:157-162 | a typed chart request is for the current month and year, which `grafico` reads back |
| NaturalLanguage.CurrentMonthChart | commands.js:537-556 | `grafico` on a chart type and a readable month and year passes its type and period checks |
| NaturalLanguage.ReportWordsAreCurrentMonth | naturalLanguage.js:266-271 | the words passed to `relatorio` for a report request read as the same parameters as no words: the current month, unfiltered |
| NaturalLanguage.NoWords | naturalLanguage.js:132 | `''.split(' ')` is one empty word |
| NaturalLanguage.SenderName | naturalLanguage.js:121 | the registered name is never empty |
| NaturalLanguage.Normalise | naturalLanguage.js:117 | the text is lower-case, with no white space at either end, and no longer than the body |
| NaturalLanguage.NormaliseIdempotent | naturalLanguage.js:117 | normalising again changes nothing |
| NaturalLanguage.ChartAction | naturalLanguage.js:155-164 | a throw iff group 1 is undefined, otherwise `grafico` runs |
| NaturalLanguage.ExpenseAction | naturalLanguage.js:167-220 | the format guidance, or an expense recorded with a positive amount |
| NaturalLanguage.IncomeAction | naturalLanguage.js:223-262 | the amount guidance, a throw iff group 1 is undefined, or an income recorded with a positive amount |
| NaturalLanguage.SpentSentenceRecorded | naturalLanguage.js:116-220 | with the declared expressions and the written-out `gastei` one, `gastei 15 com almoço` is recorded as an expense of 15 for `almoço` and confirmed |
| NaturalLanguage.ExpensePlanned | naturalLanguage.js:167-211 | a text classified as an expense whose match reads as one is recorded as that expense |
| NaturalLanguage.ThirdExpenseClassified | naturalLanguage.js:124-168 | a lower-case text starting with `g`, without the query letters, that matches the third expense expression is that expense |
| NaturalLanguage.RecordsArePositive | naturalLanguage.js:187-247 | only the expense and income routes record, and only positive amounts: an expense with its trimmed, non-empty description, an income with its description or the default |
| NaturalLanguage.AbortsOnlyOnUntypedChart | naturalLanguage.js:155-157 | with the declared expressions, the message throws iff a chart is asked for through the third chart expression |
| NaturalLanguage.ReportsAreCurrentMonth | naturalLanguage.js:131-271 | both routes to `relatorio` ask for the current month's full report |
| NaturalLanguage.ReportWordsPlanned | naturalLanguage.js:131-271 | the analysis expressions pass `relatorio` no words, the report expressions the month and the year |
| NaturalLanguage.ChartsAreCurrentMonth | naturalLanguage.js:155-164 | a chart asked for in words passes `grafico`'s checks: the answer is the chart or "no data", always "no data" for a bar chart |
| NaturalLanguage.ChartMatchTyped | naturalLanguage.js:108-112 | a chart match with group 1 defined holds a chart type |
| NaturalLanguage.ProcessMessage | naturalLanguage.js:116-308 | the sender is registered under the notify name (or `Usuário`); the normalised text's plan is carried out: a transaction is added exactly when an expense or income is recorded, the replies are those of the branch (for a chart, the refusal or the requested month's pie or line chart, as `Commands.GraficoAnswer` states), and no other table changes |
| NaturalLanguage.Carry | naturalLanguage.js:123-307 | the classified branch runs, through a command handler or in the router; only an aborted plan leaves the message unsettled, a transaction is added exactly for a record, and the replies are the branch's, the chart route's being `GraficoAnswer`'s |
| NaturalLanguage.Conclude | naturalLanguage.js:187-307 | settled iff the plan does not throw; a transaction is appended exactly for a record, and the branch's reply is sent |
| NaturalLanguage.Delegate | naturalLanguage.js:124-164 | the delegated branches run their handler with the words of that branch, send exactly what that handler promises (for `grafico`, the refusal or the month's pie or line chart) and change no table |
| Reminders.CreateReminder | reminders.js:10-18 | as written: the promise rejects with the TypeError of `db.run`, and no row is added |
| Reminders.CreateReminderConnected | reminders.js:10-27 | with a working connection: the table gains exactly one new, uncompleted row holding the given fields, under the next id, which is returned; ids stay increasing and due dates valid |
| Reminders.Status | reminders.js:57-58 | `atrasado` iff the days left are negative, `hoje` iff they are zero, `próximo` iff they are positive |
| Reminders.PendingView | reminders.js:49-59 | a listed row carries its category name, the days left as the source computes them from the moment of the call, and the status of those days |
| Reminders.PendingViewIntended | reminders.js:49-59 | the same view by calendar days; the status is `hoje` exactly when the due day is today |
| Reminders.TomorrowShownAsTodayAsWritten | reminders.js:51 | after midnight a reminder due tomorrow is shown with no days left and as `hoje`, while by calendar days it is one day away and `próximo` |
| Reminders.Views | reminders.js:36-60 | a view is listed iff it is of an uncompleted row of the user due between today and `daysAhead` days ahead |
| Reminders.ListPendingReminders | reminders.js:30-70 | the listing is ordered by due date and is a permutation of the user's pending views |
| Reminders.ListPendingRows | reminders.js:41-42 | every uncompleted row of the user due within the window is listed |
| Reminders.ListedWithinWindow | reminders.js:41-58 | a listed reminder has between 0 and `daysAhead` days left and is never shown as overdue |
| Reminders.FindReminder | reminders.js:76-86 | none iff no row has that id and owner; otherwise the index of a row with both |
| Reminders.FindsStoredRow | reminders.js:76-86 | with unique ids, looking a stored row up by its id and owner finds that very row |
| Reminders.TransactionType | reminders.js:92 | an expense iff the lower-cased description contains `pagamento`, otherwise income |
| Reminders.NextDue | reminders.js:121-130 | a next date exists exactly for the four patterns; it is valid and later than the due date: one day for daily, seven for weekly, the next calendar month for monthly and the next year in the same month for yearly |
| Reminders.Successor | reminders.js:117-143 | a successor exists iff the reminder is recurring with a pattern; it keeps the user and description under the new id |
| Reminders.Recorded | reminders.js:89-101 | at most one transaction, present iff registration was asked for and the amount is positive, with the user, amount and description of the reminder |
| Reminders.MarkCompleted | reminders.js:104-114 | exactly the rows with that id and owner become completed; every other row and the row count stay the same |
| Reminders.MarkCompletedKeepsInvariant | reminders.js:104-114 | completing rows keeps ids increasing below the next id and due dates valid |
| Reminders.CompleteReminder | reminders.js:73-78 | as written: the promise rejects with the TypeError of `db.get` before the reminder is read: no transaction, no completion, no successor |
| Reminders.CompleteReminderConnected | reminders.js:73-149 | with a working connection: a missing or foreign id changes nothing and reports not found; otherwise the recorded transaction is appended, the row is completed, the successor (if any) inserted under the next id, and the table invariant kept |
| Reminders.CompletedNotPending | reminders.js:41 | after completion the reminder no longer appears in its owner's pending listing |
| Reminders.Without | reminders.js:155 | a row survives iff it does not have both the id and the owner |
| Reminders.DeleteReminder | reminders.js:152-155 | as written: the promise rejects with the TypeError of `db.run`, and nothing is deleted |
| Reminders.DeleteReminderConnected | reminders.js:152-163 | with a working connection: the result is true iff the user had a row with that id; the table is that row removed, and the invariant is kept |
| Reminders.WithoutKeepsInvariant | reminders.js:152-163 | deleting rows keeps ids increasing below the next id and due dates valid |
| Reminders.DeletedReminderGone | reminders.js:152-163 | a deleted reminder is neither listed nor found any more |
| Reminders.DueToday | reminders.js:173-177 | a row is selected iff it is uncompleted, due today and owned by a registered user, paired with its category name |
| Reminders.DailyQuery | reminders.js:171-185 | the selected rows ordered by phone, a permutation of the rows due today |
| Reminders.Phones | reminders.js:188-194 | the phones of the grouping are pairwise distinct |
| Reminders.PhonesMembers | reminders.js:188-194 | a phone is grouped iff some row due today belongs to it |
| Reminders.OfPhoneMembers | reminders.js:190-193 | a user's group holds exactly that user's rows |
| Reminders.Lines | reminders.js:201-210 | one line per reminder, numbered from 1 in order |
| Reminders.Broadcast | reminders.js:197-217 | there is one message for each phone that has a reminder due |
| Reminders.BroadcastPerUser | reminders.js:187-217 | no two messages go to the same user, every row due today belongs to a messaged user, and no message is empty |
| Reminders.ReminderLines | reminders.js:201-210 | the loop builds exactly the numbered lines of the user's reminders |
| Reminders.GroupByUser | reminders.js:188-194 | the loop yields the phones in first-appearance order and maps each phone to its own rows, in query order |
| Reminders.SendGrouped | reminders.js:197-217 | the client's log grows by exactly the broadcast messages |
| Reminders.CheckDailyReminders | reminders.js:166-224 | as written: the query `db.all` throws, the catch returns 0, and no message is sent |
| Reminders.CheckDailyRemindersConnected | reminders.js:166-219 | with a working connection: the result is the number of rows due today, and the log grows by exactly one message per user holding that user's reminders |
| Reports.KindTallySpec | commands.js:14-23 | the per-category sums of a type name each category once, hold its sum, add up to the type's total, and name exactly the categories that occur |
| Reports.KindStep | commands.js:14-23 | one more row adds its amount to the sum and the tally of its own type only |
| Reports.KindSumAppend | commands.js:401 | sums over joined rows add up |
| Reports.CalculateTotals | commands.js:9-26 | the loop computes the income sum, the expense sum and the per-category expense sums of the rows |
| Reports.TotalsConsistent | commands.js:9-26 | the expense categories of the totals are distinct and add up to the expenses, each holding its own sum |
| Reports.ReportParamsOf | commands.js:148-169 | a category is read only under the `categoria` filter; with fewer than two words the current month and year are used |
| Reports.ReportParamsOfWords | commands.js:148-164 | words separated by single spaces give the padded month, the year, the lower-cased filter and, under `categoria`, the category |
| Reports.FilterRows | commands.js:187-191 | the filtered rows are the rows the filter keeps, never more |
| Reports.Shares | commands.js:244-261 | the category lines are sorted largest first and are one line per tallied category |
| Reports.ReportRows | commands.js:266-281 | a filtered report lists exactly the kept rows; an unfiltered one lists the first five and flags more iff there are over five |
| Reports.ReportSections | commands.js:199-263 | each category line holds that category's sum among the filtered rows, every expense category has a line, and each total is shown iff the filter asks for it |
| Reports.Tabulate | commands.js:199-209 | the loop yields the income and expense sums and both per-category tallies |
| Reports.NamesOf | commands.js:400-403 | the collected names are pairwise distinct |
| Reports.NamesOfMembers | commands.js:400-403 | a name is collected iff it is a non-empty category name of some row |
| Reports.CollectNames | commands.js:400-403 | the loop collects exactly the names, in first-appearance order |
| Reports.Changes | commands.js:406-421 | one change per collected name, in order, each comparing that name's sums in the two months |
| Reports.Compare | commands.js:424-429 | at most five changes are shown |
| Reports.ShownChangesAreCollected | commands.js:399-429 | the shown changes are the first five (or all, when fewer) by size of change, largest first, and each is the change of a category named in either month |
| Reports.LargestChangesShown | commands.js:399-429 | a change compares a category's expense sums in the two months; a category left out changed by no more than every shown one |
| Reports.MonthText | commands.js:468 | the month is written as two digits whose value is the month |
| Reports.PeriodSelects | commands.js:466-471 | the texts of `i` months back select exactly that month |
| Reports.MonthsRows | commands.js:466-472 | one row list per month asked for |
| Reports.AveragesMeaning | commands.js:514-524 | the category averages are sorted largest first, and each is its category's expense sum over the months divided by their number, with its share of the average expenses; there is a line for exactly the expense categories that occur in the months |
| Reports.SumMonth | commands.js:476-496 | one month's loop yields its income and expenses and extends the running category sums by its rows |
| Reports.SumMonths | commands.js:475-497 | the outer loop yields the income, expense and category sums over all the months' rows |
| Reports.MakeReport | commands.js:186-289 | the report built step by step is the report of the filtered, tabulated rows |
| Reports.CompareMonths | commands.js:358-429 | the comparison built step by step is the comparison of the two months |
| Reports.CollectMonths | commands.js:466-472 | the loop fetches the rows of the current month and the ones before it, one month at a time |
| Reports.AveragesOfMonths | commands.js:475-524 | the averages built step by step are the averages of all the months' rows |
| Responses.PickRandom | responses.js:7-9 | nothing is picked iff the array is empty; otherwise the pick is one of its elements |
| Responses.PickRandomEnds | responses.js:8 | a draw below `1/n` picks the first of `n` options, and a draw from `(n-1)/n` on picks the last |
| Responses.GreetingsFor | responses.js:16-35 | the morning set iff the hour is 5 to 11, the afternoon set iff 12 to 17, the night set otherwise |
| Responses.GetGreeting | responses.js:12-38 | the greeting is one of its hour's set, followed by the name's suffix |
| Responses.Suffix | responses.js:37 | `, name! ` for a non-empty name and `! ` for none |
| Responses.TierOf | responses.js:97-123 | the tiers partition the balances: above 1000, above 0 up to 1000, exactly 0, and negative or not a number |
| Responses.BalanceMessages | responses.js:99-123 | every tier has three messages |
| Responses.GetBalanceResponse | responses.js:95-124 | the reply is one of the three messages of the balance's tier |
| Responses.NotANumberIsLastTier | responses.js:97-123 | a balance text that starts with a lower-case letter reads as not a number and gets the negative-balance messages |
| Responses.Suggestion | responses.js:137-152 | any context other than the four known ones gets the general suggestion |
| Responses.GetNotUnderstoodResponse | responses.js:127-155 | the reply is one of the base phrases followed by the context's suggestion |
| Responses.GetCategoryEmoji | responses.js:66-68 | a listed category gets its emoji from the table and any other gets `💰` |
| Responses.UncapitalisedNameGetsDefault | responses.js:41-68 | a category name that does not start with an ASCII capital letter gets the default emoji |
| Sorting.SortDesc | charts.js:43-44 | `sort((a, b) => b - a)`: the result is a permutation of the input whose keys never increase |
| Sorting.SortDescMembers | charts.js:43-44 | every element of the sorted result comes from the input |
| Sorting.InsertDescWithKey | charts.js:43-44 | inserting an element puts it in front of every element with the same key and keeps the rest of that key's order |
| Sorting.SortDescStable | charts.js:43-44 | the sort is stable: for every key, the elements with that key come out in the order they went in, as ECMAScript requires of `Array.prototype.sort` |
| Sorting.Take | commands.js:427 | `slice(0, n)`: the first `n` elements, or all of them when there are fewer |
| Sorting.TakeKeepsLargest | commands.js:424-427 | in a sorted sequence every kept element's key is at least every dropped element's key |
| Tally.BumpSpec | commands.js:21 | adding `v` to `obj[k]`, read as 0 when absent, adds `v` to key `k` and to no other, adds `v` to the total, keeps keys unique, and appends a new key after the existing ones |
| Tally.PutSpec | charts.js:163 | `obj[k] = v` makes `k` read back as `v`, leaves every other key unchanged, keeps keys unique, and appends a new key last |
| Tally.UniqueByKeys | commands.js:14-23 | the keys of a tally are unique exactly when its key column has no repeats |
| TextOrder.Sort | categories.js:81 | `ORDER BY` on text keys: the result is a permutation of the rows in key order |

## Left out

- Calendar.ParseDate: dates are read strictly as `YYYY-MM-DD` (four-digit year, month 1 to 12, a day within the month). moment's forgiving parser also accepts text such as `31/12/2024`. So `Commands.Meta` and `Commands.Lembrete` answer with the bad-date reply for some dates that the source passes on to the (rejecting) feature call, which answers with the error reply instead.
- JsText.Lower: only `A`–`Z` and U+00C0–U+00DE are lower-cased, one character for one. Full Unicode case mapping is not modelled, including U+0130, whose lower case is two characters; `JsText.LowerChar` has the same limit.
- JsText.ParseFloat: reads leading blanks, an optional sign, digits and one decimal point. Exponents (`1e3`) and `Infinity` are not modelled.
- JsText.ParseInt: reads an optional sign and decimal digits. The `0x` prefix is not modelled, so `Commands.ReminderPick` and `Commands.Concluir` refuse `0x1`, which the source reads as 1.
- Amounts are exact reals, not IEEE doubles. Rounding and `toFixed` rendering are not modelled. A reply carries its numbers as values, not as formatted text, and month names from moment (`MMMM`) are left out.
- Charts.PercentKey: a NaN percentage sorts as a 0% one. The order `Array.prototype.sort` gives a NaN comparison result is not modelled.
- NaturalLanguage.ProcessMessage: the `catch` branches at naturalLanguage.js:212-218 and 254-260 are not modelled. A failing `addTransaction` is not a possible outcome here.
- Commands.ProcessCommand: the `catch` replies of the reading handlers (`relatorio`, `comparar`, `media`, `grafico`, `categorias`) are not modelled, because the modelled reads never fail. The writers' `catch` replies are modelled.
- Reminders.ListPendingReminders: the `catch` that returns `[]` is not modelled.
- One `now` stands for both moment's local time and SQLite's `CURRENT_TIMESTAMP`, which is UTC. Rows stamped near midnight can fall in another day in the source.
- Commands.ReminderPick: rows with equal due dates come out in one fixed order, while SQLite leaves their order unspecified. So which of two reminders due the same day `/concluir n` completes is fixed here and not in the source.
- Database.GetTransactions: rows with the same timestamp come out in one fixed order under `ORDER BY t.date DESC` (database.js:246), while SQLite leaves their order unspecified. So which of such rows make `/relatorio`'s first five is fixed here and not in the source.
- Database.PieRows: slices with equal totals come out in one fixed order under `ORDER BY total DESC` (database.js:280), while SQLite leaves their order unspecified.
- Database.Slices: the bare `CASE … END as description` of a `GROUP BY description` group (database.js:268-278) is taken from the group's first row (`GroupLabel`). SQLite picks an unspecified row, in practice usually the last, so a group whose rows mix categorised and uncategorised expenses can show a different label.
- Reminders.CreateReminderConnected: an absent amount is stored as 0.0, not NULL. The source compares it only with `> 0`, where the two agree.
- The regular-expression engine. Only `gastei … com …` and `comprei … por …` are written out. The other expressions are matchers assumed to behave as their declarations say (`PatternsAsDeclared`, `QueriesAsDeclared` in `NaturalLanguage`).
- `categories.js` `deleteCategory`: it reads its own `db` binding before initialising it, so it throws before doing any work. Its intended move-to-"Outros" is not modelled as working behaviour.
- `budget.js` `getBudget` and `listBudgets` are plain single-table selects, and no modelled handler calls them.
- Budget.CheckBudgetProgress: only the call without a category is modelled (budget.js:106-122). The single-category query at budget.js:92-105 is not, and no modelled handler uses it.
- `goals.js` `getGoalDetails` is not part of this model.
- `database.js` `registerUserWithLogin` and `addRecurring` are not part of this model, and no modelled handler calls them. `checkTableStructure` and the migration, repair and setup scripts are schema plumbing.
- `config.js`: the credential list is a parameter of `Database.VerifyCredentials`.
- Charts: the bar chart's widths (charts.js:19-33) are one abstract body, and the line chart's grid plotting (charts.js:66-152) is left out. Only its empty-data guard is modelled. Both are float drawing.
- `client.sendMessage` is an append to `Chat.Client.sent`. `console.log` output and the sqlite3 callback machinery are left out.
- Concurrency between users' messages: each message is one sequential call.
- Budget.SetBudgetConnected, Goals.CreateGoalConnected, Reminders.CreateReminderConnected and Categories.AddCategoryConnected: new ids come from a counter per table that never goes back. The tables are `INTEGER PRIMARY KEY` without AUTOINCREMENT, so SQLite gives max(rowid)+1 and reuses the id of a deleted last row. These connected halves are not what the program runs.
- Tally.BumpSpec: a JavaScript object used as a dictionary (`categorias[name]` at commands.js:21, `pieData[description]` at charts.js:163) is modelled as a list of keys in insertion order. Integer-like keys such as `"10"` enumerate first in ascending order, which changes the order of ties after the stable sorts, and a `__proto__` key is not stored; neither is modelled.
- Tally.PutSpec: the same limit for `obj[k] = v`. An integer-like key goes first, not last, and `__proto__` is dropped in the source. Object keys are also strings, so `pieData[item.description]` (charts.js:163) turns a NULL label into the key `"null"`, which merges with a category literally named `null`; `Charts.PieDataOf` keys on an optional string and keeps the two slices apart.
- Reminders.CheckDailyRemindersConnected: grouping by phone keeps first-seen order. Phones that are integer-like keys (below 2^32) would enumerate first in `Object.entries`; this is not modelled.
- Responses.GetCategoryEmoji: `categoryEmojis[category] || "💰"` returns an inherited member for names such as `constructor`, `toString` or `__proto__` (a function or an object, shown as its text). The model gives 💰 for every name outside the table.
- Responses.UncapitalisedNameGetsDefault: holds for the model; in the source it fails for the inherited names above.

## Findings

| source | as written | input that shows it | evidently intended | confidence | as-written member | corrected member |
|---|---|---|---|---|---|---|
| charts.js:38-54 | `bars[index]` with `index = floor(percent / 10)`, and `bars[0]` is the full bar, so larger shares draw shorter bars | a 95% slice draws one `▰`, a 5% slice draws ten | the filled length grows with the share | not executed | Charts.PieBarsInverted | Charts.FilledSegmentsMonotonic |
| budget.js:84-115 | spending counts `date BETWEEN start AND end` of the month, both day texts, against stored timestamps `YYYY-MM-DD HH:MM:SS` | a purchase on the last day of the month at 10:00 is not counted | the whole last day counts | not executed | Budget.LastDayPurchaseMissed | Budget.SpentAppend |
| commands.js:35-58 | `meta` and `lembrete` are aliases of `metas` and `lembretes`, which are not handlers | `/meta 5000 viagem 2025-12-31` answers "Comando não encontrado" | the aliases lead to the `meta` and `lembrete` handlers | not executed | Commands.GoalAndReminderUnreachableAsWritten | Commands.AliasesReachHandlers |
| reminders.js:51 | days left are `moment(due).diff(moment(), 'days')`, from the current time to the due day's midnight, truncated | at 10:00, a reminder due tomorrow shows 0 days left and status `hoje` | calendar days, `hoje` only on the due day | not executed | Reminders.TomorrowShownAsTodayAsWritten | Reminders.PendingViewIntended |
| goals.js:52-56 | `completed = CASE WHEN current_amount >= target_amount` reads the row before the update | once the lookup works, a goal at 900 of 1000 given 100 more is reported completed but stored open, and stays in the open listing. As written the statement is never reached: `updateGoalProgress` rejects at `db.get` (next row), and nothing in this core calls it | the stored flag tests the new amount | not executed | Goals.ReachedGoalStaysOpenAsWritten | Goals.ReachedGoalCloses |
| database.js:357-370 | the feature modules (budget.js:5, goals.js:5, reminders.js:5, categories.js:5) hold `require('../database')` and call `db.get`, `db.run` and `db.all`, which the module does not export (`Database.StatementsNotExported`); every feature write has an as-written method that rejects and a `…Connected` one | `/orcamento Alimentação 500` answers "Ocorreu um erro ao definir o orçamento." and stores nothing; `/concluir 1` answers "Ocorreu um erro ao concluir o lembrete."; `checkDailyReminders` returns 0 | the statements run on the sqlite connection (`db.getConnection()`), as the reads in the same files do | not executed | Commands.SetRequestedBudget | Commands.SetRequestedBudgetConnected |
