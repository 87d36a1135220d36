/**
 * The varied reply texts: the greeting by time of day, the balance message by
 * tier, the "not understood" message by context and the category emojis.
 * `Math.random()` and the current hour are parameters.
 */
module Responses {
  import opened Wrappers
  import opened JsText

  /** `array[Math.floor(r * array.length)]` for a draw `0 <= r < 1`; `undefined` for an empty array. */
  function PickRandom<T>(options: seq<T>, r: real): (x: Option<T>)
    requires 0.0 <= r < 1.0
    ensures options == [] <==> x.None?
    ensures x.Some? ==> x.value in options
  {
    if options == [] then None
    else
      var i := (r * |options| as real).Floor;
      ScaledDraw(r, |options|);
      Some(options[i])
  }

  /** The draw `0 <= r < 1/n` picks the first of `n` options, and `(n-1)/n <= r < 1` the last. */
  lemma PickRandomEnds<T>(options: seq<T>, r: real)
    requires options != [] && 0.0 <= r < 1.0
    ensures r * (|options| as real) < 1.0 ==> PickRandom(options, r) == Some(options[0])
    ensures r * (|options| as real) >= (|options| - 1) as real ==> PickRandom(options, r) == Some(options[|options| - 1])
  {
    ScaledDraw(r, |options|);
  }

  /** A draw scaled by `n` falls in `[0, n)`, so its floor is an index. */
  lemma ScaledDraw(r: real, n: nat)
    requires 0.0 <= r < 1.0 && n >= 1
    ensures 0.0 <= r * n as real < n as real
    ensures 0 <= (r * n as real).Floor < n
  {
    assert r * n as real <= 1.0 * n as real - (1.0 - r) * n as real;
  }

  const MorningGreetings: seq<string> := ["Bom dia", "Olá, bom dia", "Oi! Bom dia"]
  const AfternoonGreetings: seq<string> := ["Boa tarde", "Olá, boa tarde", "Oi! Boa tarde"]
  const NightGreetings: seq<string> := ["Boa noite", "Olá, boa noite", "Oi! Boa noite"]

  /** The greeting set for an hour: morning from 5 to 11, afternoon from 12 to 17, night otherwise. */
  function GreetingsFor(hour: int): (g: seq<string>)
    ensures 5 <= hour < 12 <==> g == MorningGreetings
    ensures 12 <= hour < 18 <==> g == AfternoonGreetings
    ensures (hour < 5 || hour >= 18) <==> g == NightGreetings
  {
    if hour >= 5 && hour < 12 then MorningGreetings
    else if hour >= 12 && hour < 18 then AfternoonGreetings
    else NightGreetings
  }

  /** `getGreeting`: a greeting of the hour's set, then `, name! ` for a name or `! ` without one. */
  function GetGreeting(userName: string, hour: int, r: real): (g: string)
    requires 0.0 <= r < 1.0
    ensures exists greeting :: greeting in GreetingsFor(hour) && g == greeting + Suffix(userName)
  {
    var greeting := PickRandom(GreetingsFor(hour), r).value;
    assert greeting in GreetingsFor(hour);
    greeting + Suffix(userName)
  }

  function Suffix(userName: string): (s: string)
    ensures userName != "" ==> s == ", " + userName + "! "
    ensures userName == "" ==> s == "! "
  {
    if userName != "" then ", " + userName + "! " else "! "
  }

  /** The balance tiers of `getBalanceResponse`. */
  datatype BalanceTier = Wealthy | Positive | Zero | Negative

  /**
   * The tier of `parseFloat(balance)`: above 1000, above 0, exactly 0, and
   * everything else, which includes negative values and text that is not a number.
   */
  function TierOf(balance: string): (t: BalanceTier)
    ensures t == Wealthy <==> ParseFloat(balance).Some? && ParseFloat(balance).value > 1000.0
    ensures t == Positive <==> ParseFloat(balance).Some? && 0.0 < ParseFloat(balance).value <= 1000.0
    ensures t == Zero <==> ParseFloat(balance) == Some(0.0)
    ensures t == Negative <==> ParseFloat(balance).None? || ParseFloat(balance).value < 0.0
  {
    match ParseFloat(balance)
    case None => Negative
    case Some(v) => if v > 1000.0 then Wealthy else if v > 0.0 then Positive else if v == 0.0 then Zero else Negative
  }

  /** The three messages of a tier, with the greeting and the balance text spliced in. */
  function BalanceMessages(tier: BalanceTier, greeting: string, balance: string): (m: seq<string>)
    ensures |m| == 3
  {
    match tier
    case Wealthy => [
      greeting + "Seu saldo atual é de *R$ " + balance + "* 🤑",
      greeting + "Você tem *R$ " + balance + "* disponível. Muito bom! 👏",
      "Seu saldo é de *R$ " + balance + "*. Parece que as finanças vão bem! 📈"]
    case Positive => [
      greeting + "Seu saldo atual é de *R$ " + balance + "* 💰",
      greeting + "Você tem *R$ " + balance + "* disponível.",
      "Seu saldo é de *R$ " + balance + "*. ✅"]
    case Zero => [
      greeting + "Seu saldo atual é *R$ " + balance + "* 😐",
      greeting + "Você está com *R$ " + balance + "* na conta. Está equilibrado.",
      "Seu saldo é *R$ " + balance + "*. Hora de planejar os próximos passos! 🤔"]
    case Negative => [
      greeting + "Seu saldo atual é de *R$ " + balance + "* ⚠️",
      greeting + "Você está com saldo negativo: *R$ " + balance + "* 😟",
      "Seu saldo é de *R$ " + balance + "*. Vamos analisar como melhorar isso! 📊"]
  }

  /** `getBalanceResponse`: one of the three messages of the balance's tier (two random draws: greeting, message). */
  function GetBalanceResponse(balance: string, userName: string, hour: int, r1: real, r2: real): (m: string)
    requires 0.0 <= r1 < 1.0 && 0.0 <= r2 < 1.0
    ensures m in BalanceMessages(TierOf(balance), GetGreeting(userName, hour, r1), balance)
  {
    PickRandom(BalanceMessages(TierOf(balance), GetGreeting(userName, hour, r1), balance), r2).value
  }

  /**
   * Text that is not a number (NaN) falls through every comparison into the
   * last tier: a balance text that starts with a lower-case letter, `abc`
   * say, is shown the negative-balance messages.
   */
  lemma NotANumberIsLastTier(balance: string)
    requires balance != [] && 'a' <= balance[0] <= 'z'
    ensures TierOf(balance) == Negative
  {
    assert !IsSpace(balance[0]);
    assert TrimStart(balance) == balance;
    assert Unsigned(balance) == balance;
    assert Digits(balance) == [];
    assert balance[0..] == balance;
    assert DecimalPrefix(balance).None?;
    assert ParseFloat(balance).None?;
  }

  const BasePhrases: seq<string> := [
    "Hmm, não consegui entender exatamente o que você quer. ",
    "Desculpe, não entendi completamente. ",
    "Não captei o que você precisa. ",
    "Não compreendi o que você gostaria. "]

  const GeneralSuggestion: string := "Você pode registrar despesas, receitas, verificar saldo ou gerar relatórios. Digite /ajuda para ver todas as opções."

  /** The suggestion of a context; any context but the four known ones gets the general suggestion. */
  function Suggestion(context: string): (s: string)
    ensures context !in {"expense", "income", "balance", "report"} ==> s == GeneralSuggestion
  {
    if context == "expense" then "Tente algo como \"Gastei 50 com comida\" ou use /despesa [valor] [descrição]."
    else if context == "income" then "Tente algo como \"Recebi 1000 de salário\" ou use /receita [valor] [descrição]."
    else if context == "balance" then "Para ver seu saldo, digite \"Qual meu saldo?\" ou simplesmente /saldo."
    else if context == "report" then "Para um relatório, peça \"Como estão minhas finanças?\" ou use /relatorio."
    else GeneralSuggestion
  }

  /** `getNotUnderstoodResponse`: one base phrase followed by the context's suggestion. */
  function GetNotUnderstoodResponse(context: string, r: real): (m: string)
    requires 0.0 <= r < 1.0
    ensures exists phrase :: phrase in BasePhrases && m == phrase + Suggestion(context)
  {
    var phrase := PickRandom(BasePhrases, r).value;
    assert phrase in BasePhrases;
    phrase + Suggestion(context)
  }

  /** The emoji table of the eighteen default categories. */
  const CategoryEmojis: map<string, string> := map[
    "Alimentação" := "🍔", "Moradia" := "🏠", "Transporte" := "🚗", "Saúde" := "💊",
    "Educação" := "📚", "Lazer" := "🎮", "Vestuário" := "👕", "Serviços" := "🔧",
    "Impostos" := "📝", "Outros" := "📦",
    "Salário" := "💼", "Freelance" := "💻", "Investimentos" := "📈", "Presente" := "🎁",
    "Bônus" := "🏆", "Reembolso" := "↩️", "Aluguel" := "🔑", "Vendas" := "🏷️"]

  /** `getCategoryEmoji`: the table's emoji, or `'💰'` for a category it does not list. */
  function GetCategoryEmoji(category: string): (e: string)
    ensures category in CategoryEmojis ==> e == CategoryEmojis[category]
    ensures category !in CategoryEmojis ==> e == "💰"
  {
    if category in CategoryEmojis then CategoryEmojis[category] else "💰"
  }

  /**
   * Every name in the table starts with an ASCII capital, so a category name
   * that does not (`alimentação`, as `suggestCategory` spells it) gets the
   * default emoji.
   */
  lemma UncapitalisedNameGetsDefault(category: string)
    requires category == [] || !('A' <= category[0] <= 'Z')
    ensures GetCategoryEmoji(category) == "💰"
  {
    forall name | name in CategoryEmojis ensures name != [] && 'A' <= name[0] <= 'Z' {
    }
  }
}
