/**
 * The `categories` feature: the default categories a new user is given, the
 * listing ordered by type and name, renaming, and the keyword-based
 * suggestion of a category for a description.
 */
module Categories {
  import opened Wrappers
  import opened JsText
  import opened Database
  import TextOrder

  const DefaultExpenses: seq<string> := [
    "Alimentação", "Moradia", "Transporte", "Saúde", "Educação",
    "Lazer", "Vestuário", "Serviços", "Impostos", "Outros"]
  const DefaultIncome: seq<string> := [
    "Salário", "Freelance", "Investimentos", "Presente", "Bônus",
    "Reembolso", "Aluguel", "Vendas", "Outros"]

  /** The (name, type) pairs `initUserCategories` inserts, in insertion order. */
  function DefaultPairs(): (d: seq<(string, string)>)
    ensures |d| == 19
    ensures forall i :: 0 <= i < 10 ==> d[i] == (DefaultExpenses[i], "despesa")
    ensures forall i :: 10 <= i < 19 ==> d[i] == (DefaultIncome[i - 10], "receita")
  {
    seq(10, i requires 0 <= i < 10 => (DefaultExpenses[i], "despesa"))
    + seq(9, i requires 0 <= i < 9 => (DefaultIncome[i], "receita"))
  }

  /** The rows the first `n` default inserts produce for `phone`, numbered from `start`. */
  function Seeded(phone: string, start: nat, n: nat): (r: seq<Category>)
    requires n <= 19
    ensures |r| == n
    ensures forall i :: 0 <= i < n ==> r[i] == Category(start + i, phone, DefaultPairs()[i].0, DefaultPairs()[i].1)
  {
    seq(n, i requires 0 <= i < n => Category(start + i, phone, DefaultPairs()[i].0, DefaultPairs()[i].1))
  }

  /** The first `n` default inserts, one `addCategory` each. */
  method InsertDefaults(db: Db, phone: string, n: nat)
    requires n <= 19 && IdsBelow(db.categories, CategoryId, db.nextCategoryId)
    modifies db`categories, db`nextCategoryId
    ensures IdsBelow(db.categories, CategoryId, db.nextCategoryId)
    ensures db.nextCategoryId == old(db.nextCategoryId) + n
    ensures db.categories == old(db.categories) + Seeded(phone, old(db.nextCategoryId), n)
  {
    ghost var start := db.nextCategoryId;
    ghost var before := db.categories;
    var defaults := DefaultPairs();
    var i := 0;
    while i < n
      invariant 0 <= i <= n
      invariant IdsBelow(db.categories, CategoryId, db.nextCategoryId)
      invariant db.nextCategoryId == start + i
      invariant db.categories == before + Seeded(phone, start, i)
    {
      var id := AddCategoryConnected(db, phone, defaults[i].0, defaults[i].1);
      SeededStep(phone, start, i);
      i := i + 1;
    }
  }

  /** One more default insert appends the next default row. */
  lemma SeededStep(phone: string, start: nat, i: nat)
    requires i < 19
    ensures Seeded(phone, start, i + 1) == Seeded(phone, start, i) + [Category(start + i, phone, DefaultPairs()[i].0, DefaultPairs()[i].1)]
  {
  }

  /** `checkUserHasCategories`: `COUNT(*) > 0` over the user's rows. */
  predicate HasCategories(categories: seq<Category>, phone: string)
  {
    exists i :: 0 <= i < |categories| && categories[i].userPhone == phone
  }

  /**
   * `addCategory` as written: the INSERT is issued as `db.run`, which the
   * database module object does not export, so the promise rejects and no row
   * is added.
   */
  method AddCategory(db: Db, phone: string, name: string, kind: string) returns (r: Settled<nat>)
    ensures r == NotAFunction("run") && "run" !in Exports
  {
    r := NotAFunction("run");
  }

  /** `addCategory` with a working connection: one row appended under the next id, which is returned. */
  method AddCategoryConnected(db: Db, phone: string, name: string, kind: string) returns (id: nat)
    requires IdsBelow(db.categories, CategoryId, db.nextCategoryId)
    modifies db`categories, db`nextCategoryId
    ensures IdsBelow(db.categories, CategoryId, db.nextCategoryId)
    ensures id == old(db.nextCategoryId) && db.nextCategoryId == id + 1
    ensures db.categories == old(db.categories) + [Category(id, phone, name, kind)]
  {
    id := db.nextCategoryId;
    db.categories := db.categories + [Category(id, phone, name, kind)];
    db.nextCategoryId := id + 1;
  }

  /**
   * How many default rows `initUserCategories` writes: none when the user
   * already has categories or the count query fails (`fault == Some(0)`);
   * otherwise the inserts before the one that fails (`fault == Some(k)` makes
   * insert number `k`, counted from 1, fail), or all 19.
   */
  function SeedCount(had: bool, fault: Option<nat>): (n: nat)
    ensures n <= 19
    ensures had ==> n == 0
    ensures !had && fault.None? ==> n == 19
  {
    if had then 0
    else match fault
      case None => 19
      case Some(k) => if k == 0 then 0 else if k <= 19 then k - 1 else 19
  }

  /** Whether `initUserCategories` reaches `return true`: no statement it issues fails. */
  function InitSucceeds(had: bool, fault: Option<nat>): (ok: bool)
    ensures fault.None? ==> ok
    ensures fault == Some(0) ==> !ok
    ensures had ==> (ok <==> fault != Some(0))
  {
    match fault
    case None => true
    case Some(k) => k != 0 && (had || k > 19)
  }

  /**
   * `initUserCategories` as written: `checkUserHasCategories` issues its count
   * as `db.get`, which the database module object does not export; the catch
   * turns the TypeError into `false` before any default is inserted. This is
   * the connected version with the count query failing (`fault == Some(0)`).
   */
  method InitUserCategories(db: Db, phone: string) returns (ok: bool)
    ensures ok == InitSucceeds(HasCategories(db.categories, phone), Some(0))
    ensures SeedCount(HasCategories(db.categories, phone), Some(0)) == 0
    ensures !ok && "get" !in Exports
  {
    ok := false;
  }

  /**
   * `initUserCategories` with a working connection: when the user has no
   * categories, the ten expense and nine income defaults are inserted one by
   * one; a failing statement ends the loop (rows already inserted stay) and the
   * result is false.
   */
  method InitUserCategoriesConnected(db: Db, phone: string, fault: Option<nat>) returns (ok: bool)
    requires IdsBelow(db.categories, CategoryId, db.nextCategoryId)
    modifies db`categories, db`nextCategoryId
    ensures IdsBelow(db.categories, CategoryId, db.nextCategoryId)
    ensures ok == InitSucceeds(HasCategories(old(db.categories), phone), fault)
    ensures db.categories == old(db.categories)
              + Seeded(phone, old(db.nextCategoryId), SeedCount(HasCategories(old(db.categories), phone), fault))
    ensures ok ==> HasCategories(db.categories, phone)
  {
    ghost var start := db.nextCategoryId;
    ghost var before := db.categories;
    if fault == Some(0) {
      return false;
    }
    var had := exists i :: 0 <= i < |db.categories| && db.categories[i].userPhone == phone;
    if !had {
      var n := SeedCount(false, fault);
      InsertDefaults(db, phone, n);
      ok := n == 19;
      if ok {
        assert db.categories[|before|].userPhone == phone;
      }
    } else {
      assert Seeded(phone, start, 0) == [];
      ok := true;
    }
  }

  /**
   * Seeding is idempotent: once a user has categories, another call inserts
   * nothing, whatever fails.
   */
  lemma SecondInitAddsNothing(categories: seq<Category>, phone: string, start: nat, fault: Option<nat>)
    requires HasCategories(categories, phone)
    ensures categories + Seeded(phone, start, SeedCount(HasCategories(categories, phone), fault)) == categories
  {
  }

  /** A complete seeding gives the user exactly ten expense and nine income categories. */
  lemma SeededKinds(phone: string, start: nat)
    ensures |Filter(Seeded(phone, start, 19), phone, Some("despesa"))| == 10
    ensures |Filter(Seeded(phone, start, 19), phone, Some("receita"))| == 9
  {
    var s := Seeded(phone, start, 19);
    var e, r := s[..10], s[10..];
    assert s == e + r;
    SeededRows(phone, start);
    KindCount(e, r, phone, "despesa", "receita");
    KindCount(r, e, phone, "receita", "despesa");
    FilterSplit(e, r, phone, Some("despesa"));
    FilterSplit(e, r, phone, Some("receita"));
  }

  lemma SeededRows(phone: string, start: nat)
    ensures forall i :: 0 <= i < 10 ==> Seeded(phone, start, 19)[i].userPhone == phone && Seeded(phone, start, 19)[i].kind == "despesa"
    ensures forall i :: 10 <= i < 19 ==> Seeded(phone, start, 19)[i].userPhone == phone && Seeded(phone, start, 19)[i].kind == "receita"
  {
  }

  lemma KindCount(mine: seq<Category>, others: seq<Category>, phone: string, kind: string, other: string)
    requires kind != other && kind != ""
    requires forall i :: 0 <= i < |mine| ==> mine[i].userPhone == phone && mine[i].kind == kind
    requires forall i :: 0 <= i < |others| ==> others[i].kind == other
    ensures Filter(mine, phone, Some(kind)) == mine
    ensures Filter(others, phone, Some(kind)) == []
  {
    FilterAll(mine, phone, Some(kind));
    FilterNone(others, phone, Some(kind));
  }

  /** The type filter of `listCategories`: only `if (type)`, so an empty type filters nothing. */
  predicate Selected(c: Category, phone: string, kind: Option<string>)
  {
    c.userPhone == phone && (kind.None? || kind.value == "" || c.kind == kind.value)
  }

  /** The user's rows that pass the type filter, in table order. */
  function Filter(categories: seq<Category>, phone: string, kind: Option<string>): (r: seq<Category>)
    ensures forall c :: c in r <==> c in categories && Selected(c, phone, kind)
  {
    if categories == [] then []
    else (if Selected(categories[0], phone, kind) then [categories[0]] else [])
         + Filter(categories[1..], phone, kind)
  }

  lemma {:induction false} FilterSplit(a: seq<Category>, b: seq<Category>, phone: string, kind: Option<string>)
    ensures Filter(a + b, phone, kind) == Filter(a, phone, kind) + Filter(b, phone, kind)
  {
    if a != [] {
      var h := if Selected(a[0], phone, kind) then [a[0]] else [];
      assert (a + b)[0] == a[0] && (a + b)[1..] == a[1..] + b;
      assert Filter(a + b, phone, kind) == h + Filter(a[1..] + b, phone, kind);
      FilterSplit(a[1..], b, phone, kind);
    } else {
      assert a + b == b;
    }
  }

  lemma {:induction false} FilterAll(s: seq<Category>, phone: string, kind: Option<string>)
    requires forall i :: 0 <= i < |s| ==> Selected(s[i], phone, kind)
    ensures Filter(s, phone, kind) == s
  {
    if s != [] {
      FilterAll(s[1..], phone, kind);
    }
  }

  lemma {:induction false} FilterNone(s: seq<Category>, phone: string, kind: Option<string>)
    requires forall i :: 0 <= i < |s| ==> !Selected(s[i], phone, kind)
    ensures Filter(s, phone, kind) == []
  {
    if s != [] {
      FilterNone(s[1..], phone, kind);
    }
  }

  /** `ORDER BY type, name`. */
  function CategoryKey(c: Category): (string, string)
  {
    (c.kind, c.name)
  }

  /**
   * `listCategories`: the user's categories (of the given type, when one is
   * given) ordered by type and then name; every selected row once, no other.
   */
  function ListCategories(categories: seq<Category>, phone: string, kind: Option<string>): (r: seq<Category>)
    ensures TextOrder.Ordered(r, CategoryKey)
    ensures multiset(r) == multiset(Filter(categories, phone, kind))
  {
    TextOrder.Sort(Filter(categories, phone, kind), CategoryKey)
  }

  /** A row is listed exactly when it is the user's and has the requested type. */
  lemma ListCategoriesSelects(categories: seq<Category>, phone: string, kind: Option<string>, c: Category)
    ensures c in ListCategories(categories, phone, kind) <==> c in categories && Selected(c, phone, kind)
  {
    var r := ListCategories(categories, phone, kind);
    assert c in r <==> c in multiset(r);
  }

  /** The categories table after `UPDATE categories SET name = ? WHERE id = ? AND user_phone = ?`. */
  function Renamed(categories: seq<Category>, phone: string, id: nat, newName: string): (r: seq<Category>)
    ensures |r| == |categories|
  {
    seq(|categories|, i requires 0 <= i < |categories| =>
      if categories[i].id == id && categories[i].userPhone == phone then categories[i].(name := newName)
      else categories[i])
  }

  /**
   * `renameCategory` as written: `db.run` is not a function of the database
   * module object, so the promise rejects and no row is renamed.
   */
  method RenameCategory(db: Db, phone: string, id: nat, newName: string) returns (r: Settled<bool>)
    ensures r == NotAFunction("run") && "run" !in Exports
  {
    r := NotAFunction("run");
  }

  /** `renameCategory` with a working connection: true iff some row had that id and belonged to the user. */
  method RenameCategoryConnected(db: Db, phone: string, id: nat, newName: string) returns (changed: bool)
    modifies db`categories
    ensures db.categories == Renamed(old(db.categories), phone, id, newName)
    ensures changed <==> exists i :: 0 <= i < |old(db.categories)| && old(db.categories)[i].id == id
                                     && old(db.categories)[i].userPhone == phone
  {
    changed := exists i :: 0 <= i < |db.categories| && db.categories[i].id == id && db.categories[i].userPhone == phone;
    db.categories := Renamed(db.categories, phone, id, newName);
  }

  /**
   * Renaming keeps every id, owner and type, and another user's rows (and so
   * that user's listing) are exactly what they were.
   */
  lemma RenameIsLocal(categories: seq<Category>, phone: string, id: nat, newName: string, other: string, kind: Option<string>)
    requires other != phone
    ensures forall i :: 0 <= i < |categories| ==>
              Renamed(categories, phone, id, newName)[i].(name := categories[i].name) == categories[i]
    ensures ListCategories(Renamed(categories, phone, id, newName), other, kind) == ListCategories(categories, other, kind)
  {
    FilterRenamed(categories, phone, id, newName, other, kind);
  }

  lemma {:induction false} FilterRenamed(categories: seq<Category>, phone: string, id: nat, newName: string, other: string, kind: Option<string>)
    requires other != phone
    ensures Filter(Renamed(categories, phone, id, newName), other, kind) == Filter(categories, other, kind)
  {
    if categories != [] {
      FilterRenamed(categories[1..], phone, id, newName, other, kind);
      assert Renamed(categories, phone, id, newName)[1..] == Renamed(categories[1..], phone, id, newName);
    }
  }

  /** Renaming preserves the id invariant of the table. */
  lemma RenameKeepsIds(categories: seq<Category>, phone: string, id: nat, newName: string, next: nat)
    requires IdsBelow(categories, CategoryId, next)
    ensures IdsBelow(Renamed(categories, phone, id, newName), CategoryId, next)
  {
    var r := Renamed(categories, phone, id, newName);
    assert forall i :: 0 <= i < |r| ==> r[i].id == categories[i].id;
  }

  /** The keyword table of `suggestCategory`, per transaction type, in declaration order. */
  const ExpenseKeywords: seq<(string, seq<string>)> := [
    ("alimentação", ["restaurante", "mercado", "supermercado", "padaria", "lanche", "comida", "ifood", "delivery", "pizza"]),
    ("moradia", ["aluguel", "condomínio", "iptu", "reforma", "manutenção", "casa", "apartamento"]),
    ("transporte", ["gasolina", "combustível", "uber", "99", "táxi", "metrô", "ônibus", "estacionamento", "pedágio"]),
    ("saúde", ["farmácia", "remédio", "hospital", "consulta", "médico", "plano de saúde", "dentista", "exame"]),
    ("educação", ["escola", "faculdade", "curso", "livro", "material escolar", "mensalidade"]),
    ("lazer", ["cinema", "viagem", "hotel", "passeio", "ingresso", "show", "netflix", "spotify", "assinatura", "jogos"]),
    ("vestuário", ["roupa", "calçado", "tênis", "sapato", "vestido", "camisa", "bolsa"]),
    ("serviços", ["energia", "água", "luz", "internet", "telefone", "celular", "streaming", "limpeza", "conta", "fatura"]),
    ("impostos", ["imposto", "taxa", "tributo", "ir", "ipva"])]

  const IncomeKeywords: seq<(string, seq<string>)> := [
    ("salário", ["salário", "pagamento", "contracheque", "folha", "remuneração"]),
    ("freelance", ["freelance", "freela", "projeto", "serviço", "consultoria"]),
    ("investimentos", ["dividendo", "juros", "rendimento", "investimento", "aluguel", "renda"]),
    ("presente", ["presente", "doação", "gift", "prêmio"]),
    ("reembolso", ["reembolso", "estorno", "devolução", "restituição", "ressarcimento"])]

  /** `keywords[type] || {}`: an unknown type has no entries. */
  function KeywordsFor(kind: string): seq<(string, seq<string>)>
  {
    if kind == "despesa" then ExpenseKeywords
    else if kind == "receita" then IncomeKeywords
    else []
  }

  /** Some term of the list occurs in the text. */
  predicate AnyTerm(text: string, terms: seq<string>)
  {
    exists j :: 0 <= j < |terms| && Contains(text, terms[j])
  }

  /** The index of the first entry with a term in the text. */
  function FirstEntry(text: string, table: seq<(string, seq<string>)>): (r: Option<nat>)
    ensures r.Some? ==> r.value < |table| && AnyTerm(text, table[r.value].1)
                        && forall i :: 0 <= i < r.value ==> !AnyTerm(text, table[i].1)
    ensures r.None? ==> forall i :: 0 <= i < |table| ==> !AnyTerm(text, table[i].1)
  {
    if table == [] then None
    else if AnyTerm(text, table[0].1) then Some(0)
    else match FirstEntry(text, table[1..])
      case None => None
      case Some(k) => Some(k + 1)
  }

  /**
   * `suggestCategory`: the first category of the type's table, in declaration
   * order, with a term contained in the lower-cased description; `'Outros'`
   * when none has one (always, for a type other than despesa/receita).
   */
  function SuggestCategory(description: string, kind: string): (r: string)
    ensures (r == "Outros" && forall i :: 0 <= i < |KeywordsFor(kind)| ==> !AnyTerm(Lower(description), KeywordsFor(kind)[i].1))
         || (exists i :: 0 <= i < |KeywordsFor(kind)| && r == KeywordsFor(kind)[i].0
                         && AnyTerm(Lower(description), KeywordsFor(kind)[i].1)
                         && forall i' :: 0 <= i' < i ==> !AnyTerm(Lower(description), KeywordsFor(kind)[i'].1))
    ensures kind != "despesa" && kind != "receita" ==> r == "Outros"
  {
    var table := KeywordsFor(kind);
    match FirstEntry(Lower(description), table)
    case None => "Outros"
    case Some(i) => table[i].0
  }

  /**
   * The scan is ordered: a description with a term of the `i`-th entry is
   * filed under that entry or an earlier one, never a later one and never
   * `'Outros'`: a description with a food term and a transport term is food.
   */
  lemma EarlierCategoryWins(description: string, kind: string, i: nat)
    requires i < |KeywordsFor(kind)| && AnyTerm(Lower(description), KeywordsFor(kind)[i].1)
    ensures exists j :: 0 <= j <= i && SuggestCategory(description, kind) == KeywordsFor(kind)[j].0
  {
    var table := KeywordsFor(kind);
    var k := FirstEntry(Lower(description), table);
    assert k.Some? && k.value <= i;
  }
}
