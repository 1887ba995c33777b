/**
 * The DRE (income statement) report page: the request guard, the tab chosen
 * after a report arrives, the per-day detail filter and totals, the
 * top-level options, and the CSV export.
 */
module DreReport {
  import opened Common
  import ErrorBody

  datatype Totals = Totals(revenues: real, expenses: real, result: real)

  datatype MonthRow = MonthRow(month: string, revenues: real, expenses: real, result: real)

  datatype AccountRow = AccountRow(code: string, name: Option<string>, income: real, expense: real, total: real)

  datatype Classic = Classic(
    receitaTotal: real,
    custosVariaveis: real,
    margemContribuicao: real,
    custosFixos: real,
    resultadoOperacionalLiquido: real,
    investimentos: real,
    amortizacoes: real,
    resultadoFinal: real)

  /** `it.amount`: a number, or something `Number` turns into NaN. */
  datatype Amount = Numeric(value: real) | NotANumber

  datatype DetailItem = DetailItem(
    typeOf: string,
    titleDesc: Option<string>,
    accountName: Option<string>,
    accountCode: string,
    paymentMethod: string,
    topLevel: Option<string>,
    amount: Amount)

  /** `details_by_day`: its entries in order, a day and that day's items. */
  type Days = seq<(string, seq<DetailItem>)>

  datatype Report = Report(
    company: string,
    start: string,
    end: string,
    totals: Totals,
    monthly: Option<seq<MonthRow>>,
    byAccount: Option<seq<AccountRow>>,
    classic: Option<Classic>,
    details: Option<Days>)

  datatype Tab = MonthlyTab | AccountTab | SummaryTab | DetailsTab | ClassicTab

  const MissingParams := "Selecione empresa e período (início e fim)."
  const DefaultError := "Erro ao gerar DRE."
  const CompaniesFailed := "Falha ao carregar empresas"

  // ---------------------------------------------------------------------
  // After a fetch

  /** The tab shown once a report arrives: the first breakdown it has. */
  function DefaultTab(r: Report): (t: Tab)
    ensures t == MonthlyTab <==> r.monthly.Some?
    ensures t == AccountTab <==> r.monthly.None? && r.byAccount.Some?
    ensures t == SummaryTab <==> r.monthly.None? && r.byAccount.None?
  {
    if r.monthly.Some? then MonthlyTab
    else if r.byAccount.Some? then AccountTab
    else SummaryTab
  }

  /** The query `fetchReport` sends; an empty group is left out. */
  datatype ReportParams = ReportParams(company: string, start: string, end: string, group: Option<string>)

  /** The answer to the request: the report, or a failure with the response body, if any. */
  datatype ReportAnswer = Answered(report: Report) | Failed(body: Option<ErrorBody.Body>)

  // ---------------------------------------------------------------------
  // The details tab

  /** `Number(it.amount) || 0`. */
  function Value(a: Amount): real
  {
    if a.Numeric? then a.value else 0.0
  }

  predicate Shown(it: DetailItem, typeFilter: string, methodFilter: string, levelFilter: string)
  {
    (typeFilter == "all" || it.typeOf == typeFilter) &&
    (methodFilter == "all" || it.paymentMethod == methodFilter) &&
    (levelFilter == "all" || it.topLevel == Some(levelFilter))
  }

  /** A day's items under the three detail filters, in order. */
  function ShownItems(items: seq<DetailItem>, typeFilter: string, methodFilter: string, levelFilter: string): (r: seq<DetailItem>)
    ensures |r| <= |items|
    ensures forall it :: it in r <==> it in items && Shown(it, typeFilter, methodFilter, levelFilter)
  {
    Filter(items, (it: DetailItem) => Shown(it, typeFilter, methodFilter, levelFilter))
  }

  /** With every filter at 'all' a day shows all its items. */
  lemma AllFiltersShowEverything(items: seq<DetailItem>)
    ensures ShownItems(items, "all", "all", "all") == items
  {
    FilterKeepsAll(items, (it: DetailItem) => Shown(it, "all", "all", "all"));
  }

  /** The sum of the income items' values. */
  function Revenues(items: seq<DetailItem>): real
  {
    if items == [] then 0.0
    else (if items[0].typeOf == "income" then Value(items[0].amount) else 0.0) + Revenues(items[1..])
  }

  /** The sum of every other item's value: any type but 'income' counts as an expense. */
  function Expenses(items: seq<DetailItem>): real
  {
    if items == [] then 0.0
    else (if items[0].typeOf == "income" then 0.0 else Value(items[0].amount)) + Expenses(items[1..])
  }

  lemma {:induction false} SumsAppend(a: seq<DetailItem>, b: seq<DetailItem>)
    ensures Revenues(a + b) == Revenues(a) + Revenues(b)
    ensures Expenses(a + b) == Expenses(a) + Expenses(b)
  {
    if a == [] {
      assert a + b == b;
    } else {
      assert (a + b)[1..] == a[1..] + b;
      SumsAppend(a[1..], b);
    }
  }

  /** The reduce over a day's shown items: revenues, expenses, and their difference. */
  method DayTotals(items: seq<DetailItem>) returns (t: Totals)
    ensures t == Totals(Revenues(items), Expenses(items), Revenues(items) - Expenses(items))
  {
    t := Totals(0.0, 0.0, 0.0);
    var i := 0;
    while i < |items|
      invariant 0 <= i <= |items|
      invariant t.revenues == Revenues(items[..i]) && t.expenses == Expenses(items[..i])
      invariant t.result == t.revenues - t.expenses
    {
      var it := items[i];
      var val := Value(it.amount);
      if it.typeOf == "income" {
        t := t.(revenues := t.revenues + val);
      } else {
        t := t.(expenses := t.expenses + val);
      }
      t := t.(result := t.revenues - t.expenses);
      assert items[..i + 1] == items[..i] + [it];
      SumsAppend(items[..i], [it]);
      i := i + 1;
    }
    assert items[..i] == items;
  }

  /** Showing only income leaves no expenses; showing only expenses leaves no revenues. */
  lemma {:induction false} TypeFilterSeparatesTotals(items: seq<DetailItem>, methodFilter: string, levelFilter: string)
    ensures Expenses(ShownItems(items, "income", methodFilter, levelFilter)) == 0.0
    ensures Revenues(ShownItems(items, "expense", methodFilter, levelFilter)) == 0.0
  {
    if items != [] {
      TypeFilterSeparatesTotals(items[1..], methodFilter, levelFilter);
      var inc := (it: DetailItem) => Shown(it, "income", methodFilter, levelFilter);
      var exp := (it: DetailItem) => Shown(it, "expense", methodFilter, levelFilter);
      SumsAppend(if inc(items[0]) then [items[0]] else [], Filter(items[1..], inc));
      SumsAppend(if exp(items[0]) then [items[0]] else [], Filter(items[1..], exp));
    }
  }

  /**
   * When every item is income or expense, the totals under type 'all' are
   * the revenues of the income view and the expenses of the expense view.
   */
  lemma {:induction false} AllTypesSplitIntoViews(items: seq<DetailItem>, methodFilter: string, levelFilter: string)
    requires forall it :: it in items ==> it.typeOf == "income" || it.typeOf == "expense"
    ensures Revenues(ShownItems(items, "all", methodFilter, levelFilter)) ==
      Revenues(ShownItems(items, "income", methodFilter, levelFilter))
    ensures Expenses(ShownItems(items, "all", methodFilter, levelFilter)) ==
      Expenses(ShownItems(items, "expense", methodFilter, levelFilter))
  {
    if items != [] {
      AllTypesSplitIntoViews(items[1..], methodFilter, levelFilter);
      var all := (it: DetailItem) => Shown(it, "all", methodFilter, levelFilter);
      var inc := (it: DetailItem) => Shown(it, "income", methodFilter, levelFilter);
      var exp := (it: DetailItem) => Shown(it, "expense", methodFilter, levelFilter);
      SumsAppend(if all(items[0]) then [items[0]] else [], Filter(items[1..], all));
      SumsAppend(if inc(items[0]) then [items[0]] else [], Filter(items[1..], inc));
      SumsAppend(if exp(items[0]) then [items[0]] else [], Filter(items[1..], exp));
    }
  }

  /** Every day's items, one after the other (`Object.values(...).flat()`). */
  function AllItems(days: Days): (r: seq<DetailItem>)
    ensures forall d, it :: d in days && it in d.1 ==> it in r
    ensures forall it :: it in r ==> exists d :: d in days && it in d.1
  {
    if days == [] then []
    else
      var rest := AllItems(days[1..]);
      assert forall d :: d in days[1..] ==> d in days;
      days[0].1 + rest
  }

  /** The truthy top levels of the items, in order. */
  function TopLevels(items: seq<DetailItem>): (r: seq<string>)
    ensures forall s :: s in r <==> s != "" && exists it :: it in items && it.topLevel == Some(s)
  {
    if items == [] then []
    else
      var rest := TopLevels(items[1..]);
      assert forall it :: it in items[1..] ==> it in items;
      assert forall it :: it in items ==> it == items[0] || it in items[1..];
      (if Truthy(items[0].topLevel) then [items[0].topLevel.value] else []) + rest
  }

  /** The options of the top-level select, each once, in order of first appearance. */
  function TopLevelOptions(days: Days): seq<string>
  {
    Distinct(TopLevels(AllItems(days)))
  }

  /** The options are exactly the distinct non-empty top levels, and each shows at least one item on its day. */
  lemma TopLevelOptionsSound(days: Days, option: string)
    ensures NoDuplicates(TopLevelOptions(days))
    ensures option in TopLevelOptions(days) <==>
      option != "" && exists d, it :: d in days && it in d.1 && it.topLevel == Some(option)
    ensures option in TopLevelOptions(days) ==>
      exists d :: d in days && |ShownItems(d.1, "all", "all", option)| > 0
  {
    if option in TopLevelOptions(days) {
      var it :| it in AllItems(days) && it.topLevel == Some(option);
      var d :| d in days && it in d.1;
      assert it in ShownItems(d.1, "all", "all", option);
    }
  }

  // ---------------------------------------------------------------------
  // The CSV export

  /** `Number(v).toFixed(2)` on an exact value: sign, whole part, two rounded decimals. */
  function Fixed2(v: real): (s: string)
    ensures ',' !in s
  {
    var m := if v < 0.0 then -v else v;
    var cents := (m * 100.0 + 0.5).Floor;
    assert cents >= 0;
    var digits := NatToString(cents / 100) + "." + [DigitChar((cents % 100) / 10), DigitChar(cents % 10)];
    assert forall i :: 0 <= i < |NatToString(cents / 100)| ==> IsDigit(NatToString(cents / 100)[i]);
    if v < 0.0 then "-" + digits else digits
  }

  /** `s.replace(/,/g, ' ')`. */
  function NoCommas(s: string): (r: string)
    ensures |r| == |s| && ',' !in r
    ensures forall i :: 0 <= i < |s| ==> r[i] == (if s[i] == ',' then ' ' else s[i])
  {
    if s == [] then [] else [if s[0] == ',' then ' ' else s[0]] + NoCommas(s[1..])
  }

  function AmountText(a: Amount): string
  {
    if a.Numeric? then Fixed2(a.value) else "NaN"
  }

  function MonthLine(m: MonthRow): string
  {
    m.month + "," + Fixed2(m.revenues) + "," + Fixed2(m.expenses) + "," + Fixed2(m.result)
  }

  function AccountLine(a: AccountRow): string
  {
    a.code + "," + NoCommas(OrEmpty(a.name)) + "," + Fixed2(a.income) + "," + Fixed2(a.expense) + "," + Fixed2(a.total)
  }

  function DetailLine(day: string, it: DetailItem): string
  {
    day + "," + it.typeOf + "," + NoCommas(OrEmpty(it.titleDesc)) + "," + NoCommas(OrEmpty(it.accountName)) + "," +
    it.accountCode + "," + it.paymentMethod + "," + AmountText(it.amount)
  }

  function MonthLines(rows: seq<MonthRow>): (r: seq<string>)
    ensures |r| == |rows|
  {
    if rows == [] then [] else MonthLines(rows[..|rows| - 1]) + [MonthLine(rows[|rows| - 1])]
  }

  function AccountLines(rows: seq<AccountRow>): (r: seq<string>)
    ensures |r| == |rows|
  {
    if rows == [] then [] else AccountLines(rows[..|rows| - 1]) + [AccountLine(rows[|rows| - 1])]
  }

  function DayLines(day: string, items: seq<DetailItem>): (r: seq<string>)
    ensures |r| == |items|
  {
    if items == [] then [] else DayLines(day, items[..|items| - 1]) + [DetailLine(day, items[|items| - 1])]
  }

  /** One line per item of the first `n` days, day after day. */
  function DetailLinesUpTo(days: Days, n: nat): (r: seq<string>)
    requires n <= |days|
    ensures |r| == ItemCount(days, n)
  {
    if n == 0 then [] else DetailLinesUpTo(days, n - 1) + DayLines(days[n - 1].0, days[n - 1].1)
  }

  function DetailLines(days: Days): seq<string>
  {
    DetailLinesUpTo(days, |days|)
  }

  /** The number of items of the first `n` days. */
  function ItemCount(days: Days, n: nat): nat
    requires n <= |days|
  {
    if n == 0 then 0 else ItemCount(days, n - 1) + |days[n - 1].1|
  }

  const MonthHeader := "Mes,Receitas,Despesas,Resultado"
  const AccountHeader := "Codigo,Nome,Receitas,Despesas,Total"
  const DetailHeader := "Data,Tipo,Descricao,Conta,Codigo,Metodo,Valor"

  function ClassicLines(c: Classic): seq<string>
  {
    ["Estrutura clássica,,,",
     "(+) Receita Total,,," + Fixed2(c.receitaTotal),
     "(-) Custos Variáveis,,," + Fixed2(c.custosVariaveis),
     "(=) Margem de Contribuição,,," + Fixed2(c.margemContribuicao),
     "(-) Custos Fixos,,," + Fixed2(c.custosFixos),
     "(=) Resultado Operacional Líquido,,," + Fixed2(c.resultadoOperacionalLiquido),
     "(-) Investimentos,,," + Fixed2(c.investimentos),
     "(-) Amortizações/Depreciações,,," + Fixed2(c.amortizacoes),
     "(=) Resultado Final,,," + Fixed2(c.resultadoFinal)]
  }

  /** The lines every export starts with: company, period, and the totals. */
  function HeaderLines(r: Report): seq<string>
  {
    ["Empresa," + r.company,
     "Periodo," + r.start + " a " + r.end,
     "",
     "Secao,Receitas,Despesas,Resultado",
     "Totais," + Fixed2(r.totals.revenues) + "," + Fixed2(r.totals.expenses) + "," + Fixed2(r.totals.result),
     ""]
  }

  function MonthSection(rows: seq<MonthRow>): seq<string>
  {
    [MonthHeader] + MonthLines(rows)
  }

  function AccountSection(rows: seq<AccountRow>): seq<string>
  {
    [AccountHeader] + AccountLines(rows)
  }

  function DetailSection(days: Days): seq<string>
  {
    [DetailHeader] + DetailLines(days)
  }

  /** Without a tab of its own: the monthly then the by-account breakdown, each if present, each followed by a blank line. */
  function FallbackSection(r: Report): seq<string>
  {
    (if r.monthly.Some? then MonthSection(r.monthly.value) + [""] else []) +
    (if r.byAccount.Some? then AccountSection(r.byAccount.value) + [""] else [])
  }

  /** The section after the header: the current tab's when it has data, else the breakdowns present. */
  function Section(r: Report, tab: Tab): seq<string>
  {
    if tab == ClassicTab && r.classic.Some? then ClassicLines(r.classic.value)
    else if tab == MonthlyTab && r.monthly.Some? then MonthSection(r.monthly.value)
    else if tab == AccountTab && r.byAccount.Some? then AccountSection(r.byAccount.value)
    else if tab == DetailsTab && r.details.Some? then DetailSection(r.details.value)
    else FallbackSection(r)
  }

  function CsvLines(r: Report, tab: Tab): seq<string>
  {
    HeaderLines(r) + Section(r, tab)
  }

  /** The export follows the tab opened after the fetch: that tab's own section. */
  lemma DefaultTabExportsItsSection(r: Report)
    ensures r.monthly.Some? ==> Section(r, DefaultTab(r)) == MonthSection(r.monthly.value)
    ensures r.monthly.None? && r.byAccount.Some? ==> Section(r, DefaultTab(r)) == AccountSection(r.byAccount.value)
    ensures r.monthly.None? && r.byAccount.None? ==> Section(r, DefaultTab(r)) == []
  {
  }

  /** A tab without its data falls back to the breakdowns, like the summary tab. */
  lemma MissingTabDataFallsBack(r: Report, tab: Tab)
    requires tab == ClassicTab ==> r.classic.None?
    requires tab == MonthlyTab ==> r.monthly.None?
    requires tab == AccountTab ==> r.byAccount.None?
    requires tab == DetailsTab ==> r.details.None?
    ensures Section(r, tab) == Section(r, SummaryTab)
  {
  }

  function CommaCount(s: string): nat
  {
    if s == [] then 0 else (if s[0] == ',' then 1 else 0) + CommaCount(s[1..])
  }

  lemma {:induction false} CommaCountAppend(a: string, b: string)
    ensures CommaCount(a + b) == CommaCount(a) + CommaCount(b)
  {
    if a == [] {
      assert a + b == b;
    } else {
      assert (a + b)[1..] == a[1..] + b;
      CommaCountAppend(a[1..], b);
    }
  }

  lemma {:induction false} NoCommaCountsZero(s: string)
    requires ',' !in s
    ensures CommaCount(s) == 0
  {
    if s != [] {
      NoCommaCountsZero(s[1..]);
    }
  }

  /** Because names lose their commas, an account row has exactly its five columns. */
  lemma AccountLineColumns(a: AccountRow)
    requires ',' !in a.code
    ensures CommaCount(AccountLine(a)) == 4
  {
    var name := NoCommas(OrEmpty(a.name));
    var i, e, t := Fixed2(a.income), Fixed2(a.expense), Fixed2(a.total);
    NoCommaCountsZero(a.code);
    NoCommaCountsZero(name);
    NoCommaCountsZero(i);
    NoCommaCountsZero(e);
    NoCommaCountsZero(t);
    assert CommaCount(",") == 1;
    CommaCountAppend(a.code, ",");
    CommaCountAppend(a.code + ",", name);
    CommaCountAppend(a.code + "," + name, ",");
    CommaCountAppend(a.code + "," + name + ",", i);
    CommaCountAppend(a.code + "," + name + "," + i, ",");
    CommaCountAppend(a.code + "," + name + "," + i + ",", e);
    CommaCountAppend(a.code + "," + name + "," + i + "," + e, ",");
    CommaCountAppend(a.code + "," + name + "," + i + "," + e + ",", t);
  }

  datatype CompanyOption = CompanyOption(uuid: string, fantasyName: Option<string>)

  function TabName(tab: Tab): string
  {
    match tab
    case MonthlyTab => "monthly"
    case AccountTab => "account"
    case SummaryTab => "summary"
    case DetailsTab => "details"
    case ClassicTab => "classic"
  }

  /**
   * `companies.find((c) => c.uuid === company)?.fantasy_name || 'empresa'`:
   * the fantasy name of the first company with that uuid when it is non-empty,
   * otherwise "empresa".
   */
  function CompanyLabel(companies: seq<CompanyOption>, company: string): (shown: string)
    ensures shown != ""
    ensures (forall i :: 0 <= i < |companies| ==> companies[i].uuid != company) ==> shown == "empresa"
    ensures forall i ::
      (0 <= i < |companies| && companies[i].uuid == company && forall j :: 0 <= j < i ==> companies[j].uuid != company) ==>
        shown == if Truthy(companies[i].fantasyName) then companies[i].fantasyName.value else "empresa"
  {
    var found := Find(companies, (c: CompanyOption) => c.uuid == company);
    if found.Some? && Truthy(found.value.fantasyName) then found.value.fantasyName.value else "empresa"
  }

  /** The download's name: `dre_<company>_<start>_a_<end>_<tab>.csv`. */
  function CsvFileName(companies: seq<CompanyOption>, company: string, start: string, end: string, tab: Tab): (name: string)
    ensures var suffix := "_" + TabName(tab) + ".csv";
      |name| >= 4 + |suffix| && name[..4] == "dre_" && name[|name| - |suffix|..] == suffix &&
      name[4..|name| - |suffix|] == CompanyLabel(companies, company) + "_" + start + "_a_" + end
  {
    var suffix := "_" + TabName(tab) + ".csv";
    var middle := CompanyLabel(companies, company) + "_" + start + "_a_" + end;
    var name := "dre_" + middle + suffix;
    assert name[..4] == "dre_";
    assert name[4..|name| - |suffix|] == middle;
    assert name[|name| - |suffix|..] == suffix;
    name
  }

  /** Every tab name has seven letters, and no two tabs share one. */
  lemma TabNamesDistinct(t1: Tab, t2: Tab)
    ensures |TabName(t1)| == 7
    ensures TabName(t1) == TabName(t2) ==> t1 == t2
  {
  }

  /**
   * Exports of different tabs never share a file name, whatever the company
   * and the period: the tab is recovered from the name's fixed-length suffix.
   */
  lemma {:induction false} CsvFileNameKeepsTab(companies: seq<CompanyOption>, company: string, start: string, end: string, t1: Tab, t2: Tab)
    requires t1 != t2
    ensures CsvFileName(companies, company, start, end, t1) != CsvFileName(companies, company, start, end, t2)
  {
    var n1, n2 := CsvFileName(companies, company, start, end, t1), CsvFileName(companies, company, start, end, t2);
    var s1, s2 := "_" + TabName(t1) + ".csv", "_" + TabName(t2) + ".csv";
    TabNamesDistinct(t1, t2);
    TabNamesDistinct(t2, t1);
    assert s1[1..8] == TabName(t1) && s2[1..8] == TabName(t2);
    assert s1 != s2;
    assert n1[|n1| - |s1|..] == s1 && n2[|n2| - |s2|..] == s2;
  }

  class DreReportPage {
    var companies: seq<CompanyOption>
    var company: string
    var start: string
    var end: string
    var group: string
    var loading: bool
    var data: Option<Report>
    var tab: Tab
    var toast: Option<Toast>

    constructor ()
      ensures companies == [] && company == "" && start == "" && end == "" && group == ""
      ensures !loading && data.None? && tab == SummaryTab && toast.None?
    {
      companies, company, start, end, group := [], "", "", "", "";
      loading, data, tab, toast := false, None, SummaryTab, None;
    }

    /** `loadCompanies`: the list, or the error toast. */
    method LoadCompanies(answer: Option<seq<CompanyOption>>)
      modifies this`companies, this`toast
      ensures answer.Some? ==> companies == answer.value && toast == old(toast)
      ensures answer.None? ==> companies == old(companies) && toast == Some(Toast(CompaniesFailed, ErrorToast))
    {
      if answer.Some? {
        companies := answer.value;
      } else {
        toast := Some(Toast(CompaniesFailed, ErrorToast));
      }
    }

    /**
     * `fetchReport`: refused without company, start and end; otherwise the
     * old report is cleared, and the answer either becomes the report (with
     * its default tab) or an error toast.
     */
    method FetchReport(answer: ReportAnswer) returns (request: Option<ReportParams>)
      modifies this`loading, this`data, this`tab, this`toast
      ensures company == "" || start == "" || end == "" ==>
        request.None? && toast == Some(Toast(MissingParams, WarningToast)) &&
        data == old(data) && tab == old(tab) && loading == old(loading)
      ensures company != "" && start != "" && end != "" ==>
        request == Some(ReportParams(company, start, end, if group == "" then None else Some(group))) && !loading
      ensures company != "" && start != "" && end != "" && answer.Answered? ==>
        data == Some(answer.report) && tab == DefaultTab(answer.report) && toast == old(toast)
      ensures company != "" && start != "" && end != "" && answer.Failed? ==>
        data.None? && tab == old(tab) &&
        toast == Some(Toast(ErrorBody.ErrorMessage(answer.body, DefaultError), ErrorToast))
    {
      if company == "" || start == "" || end == "" {
        toast := Some(Toast(MissingParams, WarningToast));
        return None;
      }
      loading := true;
      data := None;
      request := Some(ReportParams(company, start, end, if group == "" then None else Some(group)));
      if answer.Answered? {
        data := Some(answer.report);
        if answer.report.monthly.Some? {
          tab := MonthlyTab;
        } else if answer.report.byAccount.Some? {
          tab := AccountTab;
        } else {
          tab := SummaryTab;
        }
      } else {
        toast := Some(Toast(ErrorBody.ErrorMessage(answer.body, DefaultError), ErrorToast));
      }
      loading := false;
    }

    /** `exportCSV`: nothing without a report; otherwise the lines pushed, in order, and the download's name. */
    method ExportCsv() returns (lines: Option<seq<string>>, fileName: Option<string>)
      ensures data.None? ==> lines.None? && fileName.None?
      ensures data.Some? ==> lines == Some(CsvLines(data.value, tab))
      ensures data.Some? ==> fileName == Some(CsvFileName(companies, company, start, end, tab))
    {
      if data.None? {
        return None, None;
      }
      fileName := Some(CsvFileName(companies, company, start, end, tab));
      var r := data.value;
      var out := HeaderLines(r);
      if tab == ClassicTab && r.classic.Some? {
        out := out + ClassicLines(r.classic.value);
      } else if tab == MonthlyTab && r.monthly.Some? {
        out := PushMonthRows(out + [MonthHeader], r.monthly.value);
        Assoc(HeaderLines(r), [MonthHeader], MonthLines(r.monthly.value));
      } else if tab == AccountTab && r.byAccount.Some? {
        out := PushAccountRows(out + [AccountHeader], r.byAccount.value);
        Assoc(HeaderLines(r), [AccountHeader], AccountLines(r.byAccount.value));
      } else if tab == DetailsTab && r.details.Some? {
        out := PushDetailRows(out + [DetailHeader], r.details.value);
        Assoc(HeaderLines(r), [DetailHeader], DetailLines(r.details.value));
      } else {
        out := PushBreakdowns(out, r);
      }
      lines := Some(out);
    }
  }

  /** The export's default branch: the monthly then the by-account rows, each when present, each closed by a blank line. */
  method PushBreakdowns(lines: seq<string>, r: Report) returns (out: seq<string>)
    ensures out == lines + FallbackSection(r)
  {
    out := lines;
    if r.monthly.Some? {
      out := PushMonthRows(out + [MonthHeader], r.monthly.value);
      out := out + [""];
      Assoc3(lines, [MonthHeader], MonthLines(r.monthly.value), [""]);
    }
    ghost var afterMonths := out;
    if r.byAccount.Some? {
      out := PushAccountRows(out + [AccountHeader], r.byAccount.value);
      out := out + [""];
      Assoc3(afterMonths, [AccountHeader], AccountLines(r.byAccount.value), [""]);
    }
    ghost var monthPart: seq<string> := if r.monthly.Some? then MonthSection(r.monthly.value) + [""] else [];
    ghost var accountPart: seq<string> := if r.byAccount.Some? then AccountSection(r.byAccount.value) + [""] else [];
    assert afterMonths == lines + monthPart;
    assert out == afterMonths + accountPart;
    Assoc(lines, monthPart, accountPart);
  }

  lemma Assoc(a: seq<string>, b: seq<string>, c: seq<string>)
    ensures (a + b) + c == a + (b + c)
  {
  }

  /** `((a + b) + c) + d` is `a` followed by the section `(b + c) + d`. */
  lemma Assoc3(a: seq<string>, b: seq<string>, c: seq<string>, d: seq<string>)
    ensures ((a + b) + c) + d == a + ((b + c) + d)
  {
  }

  /** One more month row appends its line after those already pushed. */
  lemma MonthStep(lines: seq<string>, rows: seq<MonthRow>, i: nat)
    requires i < |rows|
    ensures lines + MonthLines(rows[..i + 1]) == (lines + MonthLines(rows[..i])) + [MonthLine(rows[i])]
  {
    assert rows[..i + 1][..i] == rows[..i];
    assert MonthLines(rows[..i + 1]) == MonthLines(rows[..i]) + [MonthLine(rows[i])];
    Assoc(lines, MonthLines(rows[..i]), [MonthLine(rows[i])]);
  }

  /** `data.monthly.forEach(...)`: one line per month. */
  method PushMonthRows(lines: seq<string>, rows: seq<MonthRow>) returns (out: seq<string>)
    ensures out == lines + MonthLines(rows)
  {
    out := lines;
    var i := 0;
    while i < |rows|
      invariant 0 <= i <= |rows|
      invariant out == lines + MonthLines(rows[..i])
    {
      var m := rows[i];
      var line := m.month + "," + Fixed2(m.revenues) + "," + Fixed2(m.expenses) + "," + Fixed2(m.result);
      assert line == MonthLine(m);
      MonthStep(lines, rows, i);
      out := out + [line];
      i := i + 1;
    }
    assert rows[..i] == rows;
  }

  /** One more account row appends its line after those already pushed. */
  lemma AccountStep(lines: seq<string>, rows: seq<AccountRow>, i: nat)
    requires i < |rows|
    ensures lines + AccountLines(rows[..i + 1]) == (lines + AccountLines(rows[..i])) + [AccountLine(rows[i])]
  {
    assert rows[..i + 1][..i] == rows[..i];
    assert AccountLines(rows[..i + 1]) == AccountLines(rows[..i]) + [AccountLine(rows[i])];
    Assoc(lines, AccountLines(rows[..i]), [AccountLine(rows[i])]);
  }

  /** `data.by_account.forEach(...)`: one line per account, commas taken out of the name. */
  method PushAccountRows(lines: seq<string>, rows: seq<AccountRow>) returns (out: seq<string>)
    ensures out == lines + AccountLines(rows)
  {
    out := lines;
    var i := 0;
    while i < |rows|
      invariant 0 <= i <= |rows|
      invariant out == lines + AccountLines(rows[..i])
    {
      var a := rows[i];
      var safeName := NoCommas(OrEmpty(a.name));
      var line := a.code + "," + safeName + "," + Fixed2(a.income) + "," + Fixed2(a.expense) + "," + Fixed2(a.total);
      assert line == AccountLine(a);
      AccountStep(lines, rows, i);
      out := out + [line];
      i := i + 1;
    }
    assert rows[..i] == rows;
  }

  /** One more item of a day appends its line after those already pushed. */
  lemma DayStep(lines: seq<string>, day: string, items: seq<DetailItem>, k: nat)
    requires k < |items|
    ensures lines + DayLines(day, items[..k + 1]) == (lines + DayLines(day, items[..k])) + [DetailLine(day, items[k])]
  {
    assert items[..k + 1][..k] == items[..k];
    assert DayLines(day, items[..k + 1]) == DayLines(day, items[..k]) + [DetailLine(day, items[k])];
    Assoc(lines, DayLines(day, items[..k]), [DetailLine(day, items[k])]);
  }

  /** The inner `forEach` over one day's items: one line each, commas taken out of the texts. */
  method PushDayRows(lines: seq<string>, day: string, items: seq<DetailItem>) returns (out: seq<string>)
    ensures out == lines + DayLines(day, items)
  {
    out := lines;
    var k := 0;
    while k < |items|
      invariant 0 <= k <= |items|
      invariant out == lines + DayLines(day, items[..k])
    {
      var it := items[k];
      var desc := NoCommas(OrEmpty(it.titleDesc));
      var accName := NoCommas(OrEmpty(it.accountName));
      var line := day + "," + it.typeOf + "," + desc + "," + accName + "," +
                  it.accountCode + "," + it.paymentMethod + "," + AmountText(it.amount);
      assert line == DetailLine(day, it);
      DayStep(lines, day, items, k);
      out := out + [line];
      k := k + 1;
    }
    assert items[..k] == items;
  }

  /** One more day appends all of its item lines after those already pushed. */
  lemma DetailStep(lines: seq<string>, days: Days, d: nat)
    requires d < |days|
    ensures lines + DetailLinesUpTo(days, d + 1) == (lines + DetailLinesUpTo(days, d)) + DayLines(days[d].0, days[d].1)
  {
    var before, own := DetailLinesUpTo(days, d), DayLines(days[d].0, days[d].1);
    assert DetailLinesUpTo(days, d + 1) == before + own;
    Assoc(lines, before, own);
  }

  /** The outer `forEach` over `details_by_day`: every item of every day, unfiltered. */
  method PushDetailRows(lines: seq<string>, days: Days) returns (out: seq<string>)
    ensures out == lines + DetailLines(days)
  {
    out := lines;
    var d := 0;
    while d < |days|
      invariant 0 <= d <= |days|
      invariant out == lines + DetailLinesUpTo(days, d)
    {
      DetailStep(lines, days, d);
      out := PushDayRows(out, days[d].0, days[d].1);
      d := d + 1;
    }
    assert DetailLines(days) == DetailLinesUpTo(days, d);
  }
}
