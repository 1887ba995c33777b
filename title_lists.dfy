/**
 * The title list pages: the titles page with its search, type and status
 * filters and its cell labels; the receivables page locked to income; and
 * the receive and pay pages, which load the open titles of one type.
 */
module TitleLists {
  import opened Common
  import TitleForm

  /** A listed title, with the fields the list pages read. */
  datatype ListedTitle = ListedTitle(
    uuid: string,
    description: string,
    typeOf: string,
    active: bool,
    company: TitleForm.CompanyRef,
    installments: Option<int>,
    recorrence: bool,
    recorrencePeriod: Option<string>)

  datatype CompanyItem = CompanyItem(uuid: string, fantasyName: Option<string>)

  // ---------------------------------------------------------------------
  // Titles page

  /** The description contains the term, both lower-cased; the term is not trimmed. */
  predicate MatchesSearch(t: ListedTitle, term: string)
  {
    Contains(Lower(t.description), Lower(term))
  }

  predicate MatchesType(t: ListedTitle, filterType: string)
  {
    filterType == "all" || t.typeOf == filterType
  }

  predicate MatchesActive(t: ListedTitle, filterActive: string)
  {
    filterActive == "all" || (filterActive == "active" && t.active) || (filterActive == "inactive" && !t.active)
  }

  /** `filteredTitles` of the titles page. */
  function FilteredTitles(titles: seq<ListedTitle>, term: string, filterType: string, filterActive: string): (r: seq<ListedTitle>)
    ensures forall t :: t in r <==>
      t in titles && MatchesSearch(t, term) && MatchesType(t, filterType) && MatchesActive(t, filterActive)
  {
    Filter(titles, (t: ListedTitle) => MatchesSearch(t, term) && MatchesType(t, filterType) && MatchesActive(t, filterActive))
  }

  /** An empty search with both filters at 'all' lists every title, in order. */
  lemma NoFilterListsAll(titles: seq<ListedTitle>)
    ensures FilteredTitles(titles, "", "all", "all") == titles
  {
    forall t | t in titles ensures MatchesSearch(t, "") {
      ContainsEmpty(Lower(t.description));
    }
    FilterKeepsAll(titles, (t: ListedTitle) => MatchesSearch(t, "") && MatchesType(t, "all") && MatchesActive(t, "all"));
  }

  /** `getTypeLabel`. */
  function TypeLabel(typeOf: string): (text: string)
    ensures text == "Receita" <==> typeOf == "income"
    ensures text == "Despesa" <==> typeOf == "expense"
    ensures text == "Indefinido" <==> typeOf != "income" && typeOf != "expense"
  {
    if typeOf == "income" then "Receita" else if typeOf == "expense" then "Despesa" else "Indefinido"
  }

  /** `getCompanyName`: the first company with that uuid, by its fantasy name, else 'N/A'. */
  function CompanyName(companies: seq<CompanyItem>, companyId: string): (name: string)
    ensures (forall i :: 0 <= i < |companies| ==> companies[i].uuid != companyId) ==> name == "N/A"
    ensures forall i ::
      (0 <= i < |companies| && companies[i].uuid == companyId && forall j :: 0 <= j < i ==> companies[j].uuid != companyId)
      ==> name == OrElse(companies[i].fantasyName, "N/A")
  {
    var found := Find(companies, (c: CompanyItem) => c.uuid == companyId);
    if found.Some? then OrElse(found.value.fantasyName, "N/A") else "N/A"
  }

  /** The company cell: the name for a uuid string, 'N/A' for anything else. */
  function CompanyCell(companies: seq<CompanyItem>, t: ListedTitle): (cell: string)
    ensures t.company.CompanyOther? ==> cell == "N/A"
    ensures t.company.CompanyString? ==> cell == CompanyName(companies, t.company.uuid)
  {
    if t.company.CompanyString? then CompanyName(companies, t.company.uuid) else "N/A"
  }

  /** The recurrence cell. */
  function RecurrenceLabel(recorrence: bool, period: Option<string>): (text: string)
    ensures !recorrence <==> text == "Não"
    ensures recorrence && period == Some("daily") ==> text == "Diário"
    ensures recorrence && period == Some("weekly") ==> text == "Semanal"
    ensures recorrence && period == Some("monthly") ==> text == "Mensal"
    ensures recorrence && period == Some("yearly") ==> text == "Anual"
    ensures recorrence && (period.None? || period.value !in ["daily", "weekly", "monthly", "yearly"]) ==> text == "Sim"
  {
    if !recorrence then "Não"
    else if period == Some("daily") then "Diário"
    else if period == Some("weekly") then "Semanal"
    else if period == Some("monthly") then "Mensal"
    else if period == Some("yearly") then "Anual"
    else "Sim"
  }

  /** The installments cell: 0 or absent reads 'À vista'. */
  function InstallmentsLabel(installments: Option<int>): (text: string)
    ensures installments.None? || installments == Some(0) ==> text == "À vista"
    ensures installments.Some? && installments.value != 0 ==> text == IntToString(installments.value)
  {
    if installments.None? || installments.value == 0 then "À vista" else IntToString(installments.value)
  }

  // ---------------------------------------------------------------------
  // Receivables page

  /** `filteredTitles` of the receivables page: income only, then search and status. */
  function ReceivableTitles(titles: seq<ListedTitle>, term: string, filterActive: string): (r: seq<ListedTitle>)
    ensures forall t :: t in r <==>
      t in titles && t.typeOf == "income" && MatchesSearch(t, term) && MatchesActive(t, filterActive)
  {
    Filter(titles, (t: ListedTitle) => MatchesSearch(t, term) && t.typeOf == "income" && MatchesActive(t, filterActive))
  }

  /** The receivables list is the titles page's list with the type filter at 'income'. */
  lemma ReceivablesAreIncomeView(titles: seq<ListedTitle>, term: string, filterActive: string)
    ensures ReceivableTitles(titles, term, filterActive) == FilteredTitles(titles, term, "income", filterActive)
  {
    FilterSame(titles,
      (t: ListedTitle) => MatchesSearch(t, term) && t.typeOf == "income" && MatchesActive(t, filterActive),
      (t: ListedTitle) => MatchesSearch(t, term) && MatchesType(t, "income") && MatchesActive(t, filterActive));
  }

  /** `handleSave`: the form's data with the type forced to income. */
  function ReceivableSave(data: TitleForm.TitleData): (r: TitleForm.TitleData)
    ensures r.form.typeOf == "income"
    ensures r.form == data.form.(typeOf := "income") && r.amount == data.amount
    ensures r.fees == data.fees && r.installments == data.installments
  {
    data.(form := data.form.(typeOf := "income"))
  }

  function ReceivableSavedMessage(uuid: Option<string>): (m: string)
    ensures Truthy(uuid) <==> m == "Recebimento atualizado com sucesso!"
    ensures !Truthy(uuid) <==> m == "Recebimento cadastrado com sucesso!"
  {
    if Truthy(uuid) then "Recebimento atualizado com sucesso!" else "Recebimento cadastrado com sucesso!"
  }

  /** The title "Novo Recebimento" opens the form with: only `type_of` set. */
  const NewReceivable := TitleForm.TitleInput(None, None, Some("income"), None, None, None, None, None, None, None,
                                              TitleForm.CompanyOther)

  /**
   * "Novo Recebimento" creates: once a company is picked, the form submits
   * with no uuid, and whatever type the form holds, income is saved.
   */
  lemma NewReceivableCreates(company: string, typeChoice: string)
    requires company != ""
    ensures var form := TitleForm.FormForTitle(Some(NewReceivable)).(company := company, typeOf := typeChoice);
      var r := TitleForm.SubmitTitle(form, Some(NewReceivable));
      r.Ok? && r.value.uuid.None? && ReceivableSave(r.value.data).form.typeOf == "income" &&
      ReceivableSavedMessage(r.value.uuid) == "Recebimento cadastrado com sucesso!"
  {
  }

  /** `handleDelete`: the uuid to delete, if one is pending. */
  function DeleteRequest(pending: Option<string>): (r: Option<string>)
    ensures r.None? <==> !Truthy(pending)
    ensures r.Some? ==> r == pending
  {
    if Truthy(pending) then pending else None
  }

  // ---------------------------------------------------------------------
  // Receive and pay pages

  /** The loaded list: the active titles of one type, in order. */
  function OpenTitles(all: seq<ListedTitle>, typeOf: string): (r: seq<ListedTitle>)
    ensures forall t :: t in r <==> t in all && t.typeOf == typeOf && t.active
  {
    Filter(all, (t: ListedTitle) => t.typeOf == typeOf && t.active)
  }

  /** The displayed list: the loaded list filtered by the search. */
  function Displayed(loaded: seq<ListedTitle>, term: string): (r: seq<ListedTitle>)
    ensures forall t :: t in r <==> t in loaded && MatchesSearch(t, term)
  {
    Filter(loaded, (t: ListedTitle) => MatchesSearch(t, term))
  }

  /** `loadData`: the open titles of the page's type, or, on failure, the old list and an error toast. */
  function LoadOpen(previous: seq<ListedTitle>, fetched: Option<seq<ListedTitle>>, typeOf: string): (r: (seq<ListedTitle>, Option<Toast>))
    ensures fetched.None? ==> r == (previous, Some(Toast("Erro ao carregar dados.", ErrorToast)))
    ensures fetched.Some? ==> r == (OpenTitles(fetched.value, typeOf), None)
  {
    if fetched.None? then (previous, Some(Toast("Erro ao carregar dados.", ErrorToast)))
    else (OpenTitles(fetched.value, typeOf), None)
  }

  /** An empty search shows the whole loaded list. */
  lemma EmptySearchShowsLoaded(loaded: seq<ListedTitle>)
    ensures Displayed(loaded, "") == loaded
  {
    forall t | t in loaded ensures MatchesSearch(t, "") {
      ContainsEmpty(Lower(t.description));
    }
    FilterKeepsAll(loaded, (t: ListedTitle) => MatchesSearch(t, ""));
  }

  /** The receive (or pay) page shows what the titles page shows with that type and 'active'. */
  lemma OpenListIsTitlesView(all: seq<ListedTitle>, typeOf: string, term: string)
    requires typeOf == "income" || typeOf == "expense"
    ensures Displayed(OpenTitles(all, typeOf), term) == FilteredTitles(all, term, typeOf, "active")
  {
    var open := (t: ListedTitle) => t.typeOf == typeOf && t.active;
    var found := (t: ListedTitle) => MatchesSearch(t, term);
    var both := (t: ListedTitle) => MatchesSearch(t, term) && MatchesType(t, typeOf) && MatchesActive(t, "active");
    forall t | t in all ensures both(t) == (open(t) && found(t)) {
      assert MatchesType(t, typeOf) == (t.typeOf == typeOf);
      assert MatchesActive(t, "active") == t.active;
    }
    FilterThenFilter(all, open, found, both);
    assert Displayed(OpenTitles(all, typeOf), term) == Filter(Filter(all, open), found);
  }
}
