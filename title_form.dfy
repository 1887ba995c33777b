/**
 * The title form: the fields it loads from a title, the company guard on
 * submit and the data it hands to `onSave`.
 */
module TitleForm {
  import opened Common

  /** The title's `company`: a uuid string or something else (an expanded object, a number). */
  datatype CompanyRef = CompanyString(uuid: string) | CompanyOther

  /**
   * The title being edited. Numbers are kept as the text `toString` gives;
   * `expirationDate` is the stored date string.
   */
  datatype TitleInput = TitleInput(
    uuid: Option<string>,
    description: Option<string>,
    typeOf: Option<string>,
    amountText: Option<string>,
    expirationDate: Option<string>,
    feesText: Option<string>,
    installmentsText: Option<string>,
    active: Option<bool>,
    recorrence: Option<bool>,
    recorrencePeriod: Option<string>,
    company: CompanyRef)

  datatype TitleFormState = TitleFormState(
    description: string,
    typeOf: string,
    amount: string,
    expirationDate: string,
    feesPercentageMonthly: string,
    installments: string,
    active: bool,
    recorrence: bool,
    recorrencePeriod: string,
    company: string)

  const BlankTitleForm := TitleFormState("", "income", "", "", "", "", true, false, "", "")

  /** The calendar day of an ISO date or date-time: everything before the first 'T'. */
  function DayPart(s: string): (r: string)
    ensures |r| <= |s| && r == s[..|r|] && 'T' !in r
    ensures |r| < |s| ==> s[|r|] == 'T'
  {
    if s == [] then []
    else if s[0] == 'T' then []
    else [s[0]] + DayPart(s[1..])
  }

  /** The effect that loads the form from `title`. */
  function FormForTitle(title: Option<TitleInput>): (f: TitleFormState)
    ensures title.None? ==> f == BlankTitleForm
    ensures title.Some? ==>
      var t := title.value;
      f.description == OrEmpty(t.description) && f.typeOf == OrElse(t.typeOf, "income") &&
      f.amount == OrEmpty(t.amountText) && f.feesPercentageMonthly == OrEmpty(t.feesText) &&
      f.installments == OrEmpty(t.installmentsText) && f.recorrencePeriod == OrEmpty(t.recorrencePeriod) &&
      (f.active <==> t.active != Some(false)) && (f.recorrence <==> t.recorrence == Some(true)) &&
      (f.company != "" ==> t.company == CompanyString(f.company)) &&
      (t.company.CompanyString? ==> f.company == t.company.uuid) &&
      (Truthy(t.expirationDate) ==> f.expirationDate == DayPart(t.expirationDate.value)) &&
      (!Truthy(t.expirationDate) ==> f.expirationDate == "")
  {
    if title.None? then BlankTitleForm
    else
      var t := title.value;
      TitleFormState(
        OrEmpty(t.description),
        OrElse(t.typeOf, "income"),
        OrEmpty(t.amountText),
        if Truthy(t.expirationDate) then DayPart(t.expirationDate.value) else "",
        OrEmpty(t.feesText),
        OrEmpty(t.installmentsText),
        if t.active.Some? then t.active.value else true,
        t.recorrence == Some(true),
        OrEmpty(t.recorrencePeriod),
        if t.company.CompanyString? then t.company.uuid else "")
  }

  /** `parseFloat`, `parseInt` and the fee conversion, left symbolic. */
  datatype Parsed = ParseFloat(text: string) | ParseInt(text: string) | FeeFraction(text: string) | ZeroNumber

  datatype TitleData = TitleData(form: TitleFormState, amount: Parsed, fees: Parsed, installments: Option<Parsed>)

  datatype TitleSave = TitleSave(data: TitleData, uuid: Option<string>)

  const CompanyRequired := "Empresa é obrigatória"

  /** `handleSubmit`: the save call, or the error toast when no company is chosen. */
  function SubmitTitle(form: TitleFormState, title: Option<TitleInput>): (r: Result<TitleSave>)
    ensures r.Err? <==> form.company == ""
    ensures r.Err? ==> r.message == CompanyRequired
    ensures r.Ok? ==> r.value.data.form == form && r.value.data.amount == ParseFloat(form.amount)
    ensures r.Ok? ==> (r.value.data.fees == ZeroNumber <==> form.feesPercentageMonthly == "")
    ensures r.Ok? ==> (r.value.data.installments.None? <==> form.installments == "")
    ensures r.Ok? ==> r.value.uuid == (if title.Some? then title.value.uuid else None)
  {
    if form.company == "" then Err(CompanyRequired)
    else
      Ok(TitleSave(
        TitleData(form, ParseFloat(form.amount),
                  if form.feesPercentageMonthly != "" then FeeFraction(form.feesPercentageMonthly) else ZeroNumber,
                  if form.installments != "" then Some(ParseInt(form.installments)) else None),
        if title.Some? then title.value.uuid else None))
  }

  /** The heading: depends only on whether a title is given, not on its uuid. */
  function Heading(title: Option<TitleInput>): (h: string)
    ensures h == "Editar Título" <==> title.Some?
    ensures h == "Novo Título" <==> title.None?
  {
    if title.Some? then "Editar Título" else "Novo Título"
  }

  /** A title whose company is not a plain uuid loads with no company and cannot be saved as loaded. */
  lemma ExpandedCompanyBlocksSave(t: TitleInput)
    requires t.company.CompanyOther?
    ensures SubmitTitle(FormForTitle(Some(t)), Some(t)) == Err(CompanyRequired)
  {
  }

  /** Loading a title and saving it untouched passes its uuid, company, type and description back. */
  lemma LoadSaveRoundTrip(t: TitleInput)
    requires t.company.CompanyString? && t.company.uuid != "" && Truthy(t.typeOf)
    ensures var r := SubmitTitle(FormForTitle(Some(t)), Some(t));
      r.Ok? && r.value.uuid == t.uuid && r.value.data.form.company == t.company.uuid &&
      r.value.data.form.typeOf == t.typeOf.value && r.value.data.form.description == OrEmpty(t.description)
  {
  }

  /** A title without a uuid still shows the edit heading. */
  lemma HeadingIgnoresUuid(t: TitleInput)
    requires t.uuid.None?
    ensures Heading(Some(t)) == "Editar Título"
  {
  }

  class TitleFormView {
    var form: TitleFormState
    var toast: Option<Toast>

    constructor ()
      ensures form == BlankTitleForm && toast == None
    {
      form := BlankTitleForm;
      toast := None;
    }

    /** The loading effect. */
    method Load(title: Option<TitleInput>)
      modifies this`form
      ensures form == FormForTitle(title)
    {
      if title.Some? {
        var t := title.value;
        form := TitleFormState(
          OrEmpty(t.description),
          OrElse(t.typeOf, "income"),
          OrEmpty(t.amountText),
          if Truthy(t.expirationDate) then DayPart(t.expirationDate.value) else "",
          OrEmpty(t.feesText),
          OrEmpty(t.installmentsText),
          if t.active.Some? then t.active.value else true,
          t.recorrence == Some(true),
          OrEmpty(t.recorrencePeriod),
          if t.company.CompanyString? then t.company.uuid else "");
      } else {
        form := BlankTitleForm;
      }
    }

    /** `handleSubmit`: the `onSave` call it makes, if any; without a company only the toast changes. */
    method Submit(title: Option<TitleInput>) returns (call: Option<TitleSave>)
      modifies this`toast
      ensures form.company == "" ==> call.None? && toast == Some(Toast(CompanyRequired, ErrorToast))
      ensures form.company != "" ==> call == Some(SubmitTitle(form, title).value) && toast == old(toast)
    {
      if form.company == "" {
        toast := Some(Toast(CompanyRequired, ErrorToast));
        return None;
      }
      var data := TitleData(form, ParseFloat(form.amount),
                            if form.feesPercentageMonthly != "" then FeeFraction(form.feesPercentageMonthly) else ZeroNumber,
                            if form.installments != "" then Some(ParseInt(form.installments)) else None);
      call := Some(TitleSave(data, if title.Some? then title.value.uuid else None));
    }
  }
}
