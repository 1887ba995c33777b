/**
 * The company list page: the tax-regime badge (label and colour), the
 * initial load, and the delete confirmation that removes the company from
 * the list shown.
 */
module CompanyPage {
  import opened Common

  datatype Company = Company(uuid: string, cnpj: string, fantasyName: string, socialReason: string, taxRegime: string)

  predicate KnownRegime(regime: string)
  {
    regime == "simples_nacional" || regime == "lucro_presumido" || regime == "lucro_real"
  }

  /** `getTaxRegimeLabel`: the three regimes by name; any other value as it is. */
  function TaxRegimeLabel(regime: string): (text: string)
    ensures regime == "simples_nacional" ==> text == "Simples Nacional"
    ensures regime == "lucro_presumido" ==> text == "Lucro Presumido"
    ensures regime == "lucro_real" ==> text == "Lucro Real"
    ensures !KnownRegime(regime) ==> text == regime
  {
    if regime == "simples_nacional" then "Simples Nacional"
    else if regime == "lucro_presumido" then "Lucro Presumido"
    else if regime == "lucro_real" then "Lucro Real"
    else regime
  }

  /** `getTaxRegimeColor`: success, warning and info for the three regimes; gray for anything else. */
  function TaxRegimeColor(regime: string): (color: string)
    ensures color == "gray" <==> !KnownRegime(regime)
    ensures regime == "simples_nacional" ==> color == "success"
    ensures regime == "lucro_presumido" ==> color == "warning"
    ensures regime == "lucro_real" ==> color == "info"
  {
    if regime == "simples_nacional" then "success"
    else if regime == "lucro_presumido" then "warning"
    else if regime == "lucro_real" then "info"
    else "gray"
  }

  /** The badge tells the regimes apart: distinct regimes never share both label and colour. */
  lemma {:induction false} BadgeDistinguishesRegimes(r1: string, r2: string)
    requires r1 != r2
    ensures TaxRegimeLabel(r1) != TaxRegimeLabel(r2) || TaxRegimeColor(r1) != TaxRegimeColor(r2)
  {
    if !KnownRegime(r1) && !KnownRegime(r2) {
      assert TaxRegimeLabel(r1) == r1 && TaxRegimeLabel(r2) == r2;
    }
  }

  /** The list after deleting `uuid`: every other company, in order. */
  function Without(companies: seq<Company>, uuid: string): (r: seq<Company>)
    ensures |r| <= |companies|
    ensures forall c :: c in r <==> c in companies && c.uuid != uuid
  {
    Filter(companies, (c: Company) => c.uuid != uuid)
  }

  /** Deleting the same company twice leaves the list of the first delete. */
  lemma DeleteIdempotent(companies: seq<Company>, uuid: string)
    ensures Without(Without(companies, uuid), uuid) == Without(companies, uuid)
  {
    FilterIdempotent(companies, (c: Company) => c.uuid != uuid);
  }

  /** Deleting a uuid that is not listed leaves the list as it was. */
  lemma DeleteUnknownKeepsList(companies: seq<Company>, uuid: string)
    requires forall c :: c in companies ==> c.uuid != uuid
    ensures Without(companies, uuid) == companies
  {
    FilterKeepsAll(companies, (c: Company) => c.uuid != uuid);
  }

  const DeleteFailed := "Erro ao excluir empresa. Tente novamente."

  function DeletedMessage(c: Company): string
  {
    "Empresa \"" + c.fantasyName + "\" excluída com sucesso!"
  }

  class CompaniesPage {
    var companies: seq<Company>
    var isLoading: bool
    var modalOpen: bool
    var modalCompany: Option<Company>
    var toast: Option<Toast>

    constructor ()
      ensures companies == [] && isLoading && !modalOpen && modalCompany.None? && toast.None?
    {
      companies, isLoading, modalOpen, modalCompany, toast := [], true, false, None, None;
    }

    /** `loadCompanies`: the list, or an empty list when the request fails. */
    method Load(answer: Option<seq<Company>>)
      modifies this`companies, this`isLoading
      ensures companies == if answer.Some? then answer.value else []
      ensures !isLoading
    {
      isLoading := true;
      if answer.Some? {
        companies := answer.value;
      } else {
        companies := [];
      }
      isLoading := false;
    }

    method DeleteClick(c: Company)
      modifies this`modalOpen, this`modalCompany
      ensures modalOpen && modalCompany == Some(c)
    {
      modalOpen, modalCompany := true, Some(c);
    }

    method DeleteCancel()
      modifies this`modalOpen, this`modalCompany
      ensures !modalOpen && modalCompany.None?
    {
      modalOpen, modalCompany := false, None;
    }

    /**
     * `handleDeleteConfirm`: nothing without a selected company; otherwise
     * the delete request, the list without that uuid on success, and the
     * modal closed whatever the outcome.
     */
    method DeleteConfirm(deleted: bool) returns (request: Option<string>)
      modifies this`companies, this`toast, this`modalOpen, this`modalCompany
      ensures old(modalCompany).None? ==>
        request.None? && companies == old(companies) && toast == old(toast) &&
        modalOpen == old(modalOpen) && modalCompany.None?
      ensures old(modalCompany).Some? ==> request == Some(old(modalCompany).value.uuid)
      ensures old(modalCompany).Some? ==>
        companies == (if deleted then Without(old(companies), old(modalCompany).value.uuid) else old(companies))
      ensures old(modalCompany).Some? ==>
        toast == Some(if deleted then Toast(DeletedMessage(old(modalCompany).value), SuccessToast)
                      else Toast(DeleteFailed, ErrorToast))
      ensures old(modalCompany).Some? ==> !modalOpen && modalCompany.None?
    {
      if modalCompany.None? {
        return None;
      }
      var c := modalCompany.value;
      request := Some(c.uuid);
      if deleted {
        companies := Filter(companies, (x: Company) => x.uuid != c.uuid);
        toast := Some(Toast(DeletedMessage(c), SuccessToast));
      } else {
        toast := Some(Toast(DeleteFailed, ErrorToast));
      }
      modalOpen, modalCompany := false, None;
    }
  }

  /** Choosing a company and confirming a successful delete removes exactly that company's uuid from the list. */
  method DeleteRemovesOnlyThatCompany(page: CompaniesPage, c: Company) returns (request: Option<string>)
    modifies page
    ensures request == Some(c.uuid)
    ensures forall x :: x in page.companies <==> x in old(page.companies) && x.uuid != c.uuid
    ensures !page.modalOpen
  {
    page.DeleteClick(c);
    request := page.DeleteConfirm(true);
  }
}
