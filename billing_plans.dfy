/**
 * Billing plans: the settings page that saves and deletes plans through the
 * API, the plan form it opens, and the older page that keeps its plans in a
 * local list.
 */
module BillingPlans {
  import opened Common

  datatype BillingPlan = BillingPlan(uuid: string, name: string, description: string)

  /** The `{ name, description }` the form edits and `onSave` receives. */
  datatype PlanInput = PlanInput(name: string, description: string)

  const EmptyInput := PlanInput("", "")

  const FetchFailed := "Erro ao buscar planos."
  const FillRequired := "Preencha todos os campos obrigatórios."
  const PlanUpdated := "Plano atualizado com sucesso!"
  const PlanCreated := "Plano cadastrado com sucesso!"
  const SaveFailed := "Erro ao salvar o plano."
  const PlanDeleted := "Plano excluído com sucesso!"
  const DeleteFailed := "Erro ao excluir o plano."

  /** The settings page's guard: a blank name or a blank description. */
  predicate PageRefuses(plan: PlanInput)
  {
    Trim(plan.name) == [] || Trim(plan.description) == []
  }

  /** The success message: 'atualizado' for a truthy uuid, 'cadastrado' otherwise. */
  function SavedMessage(uuid: Option<string>): (m: string)
    ensures m == PlanUpdated <==> Truthy(uuid)
    ensures m == PlanCreated <==> !Truthy(uuid)
  {
    if Truthy(uuid) then PlanUpdated else PlanCreated
  }

  /** What `saveBillingPlan` receives. */
  datatype SaveRequest = SaveRequest(plan: PlanInput, uuid: Option<string>)

  /** The settings page. Each request's outcome is a parameter; a refetch is reported, not performed. */
  class SettingsPlansPage {
    var billingPlans: seq<BillingPlan>
    var showModal: bool
    var editingPlan: Option<BillingPlan>
    var toast: Option<Toast>
    var pendingDelete: Option<string>

    constructor ()
      ensures billingPlans == [] && !showModal && editingPlan.None? && toast.None? && pendingDelete.None?
    {
      billingPlans, showModal, editingPlan, toast, pendingDelete := [], false, None, None, None;
    }

    /** `fetchPlans`: the list, or the error toast. */
    method FetchPlans(answer: Option<seq<BillingPlan>>)
      modifies this`billingPlans, this`toast
      ensures answer.Some? ==> billingPlans == answer.value && toast == old(toast)
      ensures answer.None? ==> billingPlans == old(billingPlans) && toast == Some(Toast(FetchFailed, ErrorToast))
    {
      if answer.Some? {
        billingPlans := answer.value;
      } else {
        toast := Some(Toast(FetchFailed, ErrorToast));
      }
    }

    /**
     * `handleSave`: refused with a warning for a blank name or description;
     * otherwise the save, and on success the message, the modal closed, the
     * editing plan cleared and a refetch. A failure changes only the toast.
     */
    method HandleSave(plan: PlanInput, uuid: Option<string>, saved: bool) returns (request: Option<SaveRequest>, refetch: bool)
      modifies this`toast, this`showModal, this`editingPlan
      ensures request.None? <==> PageRefuses(plan)
      ensures request.Some? ==> request.value == SaveRequest(plan, uuid)
      ensures refetch <==> !PageRefuses(plan) && saved
      ensures toast == Some(
        if PageRefuses(plan) then Toast(FillRequired, WarningToast)
        else if saved then Toast(SavedMessage(uuid), SuccessToast)
        else Toast(SaveFailed, ErrorToast))
      ensures showModal == (if refetch then false else old(showModal))
      ensures editingPlan == (if refetch then None else old(editingPlan))
    {
      if Trim(plan.name) == [] || Trim(plan.description) == [] {
        toast := Some(Toast(FillRequired, WarningToast));
        return None, false;
      }
      request := Some(SaveRequest(plan, uuid));
      if saved {
        toast := Some(Toast(if Truthy(uuid) then PlanUpdated else PlanCreated, SuccessToast));
        showModal := false;
        editingPlan := None;
        refetch := true;
      } else {
        toast := Some(Toast(SaveFailed, ErrorToast));
        refetch := false;
      }
    }

    /** `confirmDelete`: opens the dialog for that uuid. */
    method ConfirmDelete(uuid: string)
      modifies this`pendingDelete
      ensures pendingDelete == Some(uuid)
    {
      pendingDelete := Some(uuid);
    }

    /** `handleDelete`: nothing without a pending uuid; otherwise the delete, its toast, and the dialog cleared. */
    method HandleDelete(deleted: bool) returns (request: Option<string>, refetch: bool)
      modifies this`toast, this`pendingDelete
      ensures !Truthy(old(pendingDelete)) ==>
        request.None? && !refetch && toast == old(toast) && pendingDelete == old(pendingDelete)
      ensures Truthy(old(pendingDelete)) ==>
        request == old(pendingDelete) && (refetch <==> deleted) && pendingDelete.None? &&
        toast == Some(if deleted then Toast(PlanDeleted, SuccessToast) else Toast(DeleteFailed, ErrorToast))
    {
      if !Truthy(pendingDelete) {
        return None, false;
      }
      request := pendingDelete;
      if deleted {
        toast := Some(Toast(PlanDeleted, SuccessToast));
        refetch := true;
      } else {
        toast := Some(Toast(DeleteFailed, ErrorToast));
        refetch := false;
      }
      pendingDelete := None;
    }

    method HandleEdit(plan: BillingPlan)
      modifies this`editingPlan, this`showModal
      ensures editingPlan == Some(plan) && showModal
    {
      editingPlan := Some(plan);
      showModal := true;
    }

    method HandleNew()
      modifies this`editingPlan, this`showModal
      ensures editingPlan.None? && showModal
    {
      editingPlan := None;
      showModal := true;
    }

    /** The form's `onClose`. */
    method CloseModal()
      modifies this`showModal
      ensures !showModal
    {
      showModal := false;
    }
  }

  /** What the plan form calls, in order. */
  datatype FormCall = OnSave(plan: PlanInput, uuid: Option<string>) | OnClose

  /** The plan form: its fields follow the plan being edited; saving needs only a name. */
  class PlanFormView {
    var form: PlanInput

    constructor ()
      ensures form == EmptyInput
    {
      form := EmptyInput;
    }

    /** The effect on `editing`: the plan's name and description, or empty fields. */
    method Sync(editing: Option<BillingPlan>)
      modifies this`form
      ensures form == if editing.Some? then PlanInput(editing.value.name, editing.value.description) else EmptyInput
    {
      if editing.Some? {
        form := PlanInput(editing.value.name, editing.value.description);
      } else {
        form := EmptyInput;
      }
    }

    /** Field edits. */
    method SetName(name: string)
      modifies this`form
      ensures form == old(form).(name := name)
    {
      form := form.(name := name);
    }

    method SetDescription(description: string)
      modifies this`form
      ensures form == old(form).(description := description)
    {
      form := form.(description := description);
    }

    /** `handleSave`: nothing for a blank name; otherwise `onSave(form, editing?.uuid)` then `onClose()`. */
    method HandleSave(editing: Option<BillingPlan>) returns (calls: seq<FormCall>)
      ensures Trim(form.name) == [] ==> calls == []
      ensures Trim(form.name) != [] ==>
        calls == [OnSave(form, if editing.Some? then Some(editing.value.uuid) else None), OnClose]
    {
      if Trim(form.name) == [] {
        return [];
      }
      calls := [OnSave(form, if editing.Some? then Some(editing.value.uuid) else None)];
      calls := calls + [OnClose];
    }
  }

  /**
   * The form and the page together: a named plan with a blank description
   * passes the form, is refused by the page with a warning, and the modal
   * is closed anyway by the form's `onClose`.
   */
  method BlankDescriptionClosesWithWarning(page: SettingsPlansPage, view: PlanFormView, plan: PlanInput, saved: bool)
    returns (request: Option<SaveRequest>)
    requires view.form == plan && Trim(plan.name) != [] && Trim(plan.description) == []
    requires page != view as object
    modifies page
    ensures request.None?
    ensures page.toast == Some(Toast(FillRequired, WarningToast))
    ensures !page.showModal
  {
    var calls := view.HandleSave(page.editingPlan);
    assert calls[0].plan == plan;
    var refetch;
    request, refetch := page.HandleSave(calls[0].plan, calls[0].uuid, saved);
    page.CloseModal();
  }

  /** Editing a plan and saving it unchanged sends its own name, description and uuid. */
  method EditResavesSamePlan(page: SettingsPlansPage, view: PlanFormView, plan: BillingPlan)
    returns (calls: seq<FormCall>)
    requires Trim(plan.name) != []
    requires page != view as object
    modifies page, view
    ensures calls == [OnSave(PlanInput(plan.name, plan.description), Some(plan.uuid)), OnClose]
  {
    page.HandleEdit(plan);
    view.Sync(page.editingPlan);
    calls := view.HandleSave(page.editingPlan);
  }

  /** The older page: plans kept in a local list, created with a generated uuid. */
  class LocalPlansPage {
    var billingPlans: seq<BillingPlan>
    var showModal: bool
    var newPlan: PlanInput

    constructor ()
      ensures billingPlans == [BillingPlan("plan-001", "Plano Principal", "Plano de contas padrão"),
                               BillingPlan("plan-002", "Plano Secundário", "Plano adicional para fornecedores")]
      ensures !showModal && newPlan == EmptyInput
    {
      billingPlans := [BillingPlan("plan-001", "Plano Principal", "Plano de contas padrão"),
                       BillingPlan("plan-002", "Plano Secundário", "Plano adicional para fornecedores")];
      showModal := false;
      newPlan := EmptyInput;
    }

    /**
     * `addPlan`: a blank name raises the alert and changes nothing; otherwise
     * one plan (with `freshUuid`) is appended, the modal closes and the form empties.
     */
    method AddPlan(freshUuid: string) returns (alerted: bool)
      modifies this
      ensures alerted <==> Trim(old(newPlan).name) == []
      ensures alerted ==> billingPlans == old(billingPlans) && showModal == old(showModal) && newPlan == old(newPlan)
      ensures !alerted ==>
        billingPlans == old(billingPlans) + [BillingPlan(freshUuid, old(newPlan).name, old(newPlan).description)] &&
        !showModal && newPlan == EmptyInput
    {
      if Trim(newPlan.name) == [] {
        return true;
      }
      var plan := BillingPlan(freshUuid, newPlan.name, newPlan.description);
      billingPlans := billingPlans + [plan];
      showModal := false;
      newPlan := EmptyInput;
      return false;
    }
  }

  /** Adding keeps every earlier plan in its place and grows the list by exactly one. */
  method AddKeepsEarlierPlans(page: LocalPlansPage, freshUuid: string) returns (alerted: bool)
    modifies page
    ensures |page.billingPlans| == |old(page.billingPlans)| + (if alerted then 0 else 1)
    ensures forall i :: 0 <= i < |old(page.billingPlans)| ==> page.billingPlans[i] == old(page.billingPlans)[i]
  {
    alerted := page.AddPlan(freshUuid);
  }
}
