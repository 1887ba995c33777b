/**
 * The two history-preset pages (the stand-alone page and the one under
 * settings): the preset filter, the account list gathered from every plan
 * (de-duplicated by uuid on the stand-alone page), the account and plan
 * names shown in the table, and the form, save and delete handlers.
 */
module HistoryPresets {
  import opened Common

  /** A preset as listed; the plan and the accounts may be null. */
  datatype Preset = Preset(
    uuid: string,
    name: string,
    description: string,
    billingPlan: Option<string>,
    payableAccount: Option<string>,
    receivableAccount: Option<string>,
    payableName: Option<string>,
    receivableName: Option<string>)

  datatype Account = Account(uuid: string, name: string, code: string)

  datatype Plan = Plan(uuid: string, name: string)

  datatype PresetForm = PresetForm(
    name: string,
    description: string,
    billingPlan: string,
    payableAccount: string,
    receivableAccount: string)

  const EmptyForm := PresetForm("", "", "", "", "")

  const LoadFailed := "Erro ao carregar dados."
  const FillRequired := "Preencha todos os campos obrigatórios."
  const Updated := "Histórico atualizado!"
  const Created := "Histórico criado!"
  const SaveFailed := "Erro ao salvar."
  const Deleted := "Histórico excluído!"
  const DeleteFailed := "Erro ao excluir."
  const NoAccount := "—"
  const NoPlan := "Plano não encontrado"

  // ---------------------------------------------------------------------
  // The preset filter (the same rule on both pages)

  predicate MatchesPlan(p: Preset, filterPlan: string)
  {
    filterPlan == "" || p.billingPlan == Some(filterPlan)
  }

  /** The trimmed, lower-cased search occurs in the lower-cased name or description. */
  predicate MatchesText(p: Preset, searchText: string)
  {
    var s := Lower(Trim(searchText));
    s == [] || Contains(Lower(p.name), s) || Contains(Lower(p.description), s)
  }

  /** `filteredPresets`. */
  function FilteredPresets(presets: seq<Preset>, filterPlan: string, searchText: string): (r: seq<Preset>)
    ensures |r| <= |presets|
    ensures forall p :: p in r <==> p in presets && MatchesPlan(p, filterPlan) && MatchesText(p, searchText)
  {
    Filter(presets, (p: Preset) => MatchesPlan(p, filterPlan) && MatchesText(p, searchText))
  }

  /** No plan chosen and a blank search: every preset is shown, in order. */
  lemma BlankFiltersShowAll(presets: seq<Preset>, searchText: string)
    requires Trim(searchText) == []
    ensures FilteredPresets(presets, "", searchText) == presets
  {
    assert Lower(Trim(searchText)) == [];
    FilterKeepsAll(presets, (p: Preset) => MatchesPlan(p, "") && MatchesText(p, searchText));
  }

  /** Choosing a plan only narrows the text-filtered list, keeping its order. */
  lemma PlanFilterNarrows(presets: seq<Preset>, filterPlan: string, searchText: string)
    ensures FilteredPresets(presets, filterPlan, searchText) ==
      Filter(FilteredPresets(presets, "", searchText), (p: Preset) => MatchesPlan(p, filterPlan))
  {
    var textOnly := (p: Preset) => MatchesPlan(p, "") && MatchesText(p, searchText);
    var plan := (p: Preset) => MatchesPlan(p, filterPlan);
    var both := (p: Preset) => MatchesPlan(p, filterPlan) && MatchesText(p, searchText);
    forall p | p in presets ensures both(p) == (textOnly(p) && plan(p)) {
    }
    FilterThenFilter(presets, textOnly, plan, both);
  }

  // ---------------------------------------------------------------------
  // Gathering the accounts of every plan

  /** The accounts of every plan, plan after plan; None when a plan's request fails. */
  function Gathered(plans: seq<Plan>, byPlan: map<string, seq<Account>>): (r: Option<seq<Account>>)
    ensures r.None? <==> exists i :: 0 <= i < |plans| && plans[i].uuid !in byPlan
    ensures r.Some? ==> forall i :: 0 <= i < |plans| ==> forall a :: a in byPlan[plans[i].uuid] ==> a in r.value
  {
    if plans == [] then Some([])
    else
      var init := plans[..|plans| - 1];
      var last := plans[|plans| - 1];
      assert forall i :: 0 <= i < |init| ==> init[i] == plans[i];
      var before := Gathered(init, byPlan);
      if before.None? || last.uuid !in byPlan then None
      else Some(before.value + byPlan[last.uuid])
  }

  /** The loop of `loadAllAccounts`: one request per plan, each answer appended. */
  method GatherAccounts(plans: seq<Plan>, byPlan: map<string, seq<Account>>) returns (all: Option<seq<Account>>)
    ensures all == Gathered(plans, byPlan)
  {
    var acc: seq<Account> := [];
    var i := 0;
    while i < |plans|
      invariant 0 <= i <= |plans|
      invariant Gathered(plans[..i], byPlan) == Some(acc)
    {
      if plans[i].uuid !in byPlan {
        return None;
      }
      assert plans[..i + 1][..i] == plans[..i];
      acc := acc + byPlan[plans[i].uuid];
      i := i + 1;
    }
    assert plans[..i] == plans;
    return Some(acc);
  }

  // ---------------------------------------------------------------------
  // De-duplication by uuid through a Map

  function Uuids(accounts: seq<Account>): (r: seq<string>)
    ensures |r| == |accounts| && forall i :: 0 <= i < |accounts| ==> r[i] == accounts[i].uuid
  {
    seq(|accounts|, i requires 0 <= i < |accounts| => accounts[i].uuid)
  }

  /** The last account carrying uuid `u`, if any. */
  function LastWith(accounts: seq<Account>, u: string): (r: Option<Account>)
    ensures r.None? <==> forall i :: 0 <= i < |accounts| ==> accounts[i].uuid != u
    ensures r.Some? ==> r.value in accounts && r.value.uuid == u
  {
    if accounts == [] then None
    else if accounts[|accounts| - 1].uuid == u then Some(accounts[|accounts| - 1])
    else
      var init := accounts[..|accounts| - 1];
      assert forall i :: 0 <= i < |init| ==> init[i] == accounts[i];
      LastWith(init, u)
  }

  lemma UuidsCons(x: Account, rest: seq<Account>)
    ensures Uuids([x] + rest) == [x.uuid] + Uuids(rest)
  {
  }

  /** `map.set(a.uuid, a)`: an entry with that key is replaced where it stands; a new key goes last. */
  function SetEntry(entries: seq<Account>, a: Account): seq<Account>
  {
    if entries == [] then [a]
    else if entries[0].uuid == a.uuid then [a] + entries[1..]
    else [entries[0]] + SetEntry(entries[1..], a)
  }

  /** Setting a key keeps the key order, adding a new key at the end. */
  lemma {:induction false} SetEntryUuids(entries: seq<Account>, a: Account)
    ensures Uuids(SetEntry(entries, a)) == if a.uuid in Uuids(entries) then Uuids(entries) else Uuids(entries) + [a.uuid]
  {
    if entries == [] {
      assert Uuids([a]) == [a.uuid];
    } else if entries[0].uuid == a.uuid {
      assert Uuids(entries)[0] == a.uuid;
      assert Uuids(SetEntry(entries, a)) == Uuids(entries);
    } else {
      SetEntryUuids(entries[1..], a);
      assert entries == [entries[0]] + entries[1..];
      UuidsCons(entries[0], entries[1..]);
      UuidsCons(entries[0], SetEntry(entries[1..], a));
    }
  }

  /** In a map without repeated keys, setting `a` leaves `a` and the entries with other keys. */
  lemma {:induction false} SetEntryMembers(entries: seq<Account>, a: Account)
    requires NoDuplicates(Uuids(entries))
    ensures a in SetEntry(entries, a)
    ensures forall x :: x in SetEntry(entries, a) ==> x == a || (x in entries && x.uuid != a.uuid)
  {
    if entries == [] {
    } else if entries[0].uuid == a.uuid {
      forall x | x in entries[1..] ensures x.uuid != a.uuid {
        var j :| 0 <= j < |entries[1..]| && entries[1..][j] == x;
        assert Uuids(entries)[j + 1] != Uuids(entries)[0];
      }
    } else {
      assert Uuids(entries[1..]) == Uuids(entries)[1..];
      SetEntryMembers(entries[1..], a);
    }
  }

  /** `Array.from(new Map(accounts.map(a => [a.uuid, a])).values())`. */
  function UniqueByUuid(accounts: seq<Account>): (r: seq<Account>)
  {
    if accounts == [] then []
    else SetEntry(UniqueByUuid(accounts[..|accounts| - 1]), accounts[|accounts| - 1])
  }

  /** The merged list holds each uuid once, in order of first appearance. */
  lemma {:induction false} UniqueByUuidKeys(accounts: seq<Account>)
    ensures Uuids(UniqueByUuid(accounts)) == Distinct(Uuids(accounts))
  {
    if accounts != [] {
      var init := accounts[..|accounts| - 1];
      var last := accounts[|accounts| - 1];
      var before, ui := UniqueByUuid(init), Uuids(init);
      assert UniqueByUuid(accounts) == SetEntry(before, last);
      UniqueByUuidKeys(init);
      assert Uuids(before) == Distinct(ui);
      assert last.uuid in Uuids(before) <==> last.uuid in ui;
      SetEntryUuids(before, last);
      var ua, us := Uuids(accounts), ui + [last.uuid];
      assert |ua| == |us|;
      forall i | 0 <= i < |ua| ensures ua[i] == us[i] {
        if i < |init| {
          assert us[i] == ui[i] == init[i].uuid && init[i] == accounts[i];
        }
      }
      assert ua == us;
      DistinctSnoc(ui, last.uuid);
    }
  }

  /** Each record of the merged list is the last one loaded with its uuid. */
  lemma {:induction false} UniqueByUuidRecords(accounts: seq<Account>)
    ensures forall x :: x in UniqueByUuid(accounts) ==> LastWith(accounts, x.uuid) == Some(x)
  {
    if accounts != [] {
      var init := accounts[..|accounts| - 1];
      var last := accounts[|accounts| - 1];
      UniqueByUuidRecords(init);
      UniqueByUuidKeys(init);
      var before := UniqueByUuid(init);
      SetEntryMembers(before, last);
      forall x | x in UniqueByUuid(accounts) ensures LastWith(accounts, x.uuid) == Some(x) {
        if x != last {
          assert x in before && x.uuid != last.uuid;
        }
      }
    }
  }

  /**
   * The merged list holds each uuid once, in order of first appearance, and
   * for each uuid the record of its last appearance.
   */
  lemma UniqueByUuidSpec(accounts: seq<Account>)
    ensures Uuids(UniqueByUuid(accounts)) == Distinct(Uuids(accounts))
    ensures forall x :: x in UniqueByUuid(accounts) ==> LastWith(accounts, x.uuid) == Some(x)
  {
    UniqueByUuidKeys(accounts);
    UniqueByUuidRecords(accounts);
  }

  /** The first account whose uuid is `uuid` (a null uuid finds nothing). */
  function FindAccount(accounts: seq<Account>, uuid: Option<string>): (r: Option<Account>)
    ensures r.None? <==> forall i :: 0 <= i < |accounts| ==> uuid != Some(accounts[i].uuid)
    ensures r.Some? ==> exists i ::
      0 <= i < |accounts| && accounts[i] == r.value && uuid == Some(r.value.uuid) &&
      forall j :: 0 <= j < i ==> uuid != Some(accounts[j].uuid)
  {
    Find(accounts, (a: Account) => uuid == Some(a.uuid))
  }

  /** Looking a uuid up in the merged list finds the record of its last appearance. */
  lemma {:induction false} LookupAfterMerge(accounts: seq<Account>, u: string)
    ensures FindAccount(UniqueByUuid(accounts), Some(u)) == LastWith(accounts, u)
  {
    UniqueByUuidSpec(accounts);
    var merged := UniqueByUuid(accounts);
    var found := FindAccount(merged, Some(u));
    if LastWith(accounts, u).Some? {
      assert u in Uuids(accounts);
      assert u in Uuids(merged);
      var k :| 0 <= k < |merged| && Uuids(merged)[k] == u;
      assert merged[k].uuid == u;
      assert found.Some?;
    } else {
      forall i | 0 <= i < |merged| ensures merged[i].uuid != u {
        assert Uuids(merged)[i] in Distinct(Uuids(accounts));
      }
    }
  }

  // ---------------------------------------------------------------------
  // Names shown in the tables

  /**
   * `getAccountName` of the stand-alone page: the listed account's name when
   * it is not empty, else the preset's own payable or receivable name.
   */
  function AccountName(accounts: seq<Account>, preset: Preset, uuid: Option<string>, payable: bool): (name: Option<string>)
    ensures var fallback := if payable then preset.payableName else preset.receivableName;
      var found := FindAccount(accounts, uuid);
      name == (if found.Some? && found.value.name != "" then Some(found.value.name) else fallback)
  {
    var found := FindAccount(accounts, uuid);
    if found.Some? && found.value.name != "" then Some(found.value.name)
    else if payable then preset.payableName
    else preset.receivableName
  }

  /** With the merged list, the name shown for a known uuid is the one from its last record. */
  lemma {:induction false} ShownNameIsLastRecord(all: seq<Account>, preset: Preset, u: string, payable: bool)
    requires LastWith(all, u).Some? && LastWith(all, u).value.name != ""
    ensures AccountName(UniqueByUuid(all), preset, Some(u), payable) == Some(LastWith(all, u).value.name)
  {
    LookupAfterMerge(all, u);
  }

  /** `getAccountName` of the settings page: '—' for a null or empty uuid or an unknown one. */
  function AccountLabel(accounts: seq<Account>, uuid: Option<string>): (text: string)
    ensures !Truthy(uuid) ==> text == NoAccount
    ensures Truthy(uuid) && (forall i :: 0 <= i < |accounts| ==> accounts[i].uuid != uuid.value) ==> text == NoAccount
    ensures forall i ::
      (Truthy(uuid) && 0 <= i < |accounts| && accounts[i].uuid == uuid.value &&
       forall j :: 0 <= j < i ==> accounts[j].uuid != uuid.value)
      ==> text == accounts[i].name
  {
    if !Truthy(uuid) then NoAccount
    else
      var found := FindAccount(accounts, uuid);
      if found.Some? then found.value.name else NoAccount
  }

  /** `getPlanName`: the first plan with that uuid, else 'Plano não encontrado'. */
  function PlanName(plans: seq<Plan>, uuid: Option<string>): (text: string)
    ensures !Truthy(uuid) ==> text == NoPlan
    ensures Truthy(uuid) && (forall i :: 0 <= i < |plans| ==> plans[i].uuid != uuid.value) ==> text == NoPlan
    ensures forall i ::
      (Truthy(uuid) && 0 <= i < |plans| && plans[i].uuid == uuid.value &&
       forall j :: 0 <= j < i ==> plans[j].uuid != uuid.value)
      ==> text == plans[i].name
  {
    if !Truthy(uuid) then NoPlan
    else
      var found := Find(plans, (p: Plan) => p.uuid == uuid.value);
      if found.Some? then found.value.name else NoPlan
  }

  // ---------------------------------------------------------------------
  // The form

  /** The form a preset opens with (null fields become ''), or the empty form. */
  function OpenedForm(preset: Option<Preset>): (f: PresetForm)
    ensures preset.None? ==> f == EmptyForm
    ensures preset.Some? ==>
      f.name == preset.value.name && f.description == preset.value.description &&
      f.billingPlan == OrEmpty(preset.value.billingPlan) &&
      f.payableAccount == OrEmpty(preset.value.payableAccount) &&
      f.receivableAccount == OrEmpty(preset.value.receivableAccount)
  {
    if preset.None? then EmptyForm
    else
      var p := preset.value;
      PresetForm(p.name, p.description, OrEmpty(p.billingPlan), OrEmpty(p.payableAccount), OrEmpty(p.receivableAccount))
  }

  /** The save guard: a blank name, or no plan, payable or receivable account. */
  predicate MissingRequired(f: PresetForm)
  {
    Trim(f.name) == [] || f.billingPlan == "" || f.payableAccount == "" || f.receivableAccount == ""
  }

  /** A preset opened for editing can be saved as it is exactly when its name and all three links are set. */
  lemma OpenedPresetSavable(p: Preset)
    ensures !MissingRequired(OpenedForm(Some(p))) <==>
      Trim(p.name) != [] && Truthy(p.billingPlan) && Truthy(p.payableAccount) && Truthy(p.receivableAccount)
  {
  }

  /** The new-preset form is never saved as it opens. */
  lemma EmptyFormRefused()
    ensures MissingRequired(OpenedForm(None))
  {
    assert Trim("") == [];
  }

  /** What `savePreset` receives: the form and `editing?.uuid`. */
  datatype SaveRequest = SaveRequest(form: PresetForm, uuid: Option<string>)

  function EditingUuid(editing: Option<Preset>): Option<string>
  {
    if editing.Some? then Some(editing.value.uuid) else None
  }

  /** The toast `handleSave` ends with. */
  function SaveToast(form: PresetForm, editing: bool, succeeded: bool): (t: Toast)
    ensures MissingRequired(form) ==> t == Toast(FillRequired, WarningToast)
    ensures !MissingRequired(form) && succeeded ==> t == Toast(if editing then Updated else Created, SuccessToast)
    ensures !MissingRequired(form) && !succeeded ==> t == Toast(SaveFailed, ErrorToast)
  {
    if MissingRequired(form) then Toast(FillRequired, WarningToast)
    else if succeeded then Toast(if editing then Updated else Created, SuccessToast)
    else Toast(SaveFailed, ErrorToast)
  }

  /**
   * The state both history-preset pages keep. `pendingDelete` is the
   * settings page's confirmation dialog (null or without a preset: None).
   * Every request is a parameter: `Some` is its answer, `None` a failure.
   */
  class PresetsPage {
    var presets: seq<Preset>
    var plans: seq<Plan>
    var accounts: seq<Account>
    var modalAccounts: seq<Account>
    var openModal: bool
    var editing: Option<Preset>
    var loading: bool
    var toast: Option<Toast>
    var form: PresetForm
    var pendingDelete: Option<Preset>

    constructor ()
      ensures presets == [] && plans == [] && accounts == [] && modalAccounts == []
      ensures !openModal && editing.None? && !loading && toast.None? && form == EmptyForm && pendingDelete.None?
    {
      presets, plans, accounts, modalAccounts := [], [], [], [];
      openModal, editing, loading, toast := false, None, false, None;
      form, pendingDelete := EmptyForm, None;
    }

    /** `fetchData`: plans and presets together, or the error toast. */
    method LoadData(plansAnswer: Option<seq<Plan>>, presetsAnswer: Option<seq<Preset>>)
      modifies this`plans, this`presets, this`toast
      ensures plansAnswer.Some? && presetsAnswer.Some? ==>
        plans == plansAnswer.value && presets == presetsAnswer.value && toast == old(toast)
      ensures plansAnswer.None? || presetsAnswer.None? ==>
        plans == old(plans) && presets == old(presets) && toast == Some(Toast(LoadFailed, ErrorToast))
    {
      if plansAnswer.Some? && presetsAnswer.Some? {
        plans := plansAnswer.value;
        presets := presetsAnswer.value;
      } else {
        toast := Some(Toast(LoadFailed, ErrorToast));
      }
    }

    /** `loadAllAccounts` of the stand-alone page: every plan's accounts, merged by uuid; a failure changes nothing. */
    method LoadAccountsMerged(plansAnswer: Option<seq<Plan>>, byPlan: map<string, seq<Account>>)
      modifies this`accounts
      ensures accounts ==
        if plansAnswer.Some? && Gathered(plansAnswer.value, byPlan).Some?
        then UniqueByUuid(Gathered(plansAnswer.value, byPlan).value)
        else old(accounts)
    {
      if plansAnswer.None? {
        return;
      }
      var all := GatherAccounts(plansAnswer.value, byPlan);
      if all.Some? {
        accounts := UniqueByUuid(all.value);
      }
    }

    /** `loadAllAccounts` of the settings page: every plan's accounts, concatenated as they come. */
    method LoadAccounts(plansAnswer: Option<seq<Plan>>, byPlan: map<string, seq<Account>>)
      modifies this`accounts
      ensures accounts ==
        if plansAnswer.Some? && Gathered(plansAnswer.value, byPlan).Some?
        then Gathered(plansAnswer.value, byPlan).value
        else old(accounts)
    {
      if plansAnswer.None? {
        return;
      }
      var all := GatherAccounts(plansAnswer.value, byPlan);
      if all.Some? {
        accounts := all.value;
      }
    }

    /**
     * `handleOpenModal` of the stand-alone page. Editing waits for the plan's
     * accounts before opening; if that request fails the modal stays as it was.
     */
    method OpenModal(preset: Option<Preset>, planAccounts: Option<seq<Account>>)
      modifies this`editing, this`form, this`modalAccounts, this`openModal
      ensures editing == preset && form == OpenedForm(preset)
      ensures modalAccounts ==
        if preset.None? then [] else if planAccounts.Some? then planAccounts.value else old(modalAccounts)
      ensures openModal == if preset.Some? && planAccounts.None? then old(openModal) else true
    {
      if preset.Some? {
        var p := preset.value;
        editing := preset;
        form := PresetForm(p.name, p.description, OrEmpty(p.billingPlan), OrEmpty(p.payableAccount), OrEmpty(p.receivableAccount));
        if planAccounts.None? {
          return;
        }
        modalAccounts := planAccounts.value;
      } else {
        editing := None;
        form := EmptyForm;
        modalAccounts := [];
      }
      openModal := true;
    }

    /**
     * `openForm` of the settings page: the modal opens at once, whatever the
     * request for the plan's accounts does. `planAccounts` is the answer that
     * `.then(setModalAccounts)` delivers, or None when the request fails.
     */
    method OpenForm(preset: Option<Preset>, planAccounts: Option<seq<Account>>)
      modifies this`editing, this`form, this`modalAccounts, this`openModal
      ensures editing == preset && form == OpenedForm(preset) && openModal
      ensures modalAccounts ==
        if preset.None? then [] else if planAccounts.Some? then planAccounts.value else old(modalAccounts)
    {
      if preset.Some? {
        var p := preset.value;
        editing := preset;
        form := PresetForm(p.name, p.description, OrEmpty(p.billingPlan), OrEmpty(p.payableAccount), OrEmpty(p.receivableAccount));
        if planAccounts.Some? {
          modalAccounts := planAccounts.value;
        }
      } else {
        editing := None;
        form := EmptyForm;
        modalAccounts := [];
      }
      openModal := true;
    }

    /** The plan select: both account choices are cleared; the plan's accounts are loaded. */
    method ChangePlan(planUuid: string, planAccounts: Option<seq<Account>>)
      modifies this`form, this`modalAccounts
      ensures form == old(form).(billingPlan := planUuid, payableAccount := "", receivableAccount := "")
      ensures modalAccounts ==
        if planUuid == "" then [] else if planAccounts.Some? then planAccounts.value else old(modalAccounts)
    {
      form := form.(billingPlan := planUuid, payableAccount := "", receivableAccount := "");
      if planUuid == "" {
        modalAccounts := [];
      } else if planAccounts.Some? {
        modalAccounts := planAccounts.value;
      }
    }

    /**
     * `handleSave`: nothing is sent while a required field is missing;
     * otherwise the save, then the reload; both must succeed.
     */
    method HandleSave(saved: bool, reloaded: Option<seq<Preset>>) returns (request: Option<SaveRequest>)
      modifies this`toast, this`loading, this`presets, this`openModal
      ensures request.None? <==> MissingRequired(form)
      ensures request.Some? ==> request.value == SaveRequest(form, EditingUuid(editing))
      ensures toast == Some(SaveToast(form, editing.Some?, saved && reloaded.Some?))
      ensures presets == if !MissingRequired(form) && saved && reloaded.Some? then reloaded.value else old(presets)
      ensures openModal == if !MissingRequired(form) && saved && reloaded.Some? then false else old(openModal)
      ensures loading == if MissingRequired(form) then old(loading) else false
    {
      if MissingRequired(form) {
        toast := Some(Toast(FillRequired, WarningToast));
        return None;
      }
      request := Some(SaveRequest(form, EditingUuid(editing)));
      SubmitSave(saved, reloaded);
    }

    /** The `try`/`finally` of `handleSave`: the save and the reload, then the toast; loading ends either way. */
    method SubmitSave(saved: bool, reloaded: Option<seq<Preset>>)
      modifies this`toast, this`loading, this`presets, this`openModal
      ensures toast == Some(if saved && reloaded.Some? then Toast(if editing.Some? then Updated else Created, SuccessToast)
                            else Toast(SaveFailed, ErrorToast))
      ensures presets == if saved && reloaded.Some? then reloaded.value else old(presets)
      ensures openModal == if saved && reloaded.Some? then false else old(openModal)
      ensures !loading
    {
      loading := true;
      if saved && reloaded.Some? {
        presets := reloaded.value;
        toast := Some(Toast(if editing.Some? then Updated else Created, SuccessToast));
        openModal := false;
      } else {
        toast := Some(Toast(SaveFailed, ErrorToast));
      }
      loading := false;
    }

    /** `handleDelete` of the stand-alone page: only after the browser confirmation. */
    method HandleDelete(preset: Preset, confirmed: bool, deleted: bool, reloaded: Option<seq<Preset>>)
      returns (request: Option<string>)
      modifies this`toast, this`presets
      ensures request == if confirmed then Some(preset.uuid) else None
      ensures presets == if confirmed && deleted && reloaded.Some? then reloaded.value else old(presets)
      ensures toast ==
        if !confirmed then old(toast)
        else if deleted && reloaded.Some? then Some(Toast(Deleted, SuccessToast))
        else Some(Toast(DeleteFailed, ErrorToast))
    {
      if !confirmed {
        return None;
      }
      request := Some(preset.uuid);
      if deleted && reloaded.Some? {
        presets := reloaded.value;
        toast := Some(Toast(Deleted, SuccessToast));
      } else {
        toast := Some(Toast(DeleteFailed, ErrorToast));
      }
    }

    /** The settings page's delete button: remembers the preset for the dialog. */
    method AskDelete(preset: Preset)
      modifies this`pendingDelete
      ensures pendingDelete == Some(preset)
    {
      pendingDelete := Some(preset);
    }

    /** `handleDeleteConfirm`: nothing without a pending preset; the dialog is closed after every attempt. */
    method DeleteConfirm(deleted: bool, reloaded: Option<seq<Preset>>) returns (request: Option<string>)
      modifies this`toast, this`presets, this`pendingDelete
      ensures old(pendingDelete).None? ==> request.None? && presets == old(presets) && toast == old(toast)
      ensures old(pendingDelete).Some? ==> request == Some(old(pendingDelete).value.uuid)
      ensures old(pendingDelete).Some? ==>
        presets == (if deleted && reloaded.Some? then reloaded.value else old(presets)) &&
        toast == Some(if deleted && reloaded.Some? then Toast(Deleted, SuccessToast) else Toast(DeleteFailed, ErrorToast))
      ensures pendingDelete == if old(pendingDelete).None? then old(pendingDelete) else None
    {
      if pendingDelete.None? {
        return None;
      }
      request := Some(pendingDelete.value.uuid);
      if deleted && reloaded.Some? {
        presets := reloaded.value;
        toast := Some(Toast(Deleted, SuccessToast));
      } else {
        toast := Some(Toast(DeleteFailed, ErrorToast));
      }
      pendingDelete := None;
    }
  }

  /** Changing the plan of any form and saving at once is refused: the accounts must be chosen again. */
  method SaveAfterPlanChangeRefused(page: PresetsPage, planUuid: string, planAccounts: Option<seq<Account>>,
                                    saved: bool, reloaded: Option<seq<Preset>>)
    returns (request: Option<SaveRequest>)
    modifies page
    ensures request.None?
    ensures page.toast == Some(Toast(FillRequired, WarningToast))
  {
    page.ChangePlan(planUuid, planAccounts);
    request := page.HandleSave(saved, reloaded);
  }
}
