/**
 * The settlement-entry modal: how the form is filled when it opens, the
 * billing account its title's preset suggests, the type lock, and the
 * payload handed to `onSave`.
 */
module EntryModal {
  import opened Common

  const Income := "income"
  const Expense := "expense"

  /** `a ?? b`: the fallback only for a missing value (an empty string is kept). */
  function Nullish(o: Option<string>, fallback: string): (r: string)
    ensures o.Some? ==> r == o.value
    ensures o.None? ==> r == fallback
  {
    if o.Some? then o.value else fallback
  }

  /** The `title` of an entry being edited: a uuid string, an object, or absent. */
  datatype TitleRef = TitleString(uuid: string) | TitleObject(objectUuid: Option<string>) | NoTitle

  /** The `amount` of an entry being edited; `String(amount)` is kept as its text. */
  datatype AmountValue = AmountUndefined | AmountNull | AmountNumber(text: string)

  /** `Number(form.amount || 0)`, left symbolic: zero, or the number the text denotes. */
  datatype JsNumber = Zero | NumberOf(text: string)

  /** The `Partial<Entry>` the modal is opened with. */
  datatype EntryInput = EntryInput(
    uuid: Option<string>,
    description: Option<string>,
    title: TitleRef,
    amount: AmountValue,
    paidAt: Option<string>,
    typeOf: Option<string>,
    paymentMethod: Option<string>,
    billingAccount: Option<string>,
    createdAt: Option<string>)

  datatype EntryForm = EntryForm(
    description: string,
    title: string,
    amount: string,
    paidAt: string,
    typeOf: string,
    paymentMethod: string,
    billingAccount: string)

  datatype TitleOption = TitleOption(uuid: string, preset: Option<string>)

  datatype PresetOption = PresetOption(uuid: string, payableAccount: Option<string>, receivableAccount: Option<string>)

  datatype Payload = Payload(
    uuid: string,
    title: string,
    description: string,
    amount: JsNumber,
    paidAt: Option<string>,
    typeOf: string,
    paymentMethod: string,
    billingAccount: Option<string>,
    createdAt: string)

  /** What `submit` hands to `onSave`: the payload and `entry?.uuid`. */
  datatype SaveCall = SaveCall(payload: Payload, uuid: Option<string>)

  /** The blank form, typed by the forced type or 'income'. */
  function BlankForm(forceType: Option<string>): EntryForm
  {
    EntryForm("", "", "", "", Nullish(forceType, Income), "", "")
  }

  /** The form the opening effect sets for `entry`. */
  function FormForEntry(entry: Option<EntryInput>, forceType: Option<string>): (f: EntryForm)
    ensures entry.None? || !Truthy(entry.value.uuid) ==> f == BlankForm(forceType)
    ensures entry.Some? && Truthy(entry.value.uuid) ==>
      var e := entry.value;
      f.description == Nullish(e.description, "") && f.paidAt == Nullish(e.paidAt, "") &&
      f.paymentMethod == Nullish(e.paymentMethod, "") && f.billingAccount == Nullish(e.billingAccount, "") &&
      f.typeOf == Nullish(e.typeOf, Nullish(forceType, Income)) &&
      (e.title.TitleString? ==> f.title == e.title.uuid) &&
      (e.title.TitleObject? ==> f.title == Nullish(e.title.objectUuid, "")) &&
      (e.amount.AmountUndefined? ==> f.amount == "") && (e.amount.AmountNumber? ==> f.amount == e.amount.text)
  {
    if entry.Some? && Truthy(entry.value.uuid) then
      var e := entry.value;
      EntryForm(
        Nullish(e.description, ""),
        match e.title
        case TitleString(u) => u
        case TitleObject(u) => Nullish(u, "")
        case NoTitle => "",
        match e.amount
        case AmountUndefined => ""
        case AmountNull => "null"
        case AmountNumber(t) => t,
        Nullish(e.paidAt, ""),
        Nullish(e.typeOf, Nullish(forceType, Income)),
        Nullish(e.paymentMethod, ""),
        Nullish(e.billingAccount, ""))
    else BlankForm(forceType)
  }

  /** `i` is the index `titles.find((t) => t.uuid === uuid)` stops at. */
  predicate FirstTitle(titles: seq<TitleOption>, uuid: string, i: int)
  {
    0 <= i < |titles| && titles[i].uuid == uuid && forall j :: 0 <= j < i ==> titles[j].uuid != uuid
  }

  /** `k` is the index `presets.find((p) => p.uuid === uuid)` stops at. */
  predicate FirstPreset(presets: seq<PresetOption>, uuid: string, k: int)
  {
    0 <= k < |presets| && presets[k].uuid == uuid && forall j :: 0 <= j < k ==> presets[j].uuid != uuid
  }

  /** The preset account for the form's type: payable for an expense, receivable otherwise. */
  function AccountForType(p: PresetOption, typeOf: string): Option<string>
  {
    if typeOf == Expense then p.payableAccount else p.receivableAccount
  }

  /**
   * The account the title's preset suggests, if the suggestion effect would
   * set one: a title is chosen, no account is set, the first title with that
   * uuid names a preset, the first preset with that uuid exists, and its
   * account for the form's type is non-empty.
   */
  function Suggestion(form: EntryForm, titles: seq<TitleOption>, presets: seq<PresetOption>): (r: Option<string>)
    ensures r.Some? ==> form.title != "" && form.billingAccount == "" && r.value != ""
    ensures (forall i :: 0 <= i < |titles| ==> titles[i].uuid != form.title) ==> r.None?
    ensures r.Some? ==>
      exists t, p :: t in titles && p in presets && t.uuid == form.title && t.preset == Some(p.uuid) &&
        Some(r.value) == AccountForType(p, form.typeOf)
  {
    if form.title == "" || form.billingAccount != "" then None
    else
      var title := Find(titles, (t: TitleOption) => t.uuid == form.title);
      if title.None? || title.value.preset.None? then None
      else
        var pid := title.value.preset.value;
        var preset := Find(presets, (p: PresetOption) => p.uuid == pid);
        if preset.None? then None
        else
          var account := AccountForType(preset.value, form.typeOf);
          if Truthy(account) then account else None
  }

  /** With `i` the first title of the form's uuid, `Find` returns that title. */
  lemma FindFirstTitle(titles: seq<TitleOption>, uuid: string, i: int)
    requires FirstTitle(titles, uuid, i)
    ensures Find(titles, (t: TitleOption) => t.uuid == uuid) == Some(titles[i])
  {
    var found := Find(titles, (t: TitleOption) => t.uuid == uuid);
    var i' :| 0 <= i' < |titles| && titles[i'] == found.value && titles[i'].uuid == uuid &&
      (forall j :: 0 <= j < i' ==> titles[j].uuid != uuid);
    assert i' == i;
  }

  /** With `k` the first preset of the uuid, `Find` returns that preset. */
  lemma FindFirstPreset(presets: seq<PresetOption>, uuid: string, k: int)
    requires FirstPreset(presets, uuid, k)
    ensures Find(presets, (p: PresetOption) => p.uuid == uuid) == Some(presets[k])
  {
    var found := Find(presets, (p: PresetOption) => p.uuid == uuid);
    var k' :| 0 <= k' < |presets| && presets[k'] == found.value && presets[k'].uuid == uuid &&
      (forall j :: 0 <= j < k' ==> presets[j].uuid != uuid);
    assert k' == k;
  }

  /**
   * The suggestion is always made when the effect's conditions hold: a title
   * is chosen, no account is set, the first title with that uuid names a
   * preset, and `k` is the first preset with that uuid. The suggestion is
   * then that preset's account for the form's type, when it is non-empty.
   */
  lemma SuggestionFromFirstMatches(form: EntryForm, titles: seq<TitleOption>, presets: seq<PresetOption>, i: int, k: int)
    requires form.title != "" && form.billingAccount == ""
    requires FirstTitle(titles, form.title, i) && titles[i].preset.Some?
    requires FirstPreset(presets, titles[i].preset.value, k)
    ensures Suggestion(form, titles, presets) ==
      if Truthy(AccountForType(presets[k], form.typeOf)) then AccountForType(presets[k], form.typeOf) else None
  {
    FindFirstTitle(titles, form.title, i);
    FindFirstPreset(presets, titles[i].preset.value, k);
  }

  /** No suggestion when the first title with the form's uuid names no preset, or names one that is not loaded. */
  lemma NoSuggestionWithoutPreset(form: EntryForm, titles: seq<TitleOption>, presets: seq<PresetOption>, i: int)
    requires FirstTitle(titles, form.title, i)
    requires titles[i].preset.None? || forall k :: 0 <= k < |presets| ==> presets[k].uuid != titles[i].preset.value
    ensures Suggestion(form, titles, presets).None?
  {
    FindFirstTitle(titles, form.title, i);
  }

  /** `submit`: the trimmed description, the amount as a number, and the empty optional fields as null. */
  function SubmitCall(form: EntryForm, entry: Option<EntryInput>, now: string): (c: SaveCall)
    ensures c.payload.description == Trim(form.description) && c.payload.title == form.title
    ensures c.payload.typeOf == form.typeOf && c.payload.paymentMethod == form.paymentMethod
    ensures c.payload.amount == (if form.amount == "" then Zero else NumberOf(form.amount))
    ensures c.payload.paidAt.None? <==> form.paidAt == ""
    ensures c.payload.billingAccount.None? <==> form.billingAccount == ""
    ensures c.payload.createdAt == (if entry.Some? && Truthy(entry.value.createdAt) then entry.value.createdAt.value else now)
    ensures c.uuid == (if entry.Some? then entry.value.uuid else None)
    ensures c.payload.uuid == (if entry.Some? then OrEmpty(entry.value.uuid) else "")
  {
    var e := entry;
    SaveCall(
      Payload(
        if e.Some? then OrEmpty(e.value.uuid) else "",
        form.title,
        Trim(form.description),
        if form.amount == "" then Zero else NumberOf(form.amount),
        if form.paidAt == "" then None else Some(form.paidAt),
        form.typeOf,
        form.paymentMethod,
        if form.billingAccount == "" then None else Some(form.billingAccount),
        if e.Some? && Truthy(e.value.createdAt) then e.value.createdAt.value else now),
      if e.Some? then e.value.uuid else None)
  }

  /** Opening an entry and saving it untouched sends back its title, dates, account and uuid. */
  lemma EditSubmitRoundTrip(e: EntryInput, forceType: Option<string>, now: string)
    requires Truthy(e.uuid) && e.title.TitleString?
    ensures var c := SubmitCall(FormForEntry(Some(e), forceType), Some(e), now);
      c.uuid == e.uuid && c.payload.uuid == e.uuid.value &&
      c.payload.title == e.title.uuid &&
      (Truthy(e.paidAt) ==> c.payload.paidAt == e.paidAt) &&
      (!Truthy(e.paidAt) ==> c.payload.paidAt.None?) &&
      (Truthy(e.billingAccount) ==> c.payload.billingAccount == e.billingAccount) &&
      (Truthy(e.createdAt) ==> c.payload.createdAt == e.createdAt.value) &&
      c.payload.description == Trim(Nullish(e.description, ""))
  {
  }

  /** An entry's own type wins over the forced type; only a missing type falls back to it. */
  lemma EditedTypeBeatsForcedType(e: EntryInput, forced: string)
    requires Truthy(e.uuid) && e.typeOf.Some?
    ensures FormForEntry(Some(e), Some(forced)).typeOf == e.typeOf.value
    ensures FormForEntry(Some(e.(typeOf := None)), Some(forced)).typeOf == forced
  {
  }

  class CreateEntryModal {
    const forceType: Option<string>
    var form: EntryForm

    constructor (forceType: Option<string>)
      ensures this.forceType == forceType
      ensures form == EntryForm("", "", "", "", Income, "", "")
    {
      this.forceType := forceType;
      form := EntryForm("", "", "", "", Income, "", "");
    }

    /** The opening effect: the form of `entry` while open; nothing while closed. */
    method Open(isOpen: bool, entry: Option<EntryInput>)
      modifies this`form
      ensures form == if isOpen then FormForEntry(entry, forceType) else old(form)
    {
      if !isOpen {
        return;
      }
      if entry.Some? && Truthy(entry.value.uuid) {
        var e := entry.value;
        var title := match e.title
          case TitleString(u) => u
          case TitleObject(u) => Nullish(u, "")
          case NoTitle => "";
        var amount := match e.amount
          case AmountUndefined => ""
          case AmountNull => "null"
          case AmountNumber(t) => t;
        form := EntryForm(Nullish(e.description, ""), title, amount, Nullish(e.paidAt, ""),
                          Nullish(e.typeOf, Nullish(forceType, Income)), Nullish(e.paymentMethod, ""),
                          Nullish(e.billingAccount, ""));
      } else {
        form := EntryForm("", "", "", "", Nullish(forceType, Income), "", "");
      }
    }

    /** The suggestion effect: fills an empty billing account from the title's preset, and nothing else. */
    method Suggest(isOpen: bool, titles: seq<TitleOption>, presets: seq<PresetOption>)
      modifies this`form
      ensures !isOpen || Suggestion(old(form), titles, presets).None? ==> form == old(form)
      ensures isOpen && Suggestion(old(form), titles, presets).Some? ==>
        form == old(form).(billingAccount := Suggestion(old(form), titles, presets).value)
    {
      if !isOpen {
        return;
      }
      var s := Suggestion(form, titles, presets);
      if s.Some? {
        form := form.(billingAccount := s.value);
      }
    }

    /** The type select: ignored while a type is forced. */
    method ChangeType(value: string)
      modifies this`form
      ensures forceType.Some? ==> form == old(form)
      ensures forceType.None? ==> form == old(form).(typeOf := value)
    {
      if forceType.None? {
        form := form.(typeOf := value);
      }
    }

    method ChooseBillingAccount(value: string)
      modifies this`form
      ensures form == old(form).(billingAccount := value)
    {
      form := form.(billingAccount := value);
    }

    /** `submit`: one call to `onSave`. */
    method Submit(entry: Option<EntryInput>, now: string) returns (call: SaveCall)
      ensures call == SubmitCall(form, entry, now)
    {
      var payload := Payload(
        if entry.Some? then OrEmpty(entry.value.uuid) else "",
        form.title,
        Trim(form.description),
        if form.amount == "" then Zero else NumberOf(form.amount),
        if form.paidAt == "" then None else Some(form.paidAt),
        form.typeOf,
        form.paymentMethod,
        if form.billingAccount == "" then None else Some(form.billingAccount),
        if entry.Some? && Truthy(entry.value.createdAt) then entry.value.createdAt.value else now);
      call := SaveCall(payload, if entry.Some? then entry.value.uuid else None);
    }
  }

  /** A billing account the user chose is never replaced by the suggestion. */
  method ChosenAccountKept(m: CreateEntryModal, account: string, titles: seq<TitleOption>, presets: seq<PresetOption>)
    requires account != ""
    modifies m
    ensures m.form.billingAccount == account
  {
    m.ChooseBillingAccount(account);
    m.Suggest(true, titles, presets);
  }

  /** With a forced type, a new entry starts with that type and keeps it whatever the select says. */
  method ForcedTypeHolds(m: CreateEntryModal, choice: string)
    requires m.forceType.Some?
    modifies m
    ensures m.form.typeOf == m.forceType.value
  {
    m.Open(true, None);
    m.ChangeType(choice);
  }
}
