/**
 * The billing-account form (`BillingAccountForm`): parent options listed from
 * the whole account tree, the form loaded from the account being edited, the
 * name upper-cased as typed, and the payload built on save.
 */
module BillingAccountForm {
  import opened Common

  datatype AccountKind = Analytic | Synthetic

  /** An account as the API returns it, with its children. */
  datatype BillingAccount = BillingAccount(
    uuid: string,
    name: string,
    accountType: Option<AccountKind>,
    code: string,
    parent: Option<string>,
    billingPlan: string,
    children: seq<BillingAccount>)

  /** The form's `type_of` select: 'Sintética', 'Analítica' or ''. */
  datatype TypeOfAccount = Sintetica | Analitica | Unselected

  datatype AccountFormState = AccountFormState(name: string, parentId: string, typeOf: TypeOfAccount)

  const EmptyForm := AccountFormState("", "", Unselected)

  datatype Payload = Payload(name: string, accountType: AccountKind, parent: Option<string>, billingPlan: string)

  datatype Callback = OnSave(payload: Payload, uuid: Option<string>) | OnClose

  datatype ParentOption = ParentOption(uuid: string, labelText: string)

  function AccountsPreOrder(list: seq<BillingAccount>): (r: seq<BillingAccount>)
    ensures |r| >= |list|
    decreases list
  {
    if list == [] then []
    else [list[0]] + AccountsPreOrder(list[0].children) + AccountsPreOrder(list[1..])
  }

  function AccountUuid(a: BillingAccount): string
  {
    a.uuid
  }

  function OptionUuid(o: ParentOption): string
  {
    o.uuid
  }

  function OptionLabel(level: nat, acc: BillingAccount): string
  {
    Repeat("  ", level) + acc.code + " - " + acc.name
  }

  /** The options `generateParentOptions(list, level)` produces: every account, none filtered. */
  function ParentOptions(list: seq<BillingAccount>, level: nat): seq<ParentOption>
    decreases list
  {
    if list == [] then []
    else [ParentOption(list[0].uuid, OptionLabel(level, list[0]))]
         + ParentOptions(list[0].children, level + 1)
         + ParentOptions(list[1..], level)
  }

  lemma {:induction false} ParentOptionsAppend(a: seq<BillingAccount>, b: seq<BillingAccount>, level: nat)
    ensures ParentOptions(a + b, level) == ParentOptions(a, level) + ParentOptions(b, level)
  {
    if a == [] {
      assert a + b == b;
    } else {
      assert (a + b)[0] == a[0];
      assert (a + b)[1..] == a[1..] + b;
      ParentOptionsAppend(a[1..], b, level);
    }
  }

  /** The options list every account of the tree exactly once, in pre-order. */
  lemma {:induction false} ParentOptionsArePreOrder(list: seq<BillingAccount>, level: nat)
    ensures Map(OptionUuid, ParentOptions(list, level)) == Map(AccountUuid, AccountsPreOrder(list))
    decreases list
  {
    if list != [] {
      var a := list[0];
      ParentOptionsArePreOrder(a.children, level + 1);
      ParentOptionsArePreOrder(list[1..], level);
      var head := [ParentOption(a.uuid, OptionLabel(level, a))];
      MapAppend(OptionUuid, head + ParentOptions(a.children, level + 1), ParentOptions(list[1..], level));
      MapAppend(OptionUuid, head, ParentOptions(a.children, level + 1));
      MapAppend(AccountUuid, [a] + AccountsPreOrder(a.children), AccountsPreOrder(list[1..]));
      MapAppend(AccountUuid, [a], AccountsPreOrder(a.children));
    }
  }

  /** Nothing is filtered: an account being edited is offered as a parent of itself. */
  lemma EditedAccountOfferedAsOwnParent(list: seq<BillingAccount>, i: nat)
    requires i < |list|
    ensures list[i].uuid in Map(OptionUuid, ParentOptions(list, 0))
  {
    ParentOptionsArePreOrder(list, 0);
    PreOrderContainsTop(list, i);
  }

  lemma {:induction false} PreOrderContainsTop(list: seq<BillingAccount>, i: nat)
    requires i < |list|
    ensures list[i].uuid in Map(AccountUuid, AccountsPreOrder(list))
    decreases list
  {
    MapAppend(AccountUuid, [list[0]] + AccountsPreOrder(list[0].children), AccountsPreOrder(list[1..]));
    if i > 0 {
      PreOrderContainsTop(list[1..], i - 1);
    }
  }

  /** The edit effect: the form an account (or none) loads. */
  function FormFor(editing: Option<BillingAccount>): (f: AccountFormState)
    ensures editing.None? ==> f == EmptyForm
    ensures editing.Some? ==> f.name == editing.value.name && f.parentId == OrEmpty(editing.value.parent)
    ensures editing.Some? ==> (f.typeOf == Analitica <==> editing.value.accountType == Some(Analytic))
    ensures editing.Some? ==> (f.typeOf == Sintetica <==> editing.value.accountType == Some(Synthetic))
  {
    if editing.None? then EmptyForm
    else
      var acc := editing.value;
      AccountFormState(acc.name, if acc.parent.Some? then acc.parent.value else "",
        match acc.accountType
        case Some(Analytic) => Analitica
        case Some(Synthetic) => Sintetica
        case None => Unselected)
  }

  /** The payload `handleSave` sends, or None when it returns early. */
  function PayloadFor(form: AccountFormState, planId: string): (r: Option<Payload>)
    ensures r.None? <==> Trim(form.name) == "" || form.typeOf == Unselected
    ensures r.Some? ==> r.value.name == Trim(form.name) && r.value.billingPlan == planId
    ensures r.Some? ==> (r.value.accountType == Analytic <==> form.typeOf == Analitica)
    ensures r.Some? ==> (r.value.parent.None? <==> form.parentId == "")
  {
    if Trim(form.name) == "" || form.typeOf == Unselected then None
    else Some(Payload(Trim(form.name), if form.typeOf == Analitica then Analytic else Synthetic,
                      if form.parentId != "" then Some(form.parentId) else None, planId))
  }

  /**
   * Opening an account with a type and a trimmed, non-blank name and saving
   * it unchanged sends back its own name, type, parent and plan.
   */
  lemma EditSaveRoundTrip(acc: BillingAccount)
    requires acc.accountType.Some? && Trim(acc.name) == acc.name && acc.name != ""
    requires acc.parent != Some("")
    ensures PayloadFor(FormFor(Some(acc)), acc.billingPlan) ==
      Some(Payload(acc.name, acc.accountType.value, acc.parent, acc.billingPlan))
  {
  }

  /** An account whose type is null can be opened but not saved until a type is picked. */
  lemma UntypedAccountNotSaved(acc: BillingAccount, planId: string)
    requires acc.accountType.None?
    ensures PayloadFor(FormFor(Some(acc)), planId).None?
  {
  }

  class AccountFormPage {
    const planId: string
    var form: AccountFormState
    var parentOptions: seq<BillingAccount>

    constructor (planId: string)
      ensures this.planId == planId && form == EmptyForm && parentOptions == []
    {
      this.planId := planId;
      form := EmptyForm;
      parentOptions := [];
    }

    /** The effect on `[planId, show]`: `fetched` is the request's result, None when it failed. */
    method FetchParentOptions(fetched: Option<seq<BillingAccount>>)
      modifies this`parentOptions
      ensures parentOptions == if planId != "" && fetched.Some? then fetched.value else old(parentOptions)
    {
      if planId == "" {
        return;
      }
      if fetched.Some? {
        parentOptions := fetched.value;
      }
    }

    /** The effect on `[editing]`. */
    method LoadEditing(editing: Option<BillingAccount>)
      modifies this`form
      ensures form == FormFor(editing)
    {
      if editing.Some? {
        var acc := editing.value;
        var typeOf := if acc.accountType == Some(Analytic) then Analitica
                      else if acc.accountType == Some(Synthetic) then Sintetica
                      else Unselected;
        form := AccountFormState(acc.name, OrEmpty(acc.parent), typeOf);
      } else {
        form := EmptyForm;
      }
    }

    /** The name field upper-cases what is typed. */
    method ChangeName(value: string)
      modifies this`form
      ensures form == old(form).(name := Upper(value))
    {
      form := form.(name := Upper(value));
    }

    method ChangeParent(value: string)
      modifies this`form
      ensures form == old(form).(parentId := value)
    {
      form := form.(parentId := value);
    }

    method ChangeType(value: TypeOfAccount)
      modifies this`form
      ensures form == old(form).(typeOf := value)
    {
      form := form.(typeOf := value);
    }

    /** `generateParentOptions`: every account, children right after their parent. */
    method GenerateParentOptions(list: seq<BillingAccount>, level: nat) returns (options: seq<ParentOption>)
      ensures options == ParentOptions(list, level)
      decreases list
    {
      options := [];
      var i := 0;
      while i < |list|
        invariant 0 <= i <= |list|
        invariant options == ParentOptions(list[..i], level)
      {
        var acc := list[i];
        var sub: seq<ParentOption> := [];
        if |acc.children| > 0 {
          sub := GenerateParentOptions(acc.children, level + 1);
        }
        var own := [ParentOption(acc.uuid, OptionLabel(level, acc))] + sub;
        assert [acc][1..] == [];
        assert own == ParentOptions([acc], level);
        assert list[..i + 1] == list[..i] + [acc];
        ParentOptionsAppend(list[..i], [acc], level);
        options := options + own;
        i := i + 1;
      }
      assert list[..i] == list;
    }

    /** `handleSave`: the callbacks it makes, in order. */
    method HandleSave(editing: Option<BillingAccount>) returns (calls: seq<Callback>)
      ensures PayloadFor(form, planId).None? ==> calls == []
      ensures PayloadFor(form, planId).Some? ==>
        calls == [OnSave(PayloadFor(form, planId).value, if editing.Some? then Some(editing.value.uuid) else None), OnClose]
    {
      var name := Trim(form.name);
      if name == "" || form.typeOf == Unselected {
        return [];
      }
      var payload := Payload(name, if form.typeOf == Analitica then Analytic else Synthetic,
                             if form.parentId != "" then Some(form.parentId) else None, planId);
      calls := [OnSave(payload, if editing.Some? then Some(editing.value.uuid) else None), OnClose];
    }
  }
}
