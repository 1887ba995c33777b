/**
 * Double-entry journal posting driven by the Django signals: cents rounding,
 * the plan a preset belongs to, control-account resolution, the balanced
 * journal creation (one entry per reference), the postings made when a title
 * is created or settled, and the reversal posted when a settlement is deleted.
 * Amounts are exact decimals, modelled as `real`.
 */
module Journal {
  import opened Common

  // ---------------------------------------------------------------------
  // Rounding to cents

  /** `_dec`: round to two decimal places, ties away from zero (ROUND_HALF_UP). */
  function Dec(x: real): real
  {
    if x >= 0.0 then ((x * 100.0 + 0.5).Floor as real) / 100.0
    else -((((-x) * 100.0 + 0.5).Floor as real) / 100.0)
  }

  /** A whole number of cents. */
  predicate IsCents(y: real)
  {
    (y * 100.0).Floor as real == y * 100.0
  }

  lemma DecIsCents(x: real)
    ensures IsCents(Dec(x))
  {
    var y := Dec(x);
    if x >= 0.0 {
      var k := (x * 100.0 + 0.5).Floor;
      assert y == (k as real) / 100.0;
      assert y * 100.0 == k as real;
      assert (y * 100.0).Floor == k;
    } else {
      var k := ((-x) * 100.0 + 0.5).Floor;
      assert y == -((k as real) / 100.0);
      assert y * 100.0 == (-k) as real;
      assert (y * 100.0).Floor == -k;
    }
  }

  /** An amount already in cents is left as it is. */
  lemma DecOfCents(y: real)
    requires IsCents(y)
    ensures Dec(y) == y
  {
    var k := (y * 100.0).Floor;
    if y >= 0.0 {
      assert y * 100.0 + 0.5 == k as real + 0.5;
      assert (y * 100.0 + 0.5).Floor == k;
    } else {
      assert (-y) * 100.0 + 0.5 == (-k) as real + 0.5;
      assert ((-y) * 100.0 + 0.5).Floor == -k;
    }
  }

  /** Rounding twice is rounding once. */
  lemma DecIdempotent(x: real)
    ensures Dec(Dec(x)) == Dec(x)
  {
    DecIsCents(x);
    DecOfCents(Dec(x));
  }

  /** Ties away from zero make rounding symmetric, and it moves a value by at most half a cent. */
  lemma DecProperties(x: real)
    ensures Dec(-x) == -Dec(x)
    ensures -0.005 <= Dec(x) - x <= 0.005
    ensures x >= 0.0 ==> Dec(x) >= 0.0
    ensures x <= 0.0 ==> Dec(x) <= 0.0
  {
    if x >= 0.0 {
      var k := (x * 100.0 + 0.5).Floor;
      assert k as real <= x * 100.0 + 0.5 < k as real + 1.0;
    } else {
      var k := ((-x) * 100.0 + 0.5).Floor;
      assert k as real <= (-x) * 100.0 + 0.5 < k as real + 1.0;
    }
  }

  // ---------------------------------------------------------------------
  // Plans, accounts and presets

  datatype AccountKind = Analytic | Synthetic

  /** A billing account and the plan it belongs to. */
  datatype Account = Account(uuid: string, name: string, accountType: AccountKind, parent: Option<string>, billingPlan: Plan)

  /** A billing plan; the control-account fields may be unset. */
  datatype Plan = Plan(uuid: string, receivableControl: Option<Account>, payableControl: Option<Account>)

  datatype Preset = Preset(
    name: string,
    payableAccount: Option<Account>,
    receivableAccount: Option<Account>,
    revenueAccount: Option<Account>,
    expenseAccount: Option<Account>)

  /** `_plan_from_preset`: the payable account's plan, else the receivable account's, else none. */
  function PlanFromPreset(preset: Option<Preset>): (plan: Option<Plan>)
    ensures preset.None? ==> plan.None?
    ensures preset.Some? && preset.value.payableAccount.Some? ==> plan == Some(preset.value.payableAccount.value.billingPlan)
    ensures preset.Some? && preset.value.payableAccount.None? && preset.value.receivableAccount.Some? ==>
      plan == Some(preset.value.receivableAccount.value.billingPlan)
    ensures plan.None? <==> preset.None? || (preset.value.payableAccount.None? && preset.value.receivableAccount.None?)
  {
    if preset.None? then None
    else if preset.value.payableAccount.Some? then Some(preset.value.payableAccount.value.billingPlan)
    else if preset.value.receivableAccount.Some? then Some(preset.value.receivableAccount.value.billingPlan)
    else None
  }

  /** `.filter(...).first()` over the accounts in the order the database returns them. */
  function FirstAccount(accounts: seq<Account>, p: Account -> bool): (r: Option<Account>)
    ensures r.Some? ==> r.value in accounts && p(r.value)
    ensures r.None? <==> forall i :: 0 <= i < |accounts| ==> !p(accounts[i])
    ensures r.Some? ==> exists i :: 0 <= i < |accounts| && accounts[i] == r.value &&
                                  forall j :: 0 <= j < i ==> !p(accounts[j])
  {
    if accounts == [] then None
    else if p(accounts[0]) then Some(accounts[0])
    else
      var r := FirstAccount(accounts[1..], p);
      if r.Some? then
        var i :| 0 <= i < |accounts[1..]| && accounts[1..][i] == r.value && forall j :: 0 <= j < i ==> !p(accounts[1..][j]);
        assert accounts[i + 1] == r.value;
        r
      else r
  }

  /** Django's `icontains`, ASCII case folding. */
  predicate ContainsCI(name: string, word: string)
  {
    Contains(Lower(name), Lower(word))
  }

  /**
   * The control account of a plan: the explicit field if set; else the first
   * analytic account of the plan whose name contains `word`; else the first
   * analytic child of the first synthetic account of the plan whose name
   * contains `parentWord`.
   */
  function ResolveControl(explicit: Option<Account>, accounts: seq<Account>, plan: Plan,
                          word: string, parentWord: string): (r: Option<Account>)
    ensures explicit.Some? ==> r == explicit
    ensures explicit.None? && r.Some? ==>
      r.value in accounts && r.value.accountType == Analytic && r.value.billingPlan.uuid == plan.uuid
  {
    if explicit.Some? then explicit
    else
      var byName := FirstAccount(accounts, (a: Account) => a.billingPlan.uuid == plan.uuid && a.accountType == Analytic && ContainsCI(a.name, word));
      if byName.Some? then byName
      else
        var parent := FirstAccount(accounts, (a: Account) => a.billingPlan.uuid == plan.uuid && a.accountType == Synthetic && ContainsCI(a.name, parentWord));
        if parent.None? then None
        else FirstAccount(accounts, (a: Account) => a.billingPlan.uuid == plan.uuid && a.parent == Some(parent.value.uuid) && a.accountType == Analytic)
  }

  function ReceivableControl(plan: Plan, accounts: seq<Account>): Option<Account>
  {
    ResolveControl(plan.receivableControl, accounts, plan, "receb", "Receitas")
  }

  function PayableControl(plan: Plan, accounts: seq<Account>): Option<Account>
  {
    ResolveControl(plan.payableControl, accounts, plan, "pag", "Despesas")
  }

  // ---------------------------------------------------------------------
  // Journal lines and totals

  /** A line as handed to `_create_journal`; a missing key is None. */
  datatype LineInput = LineInput(account: Account, debit: Option<real>, credit: Option<real>, memo: Option<string>)

  /** A stored journal line. */
  datatype JournalLine = JournalLine(account: Account, debit: real, credit: real, memo: string)

  datatype JournalEntry = JournalEntry(
    date: string,
    description: string,
    company: string,
    referenceType: string,
    referenceId: string,
    lines: seq<JournalLine>,
    totalDebits: real,
    totalCredits: real)

  function LineDebit(l: LineInput): real
  {
    Dec(if l.debit.Some? then l.debit.value else 0.0)
  }

  function LineCredit(l: LineInput): real
  {
    Dec(if l.credit.Some? then l.credit.value else 0.0)
  }

  function TotalDebits(ls: seq<LineInput>): real
  {
    if ls == [] then 0.0 else TotalDebits(ls[..|ls| - 1]) + LineDebit(ls[|ls| - 1])
  }

  function TotalCredits(ls: seq<LineInput>): real
  {
    if ls == [] then 0.0 else TotalCredits(ls[..|ls| - 1]) + LineCredit(ls[|ls| - 1])
  }

  /** The validation of `_create_journal`: positive rounded debits equal to the rounded credits. */
  predicate Balanced(ls: seq<LineInput>)
  {
    TotalDebits(ls) > 0.0 && TotalDebits(ls) == TotalCredits(ls)
  }

  function PostLine(l: LineInput): JournalLine
  {
    JournalLine(l.account, LineDebit(l), LineCredit(l), if l.memo.Some? then l.memo.value else "")
  }

  function PostedLines(ls: seq<LineInput>): (r: seq<JournalLine>)
    ensures |r| == |ls| && forall i :: 0 <= i < |ls| ==> r[i] == PostLine(ls[i])
  {
    if ls == [] then [] else PostedLines(ls[..|ls| - 1]) + [PostLine(ls[|ls| - 1])]
  }

  function StoredDebits(ls: seq<JournalLine>): real
  {
    if ls == [] then 0.0 else StoredDebits(ls[..|ls| - 1]) + ls[|ls| - 1].debit
  }

  function StoredCredits(ls: seq<JournalLine>): real
  {
    if ls == [] then 0.0 else StoredCredits(ls[..|ls| - 1]) + ls[|ls| - 1].credit
  }

  /** The stored lines add up to the totals the validation computed, and each amount is whole cents. */
  lemma {:induction false} PostedLinesSum(ls: seq<LineInput>)
    ensures StoredDebits(PostedLines(ls)) == TotalDebits(ls)
    ensures StoredCredits(PostedLines(ls)) == TotalCredits(ls)
    ensures forall i :: 0 <= i < |ls| ==> IsCents(PostedLines(ls)[i].debit) && IsCents(PostedLines(ls)[i].credit)
  {
    if ls != [] {
      var init := ls[..|ls| - 1];
      PostedLinesSum(init);
      var r := PostedLines(ls);
      assert r[..|r| - 1] == PostedLines(init);
      forall i | 0 <= i < |ls|
        ensures IsCents(r[i].debit) && IsCents(r[i].credit)
      {
        DecIsCents(if ls[i].debit.Some? then ls[i].debit.value else 0.0);
        DecIsCents(if ls[i].credit.Some? then ls[i].credit.value else 0.0);
      }
    }
  }

  /** The entry `_create_journal` writes. */
  function NewEntry(referenceType: string, referenceId: string, company: string, date: string,
                    description: string, lines: seq<LineInput>): JournalEntry
  {
    JournalEntry(date, description, company, referenceType, referenceId,
                 PostedLines(lines), TotalDebits(lines), TotalCredits(lines))
  }

  const Unbalanced := "Lançamento inconsistente: débitos e créditos devem ser iguais e positivos."

  /** A posting request: the arguments of one `_create_journal` call. */
  datatype Posting = Posting(referenceType: string, referenceId: string, company: string, date: string,
                             description: string, lines: seq<LineInput>)

  /** What `_create_journal` does to the store: nothing for a known reference, an error when unbalanced, else one new entry. */
  function Apply(entries: map<(string, string), JournalEntry>, p: Posting): (r: Result<map<(string, string), JournalEntry>>)
    ensures (p.referenceType, p.referenceId) in entries ==> r == Ok(entries)
    ensures (p.referenceType, p.referenceId) !in entries ==> (r.Err? <==> !Balanced(p.lines))
    ensures r.Err? ==> r.message == Unbalanced
    ensures r.Ok? ==> entries.Keys <= r.value.Keys && (p.referenceType, p.referenceId) in r.value
    ensures r.Ok? ==> forall k :: k in entries ==> r.value[k] == entries[k]
  {
    var key := (p.referenceType, p.referenceId);
    if key in entries then Ok(entries)
    else if !Balanced(p.lines) then Err(Unbalanced)
    else Ok(entries[key := NewEntry(p.referenceType, p.referenceId, p.company, p.date, p.description, p.lines)])
  }

  /** One entry per reference: posting the same reference again changes nothing. */
  lemma ApplyIdempotent(entries: map<(string, string), JournalEntry>, p: Posting)
    requires Apply(entries, p).Ok?
    ensures Apply(Apply(entries, p).value, p) == Apply(entries, p)
  {
  }

  /** Every stored entry created by a posting is balanced: its lines add up to equal, positive totals. */
  lemma AppliedEntryBalanced(entries: map<(string, string), JournalEntry>, p: Posting)
    requires (p.referenceType, p.referenceId) !in entries && Apply(entries, p).Ok?
    ensures var e := Apply(entries, p).value[(p.referenceType, p.referenceId)];
      e.totalDebits > 0.0 && e.totalDebits == e.totalCredits &&
      StoredDebits(e.lines) == e.totalDebits && StoredCredits(e.lines) == e.totalCredits
  {
    PostedLinesSum(p.lines);
  }

  // ---------------------------------------------------------------------
  // Titles and settlements

  datatype Title = Title(
    uuid: string,
    description: string,
    typeOf: string,
    amount: real,
    company: string,
    createdAt: Option<string>,
    expirationDate: string,
    preset: Option<Preset>)

  datatype Entry = Entry(uuid: string, amount: real, paidAt: string, billingAccount: Option<Account>, title: Title)

  /** The two lines: `debitAcc` debited and `creditAcc` credited with `amount`. */
  function TwoLines(debitAcc: Account, creditAcc: Account, amount: real): seq<LineInput>
  {
    [LineInput(debitAcc, Some(amount), None, None), LineInput(creditAcc, None, Some(amount), None)]
  }

  /** The posting `_on_title_created` attempts for a new title, if any. */
  function TitleCreationPosting(title: Title, accounts: seq<Account>): (r: Option<Posting>)
    ensures r.Some? ==> PlanFromPreset(title.preset).Some? && (title.typeOf == "income" || title.typeOf == "expense")
    ensures r.Some? ==> r.value.referenceType == "title_creation" && r.value.referenceId == title.uuid && |r.value.lines| == 2
    ensures r.Some? ==> forall i :: 0 <= i < |r.value.lines| ==> r.value.lines[i].account.accountType == Analytic
  {
    var plan := PlanFromPreset(title.preset);
    if plan.None? then None
    else
      var preset := title.preset.value;
      var receivable := ReceivableControl(plan.value, accounts);
      var payable := PayableControl(plan.value, accounts);
      var amount := Dec(title.amount);
      var date := OrElse(title.createdAt, title.expirationDate);
      var desc := "Título: " + title.description + " - criação";
      if title.typeOf == "income" && receivable.Some? then
        if preset.revenueAccount.None? || receivable.value.accountType != Analytic
           || preset.revenueAccount.value.accountType != Analytic then None
        else Some(Posting("title_creation", title.uuid, title.company, date, desc,
                          TwoLines(receivable.value, preset.revenueAccount.value, amount)))
      else if title.typeOf == "expense" && payable.Some? then
        if preset.expenseAccount.None? || payable.value.accountType != Analytic
           || preset.expenseAccount.value.accountType != Analytic then None
        else Some(Posting("title_creation", title.uuid, title.company, date, desc,
                          TwoLines(preset.expenseAccount.value, payable.value, amount)))
      else None
  }

  /** The posting `_on_entry_created` attempts for a new settlement, if any. */
  function SettlementPosting(entry: Entry, accounts: seq<Account>): (r: Option<Posting>)
    ensures r.Some? ==> PlanFromPreset(entry.title.preset).Some? && entry.billingAccount.Some?
    ensures r.Some? ==> r.value.referenceType == "title_settlement" && r.value.referenceId == entry.uuid && |r.value.lines| == 2
    ensures r.Some? ==> forall i :: 0 <= i < |r.value.lines| ==> r.value.lines[i].account.accountType == Analytic
  {
    var plan := PlanFromPreset(entry.title.preset);
    if plan.None? || entry.billingAccount.None? then None
    else
      var receivable := ReceivableControl(plan.value, accounts);
      var payable := PayableControl(plan.value, accounts);
      var cash := entry.billingAccount.value;
      var amount := Dec(entry.amount);
      var desc := "Baixa do título " + entry.title.description;
      if entry.title.typeOf == "income" && receivable.Some? then
        if receivable.value.accountType != Analytic || cash.accountType != Analytic then None
        else Some(Posting("title_settlement", entry.uuid, entry.title.company, entry.paidAt, desc,
                          [LineInput(receivable.value, None, Some(amount), None), LineInput(cash, Some(amount), None, None)]))
      else if entry.title.typeOf == "expense" && payable.Some? then
        if payable.value.accountType != Analytic || cash.accountType != Analytic then None
        else Some(Posting("title_settlement", entry.uuid, entry.title.company, entry.paidAt, desc,
                          TwoLines(payable.value, cash, amount)))
      else None
  }

  lemma TwoLinesTotals(debitAcc: Account, creditAcc: Account, amount: real)
    requires IsCents(amount)
    ensures TotalDebits(TwoLines(debitAcc, creditAcc, amount)) == amount
    ensures TotalCredits(TwoLines(debitAcc, creditAcc, amount)) == amount
  {
    var ls := TwoLines(debitAcc, creditAcc, amount);
    DecOfCents(amount);
    assert Dec(0.0) == 0.0;
    assert LineDebit(ls[0]) == amount && LineCredit(ls[0]) == 0.0;
    assert LineDebit(ls[1]) == 0.0 && LineCredit(ls[1]) == amount;
    assert ls[..1][..0] == [] && ls[..|ls| - 1] == ls[..1];
    assert TotalDebits(ls[..1]) == amount && TotalCredits(ls[..1]) == 0.0;
  }

  /**
   * A title posting debits the receivable control against the revenue account
   * (income) or the expense account against the payable control (expense), and
   * it is accepted exactly when the rounded amount is positive.
   */
  lemma TitlePostingBalancedIffPositive(title: Title, accounts: seq<Account>)
    requires TitleCreationPosting(title, accounts).Some?
    ensures var p := TitleCreationPosting(title, accounts).value;
      var plan := PlanFromPreset(title.preset).value;
      (Balanced(p.lines) <==> Dec(title.amount) > 0.0) &&
      (title.typeOf == "income" ==>
        p.lines[0].account == ReceivableControl(plan, accounts).value &&
        p.lines[1].account == title.preset.value.revenueAccount.value) &&
      (title.typeOf == "expense" ==>
        p.lines[0].account == title.preset.value.expenseAccount.value &&
        p.lines[1].account == PayableControl(plan, accounts).value)
  {
    var p := TitleCreationPosting(title, accounts).value;
    DecIsCents(title.amount);
    var plan := PlanFromPreset(title.preset).value;
    if title.typeOf == "income" && ReceivableControl(plan, accounts).Some? {
      TwoLinesTotals(ReceivableControl(plan, accounts).value, title.preset.value.revenueAccount.value, Dec(title.amount));
    } else {
      TwoLinesTotals(title.preset.value.expenseAccount.value, PayableControl(plan, accounts).value, Dec(title.amount));
    }
  }

  lemma CreditFirstTotals(creditAcc: Account, debitAcc: Account, amount: real)
    requires IsCents(amount)
    ensures var ls := [LineInput(creditAcc, None, Some(amount), None), LineInput(debitAcc, Some(amount), None, None)];
      TotalDebits(ls) == amount && TotalCredits(ls) == amount
  {
    var ls := [LineInput(creditAcc, None, Some(amount), None), LineInput(debitAcc, Some(amount), None, None)];
    DecOfCents(amount);
    assert Dec(0.0) == 0.0;
    assert LineDebit(ls[0]) == 0.0 && LineCredit(ls[0]) == amount;
    assert LineDebit(ls[1]) == amount && LineCredit(ls[1]) == 0.0;
    assert ls[..1][..0] == [] && ls[..|ls| - 1] == ls[..1];
    assert TotalDebits(ls[..1]) == 0.0 && TotalCredits(ls[..1]) == amount;
  }

  /**
   * A settlement credits the receivable control and debits the entry's
   * account (income), or debits the payable control and credits the entry's
   * account (expense); it is accepted exactly when the rounded amount is positive.
   */
  lemma SettlementBalancedIffPositive(entry: Entry, accounts: seq<Account>)
    requires SettlementPosting(entry, accounts).Some?
    ensures var p := SettlementPosting(entry, accounts).value;
      var plan := PlanFromPreset(entry.title.preset).value;
      var cash := entry.billingAccount.value;
      (Balanced(p.lines) <==> Dec(entry.amount) > 0.0) &&
      (entry.title.typeOf == "income" ==>
        p.lines[0].account == ReceivableControl(plan, accounts).value && p.lines[0].credit.Some? &&
        p.lines[1].account == cash && p.lines[1].debit.Some?) &&
      (entry.title.typeOf == "expense" ==>
        p.lines[0].account == PayableControl(plan, accounts).value && p.lines[0].debit.Some? &&
        p.lines[1].account == cash && p.lines[1].credit.Some?)
  {
    DecIsCents(entry.amount);
    var plan := PlanFromPreset(entry.title.preset).value;
    var cash := entry.billingAccount.value;
    if entry.title.typeOf == "income" && ReceivableControl(plan, accounts).Some? {
      CreditFirstTotals(ReceivableControl(plan, accounts).value, cash, Dec(entry.amount));
    } else {
      TwoLinesTotals(PayableControl(plan, accounts).value, cash, Dec(entry.amount));
    }
  }

  // ---------------------------------------------------------------------
  // Reversal

  /** The line the reversal builds from a stored line: debit and credit swapped. */
  function ReversalLine(l: JournalLine, memo: string): LineInput
  {
    LineInput(l.account, Some(Dec(l.credit)), Some(Dec(l.debit)), Some(memo))
  }

  function ReversalLines(ls: seq<JournalLine>, memo: string): (r: seq<LineInput>)
    ensures |r| == |ls| && forall i :: 0 <= i < |ls| ==> r[i] == ReversalLine(ls[i], memo)
  {
    if ls == [] then [] else ReversalLines(ls[..|ls| - 1], memo) + [ReversalLine(ls[|ls| - 1], memo)]
  }

  /** Over cent amounts the reversal's rounded debits are the original credits and its credits the original debits. */
  lemma {:induction false} ReversalSwapsTotals(ls: seq<JournalLine>, memo: string)
    requires forall i :: 0 <= i < |ls| ==> IsCents(ls[i].debit) && IsCents(ls[i].credit)
    ensures TotalDebits(ReversalLines(ls, memo)) == StoredCredits(ls)
    ensures TotalCredits(ReversalLines(ls, memo)) == StoredDebits(ls)
  {
    if ls != [] {
      var init := ls[..|ls| - 1];
      var last := ls[|ls| - 1];
      ReversalSwapsTotals(init, memo);
      var r := ReversalLines(ls, memo);
      assert r[..|r| - 1] == ReversalLines(init, memo);
      DecOfCents(last.credit);
      DecOfCents(last.debit);
    }
  }

  /** The reversal of an entry posted from balanced lines is itself balanced, with the totals swapped. */
  lemma ReversalOfPostedIsBalanced(lines: seq<LineInput>, memo: string)
    requires Balanced(lines)
    ensures var rev := ReversalLines(PostedLines(lines), memo);
      Balanced(rev) && TotalDebits(rev) == TotalCredits(lines) && TotalCredits(rev) == TotalDebits(lines)
  {
    PostedLinesSum(lines);
    ReversalSwapsTotals(PostedLines(lines), memo);
  }

  /** The reversal `_on_entry_deleted` attempts for a stored settlement, if its line list is not empty. */
  function ReversalPosting(original: JournalEntry, entryUuid: string, paidAt: string): (r: Option<Posting>)
    ensures r.Some? <==> original.lines != []
    ensures r.Some? ==> r.value.referenceType == "title_settlement_reversal" && r.value.referenceId == "settle-rev:" + entryUuid
  {
    var lines := ReversalLines(original.lines, "Estorno: " + original.description);
    if lines == [] then None
    else Some(Posting("title_settlement_reversal", "settle-rev:" + entryUuid, original.company, paidAt,
                      "Estorno baixa: " + original.description, lines))
  }

  // ---------------------------------------------------------------------
  // The journal store and the handlers

  /** The journal entries, keyed by (reference_type, reference_id). */
  class JournalStore {
    var entries: map<(string, string), JournalEntry>

    constructor ()
      ensures entries == map[]
    {
      entries := map[];
    }

    /** The totalling loop of `_create_journal`: each side rounded to cents line by line, then summed. */
    static method SumLines(lines: seq<LineInput>) returns (totalDebits: real, totalCredits: real)
      ensures totalDebits == TotalDebits(lines) && totalCredits == TotalCredits(lines)
    {
      totalDebits, totalCredits := 0.0, 0.0;
      var i := 0;
      while i < |lines|
        invariant 0 <= i <= |lines|
        invariant totalDebits == TotalDebits(lines[..i])
        invariant totalCredits == TotalCredits(lines[..i])
      {
        var l := lines[i];
        var debit := Dec(if l.debit.Some? then l.debit.value else 0.0);
        var credit := Dec(if l.credit.Some? then l.credit.value else 0.0);
        assert lines[..i + 1][..i] == lines[..i] && lines[..i + 1][i] == l;
        assert TotalDebits(lines[..i + 1]) == TotalDebits(lines[..i]) + LineDebit(l);
        assert TotalCredits(lines[..i + 1]) == TotalCredits(lines[..i]) + LineCredit(l);
        totalDebits := totalDebits + debit;
        totalCredits := totalCredits + credit;
        i := i + 1;
      }
      assert lines[..i] == lines;
    }

    /** The line-creating loop of `_create_journal`: one stored line per input line, in order. */
    static method PostLines(lines: seq<LineInput>) returns (posted: seq<JournalLine>)
      ensures posted == PostedLines(lines)
    {
      posted := [];
      var i := 0;
      while i < |lines|
        invariant 0 <= i <= |lines|
        invariant posted == PostedLines(lines[..i])
      {
        var l := lines[i];
        assert lines[..i + 1][..i] == lines[..i] && lines[..i + 1][i] == l;
        assert PostedLines(lines[..i + 1]) == PostedLines(lines[..i]) + [PostLine(l)];
        posted := posted + [JournalLine(l.account, Dec(if l.debit.Some? then l.debit.value else 0.0),
                                        Dec(if l.credit.Some? then l.credit.value else 0.0),
                                        if l.memo.Some? then l.memo.value else "")];
        i := i + 1;
      }
      assert lines[..i] == lines;
    }

    /** `_create_journal`: all-or-nothing; a known reference is a no-op. */
    method CreateJournal(p: Posting) returns (r: Result<()>)
      modifies this
      ensures Apply(old(entries), p).Ok? ==> r == Ok(()) && entries == Apply(old(entries), p).value
      ensures Apply(old(entries), p).Err? ==> r == Err(Unbalanced) && entries == old(entries)
    {
      var key := (p.referenceType, p.referenceId);
      if key in entries {
        return Ok(());
      }
      var totalDebits, totalCredits := SumLines(p.lines);
      if totalDebits <= 0.0 || totalDebits != totalCredits {
        return Err(Unbalanced);
      }
      var posted := PostLines(p.lines);
      entries := entries[key := JournalEntry(p.date, p.description, p.company, p.referenceType, p.referenceId,
                                             posted, totalDebits, totalCredits)];
      r := Ok(());
    }

    /** `_on_title_created`: only new titles post; a failed posting is logged and swallowed. */
    method OnTitleCreated(created: bool, title: Title, accounts: seq<Account>)
      modifies this
      ensures var p := TitleCreationPosting(title, accounts);
        entries == if created && p.Some? && Apply(old(entries), p.value).Ok? then Apply(old(entries), p.value).value
                   else old(entries)
    {
      if !created {
        return;
      }
      var p := TitleCreationPosting(title, accounts);
      if p.Some? {
        var _ := CreateJournal(p.value);
      }
    }

    /** `_on_entry_created`: only new settlements post; a failed posting is logged and swallowed. */
    method OnEntryCreated(created: bool, entry: Entry, accounts: seq<Account>)
      modifies this
      ensures var p := SettlementPosting(entry, accounts);
        entries == if created && p.Some? && Apply(old(entries), p.value).Ok? then Apply(old(entries), p.value).value
                   else old(entries)
    {
      if !created {
        return;
      }
      var p := SettlementPosting(entry, accounts);
      if p.Some? {
        var _ := CreateJournal(p.value);
      }
    }

    /** `_on_entry_deleted`: post the swapped lines of the stored settlement; its error is not caught. */
    method OnEntryDeleted(entryUuid: string, paidAt: string) returns (r: Result<()>)
      modifies this
      ensures ("title_settlement", entryUuid) !in old(entries) ==> r == Ok(()) && entries == old(entries)
      ensures ("title_settlement", entryUuid) in old(entries) ==>
        var p := ReversalPosting(old(entries)[("title_settlement", entryUuid)], entryUuid, paidAt);
        (p.None? ==> r == Ok(()) && entries == old(entries)) &&
        (p.Some? && Apply(old(entries), p.value).Ok? ==> r == Ok(()) && entries == Apply(old(entries), p.value).value) &&
        (p.Some? && Apply(old(entries), p.value).Err? ==> r == Err(Unbalanced) && entries == old(entries))
    {
      var key := ("title_settlement", entryUuid);
      if key !in entries {
        return Ok(());
      }
      var original := entries[key];
      var memo := "Estorno: " + original.description;
      var lines: seq<LineInput> := [];
      var i := 0;
      while i < |original.lines|
        invariant 0 <= i <= |original.lines|
        invariant lines == ReversalLines(original.lines[..i], memo)
      {
        var l := original.lines[i];
        lines := lines + [LineInput(l.account, Some(Dec(l.credit)), Some(Dec(l.debit)), Some(memo))];
        assert original.lines[..i + 1][..i] == original.lines[..i];
        i := i + 1;
      }
      assert original.lines[..i] == original.lines;
      if lines == [] {
        return Ok(());
      }
      r := CreateJournal(Posting("title_settlement_reversal", "settle-rev:" + entryUuid, original.company, paidAt,
                                 "Estorno baixa: " + original.description, lines));
    }
  }

  /** A reversal of a settlement that was stored from a posting is always accepted the first time. */
  lemma ReversalOfStoredSettlementAccepted(entries: map<(string, string), JournalEntry>, p: Posting, paidAt: string)
    requires p.referenceType == "title_settlement" && (p.referenceType, p.referenceId) !in entries
    requires Apply(entries, p).Ok?
    ensures var after := Apply(entries, p).value;
      var rev := ReversalPosting(after[(p.referenceType, p.referenceId)], p.referenceId, paidAt);
      rev.Some? && Balanced(rev.value.lines)
  {
    var e := Apply(entries, p).value[(p.referenceType, p.referenceId)];
    assert Balanced(p.lines);
    assert p.lines != [] by {
      assert TotalDebits([]) == 0.0;
    }
    ReversalOfPostedIsBalanced(p.lines, "Estorno: " + e.description);
  }
}
