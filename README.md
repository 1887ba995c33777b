# AccountFlow core, modelled in Dafny

AccountFlow is a small accounting application: a Django back end that keeps
companies, users, billing plans, titles (receivables and payables), entries
(settlements) and a double-entry journal, and a Next.js front end whose pages
edit and list them. This project models the deterministic logic of both halves
and proves what it promises:

- the chart of accounts (`Conta` forest) of the account-plan page: expanding
  rows, pre-order rendering, dotted classification codes, degree capping,
  appending a child and the parent-choice lists (`account_plan.dfy`), and the
  billing-account form's parent options and payload (`billing_account_form.dfy`);
- Brazilian identifiers: the digit-slot mask of the register page
  (`company_register.dfy`), the CNPJ/CEP/CNAE/IE/IM/phone validators with the
  modulus-11 check digits (`company_validators.dfy`), and the CPF/CNPJ value
  objects and user roles (`user_domain.dfy`);
- journal posting on title creation, settlement and entry deletion, with
  rounding to cents, balance checks, idempotence per reference and reversal
  (`journal.dfy`);
- the uniqueness-enforcing domain services over their in-memory repositories
  (`company_domain.dfy`, `user_domain.dfy`);
- the front end's record logic: the company service's address mapping and
  multipart field selection (`company_service.dfy`), preset placeholder
  substitution (`preset_template.dfy`), the route guard (`middleware.dfy`), API
  error classification and error-body messages (`handler_error.dfy`,
  `error_body.dfy`), the entry and title forms (`entry_modal.dfy`,
  `title_form.dfy`, `create_title_modal.dfy`), the title, receivable and
  settlement lists (`title_lists.dfy`), the history-preset pages
  (`history_presets.dfy`), the DRE report page with its CSV export
  (`dre_report.dfy`), the company list (`company_page.dfy`) and the billing-plan
  pages (`billing_plans.dfy`).

Pure code is modelled by datatypes, functions and lemmas. Each React page is
a class whose fields are its `useState` values; its handlers are methods whose
`modifies` clauses name the state they set, and the answers of network
requests, `confirm()` dialogs, clocks and random ids are parameters.
Loops of the source (`applyMask`, `renderRows`, `gerarOpcoesPai`,
`generateParentOptions`, `_create_journal`, `loadAllAccounts`, `exportCSV`,
the DRE per-day totals) are methods with loop invariants, proved against
specification functions about which the lemmas are stated. Shared helpers
(option fallbacks, ASCII case folding, trimming, filtering, de-duplication,
`find`) live in `common.dfy`.

## Model

| member | source | states |
|---|---|---|
| Common.OrEmpty | accountflow-front/src/components/titles/TitleForm.tsx:36 | a truthy value is kept and any falsy value gives the empty text |
| Common.OrElse | accountflow-front/src/components/titles/TitleForm.tsx:37 | a truthy value is kept and any falsy value gives the fallback |
| Common.Trim | accountflow-front/src/app/pages/settings/billing-plans/page.tsx:39 | trimming never lengthens the text |
| Common.TrimEmptyIffBlank | accountflow-front/src/app/pages/settings/billing-plans/page.tsx:39 | the trimmed text is empty exactly when every character is white space |
| Common.Lower | accountflow-front/src/app/pages/titles/page.tsx:105 | lower-casing keeps the length and lower-cases each letter A-Z, leaving every other character |
| Common.Find | accountflow-front/src/app/pages/titles/page.tsx:63 | `find` yields the first element satisfying the test, and nothing exactly when none does |
| Common.Distinct | accountflow-front/src/app/pages/reports/dre/page.tsx:637-643 | a Set keeps no duplicates and holds exactly the elements of its input |
| AccountPlan.FindContaIsFirstInPreOrder | accountflow-front/src/app/pages/account-plan/page.tsx:99-108 | `findConta` returns the first account with the id in parent-before-children order over the forest, and finds one whenever any account has that id |
| AccountPlan.Toggled | accountflow-front/src/app/pages/account-plan/page.tsx:29-36 | the toggled id is in the new set iff it was not in the old one; every other id keeps its membership |
| AccountPlan.ToggleTwice | accountflow-front/src/app/pages/account-plan/page.tsx:29-36 | toggling the same row twice restores the expanded set |
| AccountPlan.PlanoDeContasPage.ToggleRow | accountflow-front/src/app/pages/account-plan/page.tsx:29-36 | `expandedRows` becomes the toggled set; nothing else changes |
| AccountPlan.PlanoDeContasPage.RenderRows | accountflow-front/src/app/pages/account-plan/page.tsx:38-93 | the rows the loop pushes equal the row specification: each account, then (only when expanded) its children one level deeper; AccountPlan.RowsAreVisibleWalk characterises it |
| AccountPlan.RowsAppend | accountflow-front/src/app/pages/account-plan/page.tsx:41-90 | rendering a concatenated list renders each part in turn (the forEach processes siblings independently) |
| AccountPlan.RowsAllExpanded | accountflow-front/src/app/pages/account-plan/page.tsx:38-93 | when every account is expanded, the row ids are exactly the forest's ids in pre-order |
| AccountPlan.RowsCollapsed | accountflow-front/src/app/pages/account-plan/page.tsx:42-89 | with an empty expanded set the rows are exactly the top-level accounts, in order |
| AccountPlan.RowsAreVisibleWalk | accountflow-front/src/app/pages/account-plan/page.tsx:38-93 | the rendered rows are, in pre-order, exactly the accounts whose ancestors are all expanded, each rendered at its own level |
| AccountPlan.CollapsedHidesAll | accountflow-front/src/app/pages/account-plan/page.tsx:87-89 | under a collapsed account nothing is rendered, however deep |
| AccountPlan.RowsIndentation | accountflow-front/src/app/pages/account-plan/page.tsx:43-70 | row i is the i-th shown account, indented exactly 16px plus 24px per level, its level being the start level plus its number of ancestors; it has a toggle iff it has sub-accounts, pointing down iff it is also expanded |
| AccountPlan.WalkFollowsPreOrder | accountflow-front/src/app/pages/account-plan/page.tsx:38-93 | the walk that both specifications filter meets every account of the forest once, in pre-order |
| AccountPlan.RowsAtMostPreOrder | accountflow-front/src/app/pages/account-plan/page.tsx:38-93 | never more rows than accounts in the forest |
| AccountPlan.ClassificacaoShape | accountflow-front/src/app/pages/account-plan/page.tsx:98-114 | with a parent id: "0" when no account has it; otherwise the parent's code, a dot, and a non-empty run of digits |
| AccountPlan.RootCodesIncrement | accountflow-front/src/app/pages/account-plan/page.tsx:96-97 | a root code is the decimal of (number of roots + 1), and appending a root moves the next code on by one |
| AccountPlan.SiblingCodesIncrement | accountflow-front/src/app/pages/account-plan/page.tsx:110-146 | a child code is parent code "." (child count + 1); after adding a child under that parent the next code is (child count + 2) |
| AccountPlan.AddSubConta | accountflow-front/src/app/pages/account-plan/page.tsx:137-145 | the list keeps its length and each account keeps every field except its children; what else stays and how much is added are stated by AddKeepsUntouched and AddGrowth |
| AccountPlan.FindAfterAdd | accountflow-front/src/app/pages/account-plan/page.tsx:137-146 | after adding, the search for the parent id finds the same parent with the new account appended last to its children; an unknown parent is still not found |
| AccountPlan.AddUnknownParent | accountflow-front/src/app/pages/account-plan/page.tsx:137-146 | a parent id that names no account leaves the forest unchanged |
| AccountPlan.AddKeepsEveryAccount | accountflow-front/src/app/pages/account-plan/page.tsx:137-146 | every account of the old forest is still in the new one with the same id, code, description, degree and total |
| AccountPlan.AddKeepsUntouched | accountflow-front/src/app/pages/account-plan/page.tsx:137-145 | every account whose subtree holds no account with the parent id is still in the new forest, unchanged together with all its descendants |
| AccountPlan.AddGrowth | accountflow-front/src/app/pages/account-plan/page.tsx:137-145 | when at most one account carries the parent id, the pre-order grows by the new account's subtree times the number of accounts carrying it, so an unknown parent adds nothing |
| AccountPlan.AddUnderUniqueParent | accountflow-front/src/app/pages/account-plan/page.tsx:137-146 | when exactly one account carries the parent id, adding grows the forest by exactly the new account's subtree |
| AccountPlan.GrauFor | accountflow-front/src/app/pages/account-plan/page.tsx:153-169 | the degree is min(parent degree + 1, 5) when the chosen parent is found, 1 otherwise, and never above 5 |
| AccountPlan.PlanoDeContasPage.SelectParent | accountflow-front/src/app/pages/account-plan/page.tsx:165-255 | choosing a parent stores its id and, through the effect, the degree the parent implies |
| AccountPlan.PlanoDeContasPage.SyncGrau | accountflow-front/src/app/pages/account-plan/page.tsx:153-169 | the effect sets only the degree, to the capped parent degree, so it is never above 5 |
| AccountPlan.SyncedGrauNeverRejected | accountflow-front/src/app/pages/account-plan/page.tsx:118-166 | a degree set by the effect never triggers the "grau maior que 5" alert |
| AccountPlan.PlanoDeContasPage.AdicionarConta | accountflow-front/src/app/pages/account-plan/page.tsx:117-151 | a degree above 5 alerts and changes nothing; otherwise the new account (generated code, total 0, no children) is appended to the roots or under the parent, the modal closes and the form resets |
| AccountPlan.PlanoDeContasPage.GerarOpcoesPai | accountflow-front/src/app/pages/account-plan/page.tsx:171-182 | the options the loop accumulates equal the option specification, which AccountPlan.OpcoesAreOfferableWalk characterises |
| AccountPlan.OpcoesAreOfferableWalk | accountflow-front/src/app/pages/account-plan/page.tsx:171-182 | the options are, in pre-order and each labelled "--" per level, a space and the description, exactly the accounts of degree below 5 all of whose ancestors are below degree 5, against an independent walk of the whole forest |
| AccountPlan.OpcoesMembers | accountflow-front/src/app/pages/account-plan/page.tsx:171-182 | an option is offered iff it is the option of a walked account that is below degree 5 and has no ancestor of degree 5 or more, so a degree-5 account hides every descendant at any depth |
| AccountPlan.CappedHidesAll | accountflow-front/src/app/pages/account-plan/page.tsx:174-178 | below an account of degree 5 or more no account is offered, however deep |
| AccountPlan.OpcoesUncapped | accountflow-front/src/app/pages/account-plan/page.tsx:171-182 | when no account has reached degree 5, every account is offered once, in pre-order |
| AccountPlan.OpcoesHideSubtree | accountflow-front/src/app/pages/account-plan/page.tsx:174-178 | an account of degree 5 or more contributes no option, so its whole subtree is hidden |
| AccountPlan.PlanoDeContasPage.constructor | accountflow-front/src/app/pages/account-plan/page.tsx:17-27 | empty forest, nothing expanded, modal closed, form at its initial values |
| AccountPlan.PlanoDeContasPage.OpenModal | accountflow-front/src/app/pages/account-plan/page.tsx:188 | the modal opens |
| AccountPlan.PlanoDeContasPage.CloseModal | accountflow-front/src/app/pages/account-plan/page.tsx:227-271 | the modal closes |
| AccountPlan.PlanoDeContasPage.SetDescricao | accountflow-front/src/app/pages/account-plan/page.tsx:236 | only the description field changes |
| BillingAccountForm.AccountFormPage.GenerateParentOptions | accountflow-front/src/components/billing/billingAccount.tsx:61-70 | the options the loop pushes equal the option specification (label: two spaces per level, code, " - ", name) |
| BillingAccountForm.ParentOptionsArePreOrder | accountflow-front/src/components/billing/billingAccount.tsx:61-70 | the option uuids are exactly the uuids of every account of the nested tree, in pre-order; nothing is filtered |
| BillingAccountForm.EditedAccountOfferedAsOwnParent | accountflow-front/src/components/billing/billingAccount.tsx:61-111 | any listed account, including the one being edited, is offered as a parent |
| BillingAccountForm.FormFor | accountflow-front/src/components/billing/billingAccount.tsx:48-59 | no account gives the empty form; an account gives its name, its parent or '', and 'Analítica'/'Sintética' exactly for analytic/synthetic |
| BillingAccountForm.PayloadFor | accountflow-front/src/components/billing/billingAccount.tsx:72-80 | no payload iff the trimmed name is empty or no type is chosen; otherwise the trimmed name, 'analytic' iff 'Analítica', null parent iff '', and the plan id |
| BillingAccountForm.EditSaveRoundTrip | accountflow-front/src/components/billing/billingAccount.tsx:49-80 | loading a typed account with a trimmed name and saving it unchanged gives back its own name, type, parent and plan |
| BillingAccountForm.UntypedAccountNotSaved | accountflow-front/src/components/billing/billingAccount.tsx:54-73 | an account with no type loads with no type selected, so saving it does nothing |
| BillingAccountForm.AccountFormPage.HandleSave | accountflow-front/src/components/billing/billingAccount.tsx:72-84 | no callback when the guard fails; otherwise `onSave(payload, editing?.uuid)` then `onClose` |
| BillingAccountForm.AccountFormPage.FetchParentOptions | accountflow-front/src/components/billing/billingAccount.tsx:34-46 | the options are replaced by the fetched list only when a plan id is set and the request succeeded |
| BillingAccountForm.AccountFormPage.LoadEditing | accountflow-front/src/components/billing/billingAccount.tsx:48-59 | the form becomes the form of the edited account |
| BillingAccountForm.AccountFormPage.ChangeName | accountflow-front/src/components/billing/billingAccount.tsx:97 | only the name changes, to the input upper-cased in ASCII |
| BillingAccountForm.AccountFormPage.ChangeParent | accountflow-front/src/components/billing/billingAccount.tsx:107 | only the parent field changes |
| BillingAccountForm.AccountFormPage.ChangeType | accountflow-front/src/components/billing/billingAccount.tsx:124-129 | only the type field changes |
| BillingAccountForm.AccountFormPage.constructor | accountflow-front/src/components/billing/billingAccount.tsx:26-32 | empty form and no parent options |
| CompanyRegister.ApplyMask | accountflow-front/src/app/pages/company/register/page.tsx:10-25 | the string the loop builds equals the mask specification applied to the input's digits |
| CompanyRegister.Masked | accountflow-front/src/app/pages/company/register/page.tsx:15-22 | the output is never longer than the mask, and no digits give "" |
| CompanyRegister.LiteralsInPlace | accountflow-front/src/app/pages/company/register/page.tsx:19-21 | every non-'9' mask character written sits at its own mask position |
| CompanyRegister.SlotsHoldDigits | accountflow-front/src/app/pages/company/register/page.tsx:15-18 | the characters in the '9' slots are exactly the first min(digit count, slot count) digits, in order |
| CompanyRegister.StopsAfterLastDigit | accountflow-front/src/app/pages/company/register/page.tsx:15 | when the digits do not outnumber the slots, the output ends right after the slot of the last digit |
| CompanyRegister.DigitsOfMasked | accountflow-front/src/app/pages/company/register/page.tsx:11-22 | with non-digit literals, stripping the non-digits from the output gives back the digits placed |
| CompanyRegister.MaskIdempotent | accountflow-front/src/app/pages/company/register/page.tsx:10-25 | for a mask whose literals are non-digits and which ends in a slot, masking twice equals masking once |
| CompanyRegister.MasksInUseAreIdempotent | accountflow-front/src/app/pages/company/register/page.tsx:302 | the CNPJ, CEP and phone masks are each idempotent (also lines 429 and 568) |
| CompanyRegister.CnpjMaskFacts | accountflow-front/src/app/pages/company/register/page.tsx:302 | the CNPJ mask has 14 slots, non-digit literals and ends in a slot |
| CompanyRegister.CepMaskFacts | accountflow-front/src/app/pages/company/register/page.tsx:429 | the CEP mask has 8 slots, non-digit literals and ends in a slot |
| CompanyRegister.PhoneMaskFacts | accountflow-front/src/app/pages/company/register/page.tsx:568 | the phone mask has 11 slots, non-digit literals and ends in a slot |
| CompanyRegister.FetchCepQuery | accountflow-front/src/app/pages/company/register/page.tsx:181-194 | a lookup is made iff the CEP has exactly 8 digits, and then with those 8 digits only |
| CompanyRegister.CepFieldFiresAtEightDigits | accountflow-front/src/app/pages/company/register/page.tsx:202-205 | through the CEP mask the address lookup fires iff at least 8 digits were typed (the mask keeps 8) (also lines 429-430) |
| CompanyRegister.CnpjFieldFiresAtFourteenDigits | accountflow-front/src/app/pages/company/register/page.tsx:232-303 | through the CNPJ mask the company lookup fires iff at least 14 digits were typed |
| CompanyRegister.HandleInputChange | accountflow-front/src/app/pages/company/register/page.tsx:81-97 | "address.x" sets only address field x (up to the next dot) and keeps the top-level fields; any other name sets only that top-level field |
| CompanyRegister.CompanyRegisterPage.InputChange | accountflow-front/src/app/pages/company/register/page.tsx:81-97 | the form becomes the updated form |
| CompanyRegister.CompanyRegisterPage.TypeCnpj | accountflow-front/src/app/pages/company/register/page.tsx:232-304 | the masked CNPJ is stored; the lookup effect fires iff the stored value changed and has 14 digits |
| CompanyRegister.CompanyRegisterPage.TypeCep | accountflow-front/src/app/pages/company/register/page.tsx:202-205 | the masked CEP is stored in the address; the lookup effect fires iff the value changed and has 8 digits (also lines 427-431) |
| CompanyRegister.CompanyRegisterPage.Submitted | accountflow-front/src/app/pages/company/register/page.tsx:106-135 | loading ends; success shows the success toast, failure the formatted error body or the default message |
| CompanyRegister.CompanyRegisterPage.constructor | accountflow-front/src/app/pages/company/register/page.tsx:56-79 | the initial blank form, not loading, no toast |
| ErrorBody.EntryTexts | accountflow-front/src/app/pages/company/register/page.tsx:126-127 | one "key: value" text per entry of the body, in order, arrays joined with ", " |
| ErrorBody.ErrorMessage | accountflow-front/src/app/pages/company/register/page.tsx:121-130 | no body or a non-string non-object body keeps the default; a string body is used verbatim unless empty |
| ErrorBody.SingleFieldMessage | accountflow-front/src/app/pages/company/register/page.tsx:126-128 | one field with a list gives "field: v1, v2, …" |
| ErrorBody.TwoFieldMessage | accountflow-front/src/app/pages/company/register/page.tsx:126-128 | two fields give their two items joined by a vertical bar with a space on each side |
| ErrorBody.ObjectMessageStartsWithFirstField | accountflow-front/src/app/pages/reports/dre/page.tsx:88-97 | an object body's message starts with its first key and ": " |
| HandlerError.HandleApiError | accountflow-front/src/components/utils/HandlerError.ts:3-19 | a network error throws the fixed message; a response throws "default: status - statusText or 'Erro desconhecido'"; anything else throws the default |
| HandlerError.MessageKeepsDefault | accountflow-front/src/components/utils/HandlerError.ts:9-18 | except for the network error, the thrown message starts with the default message |
| HandlerError.NetworkMessageFixed | accountflow-front/src/components/utils/HandlerError.ts:5-7 | the network message does not depend on the default message |
| HandlerError.ResponseMessageLonger | accountflow-front/src/components/utils/HandlerError.ts:9-14 | a response error always adds the status part after the default |
| Common.OnlyDigitsIsFilter | accountflow-api/backend/domain/company/company_value_objects.py:7-8 | the result is exactly the digit characters of the string, in order: the generic filter by IsDigit; "" for "" |
| Common.OnlyDigitsOfChar | accountflow-api/backend/domain/company/company_value_objects.py:7-8 | a digit is kept and any other character is dropped |
| Common.OnlyDigitsKeepsLengthIff | accountflow-api/backend/domain/company/company_value_objects.py:7-8 | nothing is dropped iff every character is a digit |
| CompanyValidators.MatchDigitCount | accountflow-api/backend/domain/company/company_value_objects.py:5-16 | a string matching a pattern whose separators are non-digits has exactly as many digits as the pattern has `\d` positions |
| CompanyValidators.CnpjPatternFacts | accountflow-api/backend/domain/company/company_value_objects.py:5 | the CNPJ pattern has 14 digit positions and only non-digit separators |
| CompanyValidators.FormattedCnpjMatches | accountflow-api/backend/domain/company/company_value_objects.py:5-16 | any 14 digits written as NN.NNN.NNN/NNNN-NN match the pattern and give those digits back |
| CompanyValidators.BareCnpjMatches | accountflow-api/backend/domain/company/company_value_objects.py:5 | 14 bare digits match the pattern too, every separator being optional |
| CompanyValidators.PesoValues | accountflow-api/backend/domain/company/company_value_objects.py:24 | line 24 yields the weights 6,5,4,3,2,9,8,7,6,5,4,3 for 12 digits and 7,6,5,4,3,2,9,8,7,6,5,4,3 for 13; the standard scheme's are 5,4,3,2,9,…,2 and 6,5,4,3,2,9,…,2 |
| CompanyValidators.DvCalc | accountflow-api/backend/domain/company/company_value_objects.py:23-27 | the check digit is a single decimal digit (10 and 11 become "0") |
| CompanyValidators.CheckDigits | accountflow-api/backend/domain/company/company_value_objects.py:29-30 | two decimal digits, the second computed over the base plus the first |
| CompanyValidators.ValidateCnpj | accountflow-api/backend/domain/company/company_value_objects.py:10-32 | None or "" is rejected as "CNPJ é obrigatório."; anything accepted matches the NN.NNN.NNN/NNNN-NN pattern |
| CompanyValidators.LengthCheckUnreachable | accountflow-api/backend/domain/company/company_value_objects.py:5-18 | the "14 dígitos" rejection never happens, because every string the pattern admits has 14 digits |
| CompanyValidators.CnpjAcceptedIff | accountflow-api/backend/domain/company/company_value_objects.py:16-32 | a well-formed CNPJ is accepted iff its digits are not one repeated digit and its last two equal the computed check digits |
| CompanyValidators.RepeatedDigitRejected | accountflow-api/backend/domain/company/company_value_objects.py:20-21 | fourteen copies of one digit are rejected as "CNPJ inválido." |
| CompanyValidators.CompletedCnpjAccepted | accountflow-api/backend/domain/company/company_value_objects.py:23-32 | any 12-digit base completed with its own check digits (and not one repeated digit) is accepted, under either weight scheme |
| CompanyValidators.ExampleCnpjRejectedAsWritten | accountflow-api/backend/domain/company/company_value_objects.py:24-32 | the validator as written rejects 12.345.678/0001-95 for its check digits |
| CompanyValidators.ExampleCnpjAcceptedStandard | accountflow-api/backend/domain/company/company_value_objects.py:23-32 | with the standard weights the same CNPJ is accepted |
| CompanyValidators.AsWrittenFirstDigit | accountflow-api/backend/domain/company/company_value_objects.py:24-27 | under the weights as written the first check digit of 123456780001 is 1, not the 9 the example carries |
| CompanyValidators.StandardCheckDigitsOfExample | accountflow-api/backend/domain/company/company_value_objects.py:23-30 | the standard check digits of 123456780001 are 95 |
| CompanyValidators.ValidateCnpjStandard | accountflow-api/backend/domain/company/company_value_objects.py:10-32 | the corrected validator keeps the same required and format rules |
| CompanyValidators.ValidateCep | accountflow-api/backend/domain/company/company_value_objects.py:34-37 | accepted iff the value is None or "" or matches NNNNN-NNN with the hyphen optional; otherwise the CEP message |
| CompanyValidators.AcceptedCepHasEightDigits | accountflow-api/backend/domain/company/company_value_objects.py:34 | a non-empty accepted CEP has exactly 8 digits |
| CompanyValidators.ValidateCnae | accountflow-api/backend/domain/company/company_value_objects.py:39-42 | accepted iff None or "" or shaped NNNN-N/NN; otherwise the CNAE message |
| CompanyValidators.ValidatePhone | accountflow-api/backend/domain/company/company_value_objects.py:52-55 | accepted iff None or "" or an optional '+' then 8 to 15 digits; otherwise the phone message |
| CompanyValidators.AcceptedPhoneDigits | accountflow-api/backend/domain/company/company_value_objects.py:52 | a non-empty accepted phone has between 8 and 15 digits |
| CompanyValidators.ValidateIe | accountflow-api/backend/domain/company/company_value_objects.py:44-46 | rejected iff the value is present and blank after stripping (None passes, "" fails) |
| CompanyValidators.ValidateIm | accountflow-api/backend/domain/company/company_value_objects.py:48-50 | rejected iff the value is present and blank after stripping |
| UserDomain.CpfPatternFacts | accountflow-api/backend/domain/user/value_objects.py:11 | the CPF pattern has 11 digit positions and only non-digit separators |
| UserDomain.MakeCpf | accountflow-api/backend/domain/user/value_objects.py:6-15 | construction succeeds iff the value matches NNN.NNN.NNN-NN with optional separators, keeps the value unchanged, and otherwise fails with "CPF inválido." |
| UserDomain.MakeCnpj | accountflow-api/backend/domain/user/value_objects.py:18-27 | construction succeeds iff the value matches NN.NNN.NNN/NNNN-NN with optional separators, keeps the value unchanged, and otherwise fails with "CNPJ inválido." |
| UserDomain.ValidCpfHasElevenDigits | accountflow-api/backend/domain/user/value_objects.py:11 | every valid CPF holds exactly 11 digits |
| UserDomain.ValidCnpjHasFourteenDigits | accountflow-api/backend/domain/user/value_objects.py:23 | every valid CNPJ holds exactly 14 digits |
| UserDomain.CnpjObjectIgnoresCheckDigits | accountflow-api/backend/domain/user/value_objects.py:22-24 | the CNPJ value object accepts 12.345.678/0001-95 although the company validator rejects it: no check digits are verified |
| UserDomain.CpfCnpjDigits | accountflow-api/backend/domain/user/user_models.py:16-26 | `cpf_cnpj` is valid iff it has the CPF shape or the CNPJ shape, so it holds 11 or 14 digits |
| UserDomain.User.constructor | accountflow-api/backend/domain/user/user_models.py:35 | a new user's role is "client" |
| UserDomain.User.ValidateCrc | accountflow-api/backend/domain/user/user_models.py:55-60 | an error iff the role is "accountant" and the CRC number is missing or empty |
| UserDomain.NewUserPassesCrc | accountflow-api/backend/domain/user/user_models.py:35-60 | a new user is a client, not an accountant, and passes the CRC check |
| UserDomain.FakeUserRepository.Save | accountflow-api/backend/tests/domain/fakes/fake_user_repository.py:14-16 | the user is appended at the end and returned; earlier users keep their order |
| UserDomain.SaveMakesEmailKnown | accountflow-api/backend/tests/domain/fakes/fake_user_repository.py:11-16 | after a save the email is known and the earlier users are a prefix of the list |
| UserDomain.SaveAllowsDuplicateEmails | accountflow-api/backend/tests/domain/fakes/fake_user_repository.py:14-16 | two users with one email are both stored: save checks nothing |
| UserDomain.CanCreateUser | accountflow-api/backend/domain/user/user_services.py:7-14 | true iff neither email nor CPF/CNPJ is taken; "E-mail já cadastrado." iff the email is taken (checked first); "CPF/CNPJ já cadastrado." iff only the CPF/CNPJ is |
| UserDomain.AssignRole | accountflow-api/backend/domain/user/user_services.py:16-22 | "accountant" without a CRC fails and keeps the role; otherwise the role is set and the user returned, which then passes the CRC check |
| CompanyDomain.FakeCompanyRepository.Save | accountflow-api/backend/tests/domain/fakes/fake_company_repository.py:10-12 | the company is stored under its CNPJ and returned unchanged |
| CompanyDomain.StoreUnderCnpj | accountflow-api/backend/tests/domain/fakes/fake_company_repository.py:11 | an existing CNPJ is replaced without growing the store; a new one adds one entry; other entries are untouched |
| CompanyDomain.CompanyDomainService.CreateCompany | accountflow-api/backend/domain/company/company_services.py:12-17 | a known CNPJ fails with "Já existe uma empresa com este CNPJ." and saves nothing; otherwise exactly the company built from the arguments is saved and returned |
| CompanyDomain.SecondCreateWithSameCnpjFails | accountflow-api/backend/tests/domain/test_company_domain.py:26-42 | after a first create, a second with the same CNPJ leaves the first company stored |
| CompanyDomain.PunctuationMakesADifferentCnpj | accountflow-api/backend/domain/company/company_services.py:14 | the same CNPJ written with and without punctuation is stored twice |
| CompanyDomain.RolePermissions | accountflow-api/backend/domain/user_company/user_company_models.py:49-54 | a master can manage users; an admin can manage but is not master; a "user" can do neither; managing means master or admin |
| CompanyDomain.FakeUserCompanyRepository.Save | accountflow-api/backend/tests/domain/fakes/fake_user_company_fake_respository.py:19-23 | an existing pair fails and changes nothing; otherwise the link is appended and returned; no two links share a pair |
| CompanyDomain.FakeUserCompanyRepository.All | accountflow-api/backend/tests/domain/fakes/fake_user_company_fake_respository.py:25-26 | the stored links in insertion order |
| CompanyDomain.AppendUnlinkedKeepsUnique | accountflow-api/backend/tests/domain/fakes/fake_user_company_fake_respository.py:13-23 | appending a link whose pair is new keeps every pair unique and makes it linked |
| CompanyDomain.UserCompanyDomainService.LinkUserToCompany | accountflow-api/backend/domain/user_company/user_company_services.py:13-16 | an existing pair fails with the domain message and changes nothing; otherwise the link with the given role ("user" by default) is saved and returned |
| CompanyDomain.DuplicateLinkRejected | accountflow-api/backend/tests/domain/test_user_company_domain.py:33-40 | linking a pair as master, then again as admin, keeps only the master link |
| Journal.DecIsCents | accountflow-api/backend/signals.py:14-15 | `_dec` always yields a whole number of cents |
| Journal.DecOfCents | accountflow-api/backend/signals.py:14-15 | a value already in cents is left unchanged |
| Journal.DecIdempotent | accountflow-api/backend/signals.py:14-15 | rounding twice equals rounding once |
| Journal.DecProperties | accountflow-api/backend/signals.py:14-15 | rounding is symmetric about zero (ties away from zero), moves a value by at most half a cent, and keeps its sign |
| Journal.PlanFromPreset | accountflow-api/backend/signals.py:17-22 | no preset gives no plan; otherwise the payable account's plan, else the receivable account's plan, else none |
| Journal.FirstAccount | accountflow-api/backend/signals.py:107-112 | the first account in order that satisfies the filter, or none exactly when no account does |
| Journal.ResolveControl | accountflow-api/backend/signals.py:104-143 | an explicit control account wins; a searched one is an analytic account of the same plan |
| Journal.PostedLines | accountflow-api/backend/signals.py:68-75 | one stored line per input line, in order, with rounded debit and credit (a missing side is 0) |
| Journal.PostedLinesSum | accountflow-api/backend/signals.py:41-79 | the stored lines' sums equal the rounded totals the validation computed, and each amount is in cents |
| Journal.Apply | accountflow-api/backend/signals.py:28-79 | an existing (reference type, id) changes nothing; otherwise it fails with the inconsistency message iff the rounded totals are not positive and equal; success adds that key and keeps every other entry |
| Journal.ApplyIdempotent | accountflow-api/backend/signals.py:34-36 | posting the same reference twice equals posting it once |
| Journal.AppliedEntryBalanced | accountflow-api/backend/signals.py:51-79 | a newly stored entry has positive, equal totals that equal the sums of its lines |
| Journal.JournalStore.CreateJournal | accountflow-api/backend/signals.py:28-79 | the store becomes the posting's result, or stays as it was with the error when the posting is unbalanced |
| Journal.JournalStore.SumLines | accountflow-api/backend/signals.py:41-48 | the two running totals equal the sums of the line debits and credits, each rounded half-up to cents before adding |
| Journal.JournalStore.PostLines | accountflow-api/backend/signals.py:68-75 | one stored line per input line, in input order, with rounded debit and credit and the memo or empty text |
| Journal.TitleCreationPosting | accountflow-api/backend/signals.py:86-196 | a posting only for a preset with a plan and an income or expense title, under ("title_creation", title uuid), with two analytic lines |
| Journal.TitlePostingBalancedIffPositive | accountflow-api/backend/signals.py:145-194 | the title posting is accepted iff the rounded amount is positive; income debits the receivable control and credits the revenue account, expense debits the expense account and credits the payable control |
| Journal.JournalStore.OnTitleCreated | accountflow-api/backend/signals.py:85-196 | only a newly created title with a posting changes the store, and only when the posting is accepted; a failure is swallowed |
| Journal.SettlementPosting | accountflow-api/backend/signals.py:201-296 | a posting only with a plan and a billing account, under ("title_settlement", entry uuid), with two analytic lines |
| Journal.SettlementBalancedIffPositive | accountflow-api/backend/signals.py:256-294 | the settlement is accepted iff the rounded amount is positive; income credits the receivable control and debits the cash account, expense debits the payable control and credits the cash account |
| Journal.JournalStore.OnEntryCreated | accountflow-api/backend/signals.py:201-296 | only a newly created entry with a posting changes the store, and only when accepted; a failure is swallowed |
| Journal.ReversalLines | accountflow-api/backend/signals.py:314-321 | one line per original line, with debit and credit swapped |
| Journal.ReversalSwapsTotals | accountflow-api/backend/signals.py:314-321 | the reversal's total debits are the original credits and its total credits the original debits |
| Journal.ReversalOfPostedIsBalanced | accountflow-api/backend/signals.py:314-331 | the reversal of a balanced posting is balanced |
| Journal.ReversalPosting | accountflow-api/backend/signals.py:323-331 | a reversal exists iff the original has lines, under ("title_settlement_reversal", "settle-rev:" + uuid) |
| Journal.JournalStore.OnEntryDeleted | accountflow-api/backend/signals.py:301-331 | no original settlement, or one without lines, changes nothing; otherwise the reversal is posted, and its error is returned rather than swallowed |
| Journal.ReversalOfStoredSettlementAccepted | accountflow-api/backend/signals.py:301-331 | the reversal of any settlement the store accepted is itself balanced |
| CompanyService.MapAddressToApi | accountflow-front/src/services/companyService.ts:30-38 | `cep` goes to `zip_code`, the other six fields are copied, and a missing or empty value becomes '' |
| CompanyService.MapAddressFromApi | accountflow-front/src/services/companyService.ts:40-49 | `zip_code` goes to `cep`, every field defaults to ''; the uuid is the uuid, else the id, else undefined |
| CompanyService.AddressRoundTrip | accountflow-front/src/services/companyService.ts:30-49 | mapping an address to the API and back gives its seven fields (missing as '') and no uuid |
| CompanyService.ApiRoundTrip | accountflow-front/src/services/companyService.ts:30-49 | mapping an API address to the form and back gives its seven fields (missing as '') |
| CompanyService.IfTruthy | accountflow-front/src/services/companyService.ts:73-79 | an optional field is appended, with its value, iff it is truthy |
| CompanyService.LogoField | accountflow-front/src/services/companyService.ts:86-88 | only a file is ever sent as the logo |
| CompanyService.CreateSendsRequiredFields | accountflow-front/src/services/companyService.ts:67-82 | create always sends cnpj, fantasy_name, social_reason, opening_date and cnae first, and type_of defaulting to 'Client' |
| CompanyService.UpdateSendsOnlyTruthy | accountflow-front/src/services/companyService.ts:164-179 | update never sends an empty text field |
| CompanyService.UpdateKeepsTypeUnlessGiven | accountflow-front/src/services/companyService.ts:177 | without a type, update sends no type_of (no 'Client' default) |
| CompanyService.UpdateFieldsSubsetOfCreate | accountflow-front/src/services/companyService.ts:67-88 | when a type is given, every field update sends is also one create sends (also lines 164-179) |
| CompanyService.AddressToPost | accountflow-front/src/services/companyService.ts:57-65 | an address is posted iff one is given without a uuid (also lines 155-162) |
| CompanyService.AddressUuid | accountflow-front/src/services/companyService.ts:57-65 | an address with a uuid is reused as it is; no address gives no uuid |
| CompanyService.ResolveAddress | accountflow-front/src/services/companyService.ts:55-65 | the posted address and the uuid sent are those the two specifications give |
| CompanyService.BuildCreateForm | accountflow-front/src/services/companyService.ts:53-88 | the address posted and the fields appended equal the create specification |
| CompanyService.BuildUpdateForm | accountflow-front/src/services/companyService.ts:152-179 | the address posted and the fields appended equal the update specification |
| CompanyService.AddressIds | accountflow-front/src/services/companyService.ts:103 | exactly the truthy address ids the companies carry |
| CompanyService.HydrateAll | accountflow-front/src/services/companyService.ts:120-125 | one listed company per company, in order, each with its address resolved |
| CompanyService.GetAll | accountflow-front/src/services/companyService.ts:98-128 | the distinct address ids are requested and the companies are hydrated from what came back (a failed list gives none) |
| CompanyService.EachAddressRequestedOnce | accountflow-front/src/services/companyService.ts:103-112 | each distinct truthy address id is requested exactly once |
| CompanyService.ListedAddress | accountflow-front/src/services/companyService.ts:114-124 | a company's address is the fetched address when its request succeeded, else the placeholder {city:'', state:'', uuid:id} |
| PresetTemplate.PresetText | accountflow-front/src/components/utils/presetTemplate.ts:4-17 | an empty template gives ''; without a company the trimmed template; the result is always trimmed |
| PresetTemplate.ReplacePresetVariables | accountflow-front/src/components/utils/presetTemplate.ts:4-17 | the four successive replacements equal the template specification |
| PresetTemplate.ReplaceWithoutOccurrence | accountflow-front/src/components/utils/presetTemplate.ts:10-13 | a case-insensitive replacement whose pattern does not occur changes nothing |
| PresetTemplate.NoPlaceholderOnlyTrims | accountflow-front/src/components/utils/presetTemplate.ts:7-16 | a template with no '@' is only trimmed, with or without a company |
| PresetTemplate.EmpresaNpmeGetsFantasyName | accountflow-front/src/components/utils/presetTemplate.ts:11-13 | "@empresa_npme" becomes the fantasy name followed by "_npme", never the social reason, because "@empresa" is replaced first |
| PresetTemplate.RazaoSocialGetsFantasyName | accountflow-front/src/components/utils/presetTemplate.ts:12 | as written, a template spelling "@razao_social" in any case becomes the trimmed fantasy name |
| PresetTemplate.PresetTextCorrected | accountflow-front/src/components/utils/presetTemplate.ts:4-17 | the corrected substitution keeps the empty-template, no-company and trimmed-result promises of the original |
| PresetTemplate.CorrectedEmpresaNpmeGetsSocialReason | accountflow-front/src/components/utils/presetTemplate.ts:13 | with "@empresa_npme" replaced before "@empresa", that placeholder becomes the trimmed social reason |
| PresetTemplate.CorrectedRazaoSocialGetsSocialReason | accountflow-front/src/components/utils/presetTemplate.ts:12 | with "@razao_social" mapped to the social reason, that placeholder becomes the trimmed social reason |
| PresetTemplate.ApplyPresetToTitle | accountflow-front/src/components/utils/presetTemplate.ts:19-22 | no preset or an empty description gives ''; otherwise the template text of the description |
| Middleware.Decide | accountflow-front/src/middleware.ts:7-23 | no token off the login path redirects to /auth/login with `redirectedFrom`; a token on the login path redirects to /; everything else passes |
| Middleware.Effective | accountflow-front/src/middleware.ts:25-29 | a path the matcher excludes passes untouched; any other gets the guard's answer |
| Middleware.LoginPathsExcluded | accountflow-front/src/middleware.ts:27 | every path starting with /auth/login is excluded by the matcher |
| Middleware.RedirectHomeUnreachable | accountflow-front/src/middleware.ts:17-29 | with the matcher as written, no request is ever redirected home |
| Middleware.SignedInLoginPasses | accountflow-front/src/middleware.ts:17-27 | a signed-in request for /auth/login would be sent home by the guard but passes, because the guard never runs |
| Middleware.CorrectedSendsSignedInHome | accountflow-front/src/middleware.ts:17-20 | without auth/login in the exclusions, a signed-in request for the login page is sent home |
| Middleware.NoRedirectLoop | accountflow-front/src/middleware.ts:11-22 | following any redirect once more leads to a pass, for any exclusion list |
| Middleware.LoginNeverRedirectsAnonymous | accountflow-front/src/middleware.ts:11-22 | an anonymous request for the login page is never redirected |
| Middleware.AnonymousSentToLogin | accountflow-front/src/middleware.ts:11-29 | an anonymous request the matcher admits goes to the login page, under either exclusion list |
| EntryModal.Nullish | accountflow-front/src/components/entries/CreateEntryModal.tsx:70-77 | `a ?? b` yields the present value, or the fallback exactly when the value is absent |
| EntryModal.FormForEntry | accountflow-front/src/components/entries/CreateEntryModal.tsx:66-90 | an entry without a truthy uuid opens a blank form (type = forced type or income); an edited entry fills every field through `?? ''`, its type beats the forced type, and its title is the string itself or the object's uuid |
| EntryModal.Suggestion | accountflow-front/src/components/entries/CreateEntryModal.tsx:107-119 | a suggestion exists only when a title is chosen and no billing account is set, and it is the non-empty payable account (expense) or receivable account (otherwise) of a preset that a title with the chosen uuid points at; no title with that uuid gives no suggestion |
| EntryModal.SuggestionFromFirstMatches | accountflow-front/src/components/entries/CreateEntryModal.tsx:63-119 | when a title is chosen, no account is set, the first title with that uuid names a preset and the first preset with that uuid is loaded, the suggestion is that preset's account for the form's type whenever it is non-empty, and none otherwise |
| EntryModal.NoSuggestionWithoutPreset | accountflow-front/src/components/entries/CreateEntryModal.tsx:63-111 | no suggestion when the first title with the chosen uuid names no preset, or names one that is not among the loaded presets |
| EntryModal.SubmitCall | accountflow-front/src/components/entries/CreateEntryModal.tsx:121-135 | the saved entry has a trimmed description, amount 0 for an empty amount, null paid-at and billing account exactly when they are empty, keeps the edited entry's creation date (else now) and carries the edited uuid |
| EntryModal.EditSubmitRoundTrip | accountflow-front/src/components/entries/CreateEntryModal.tsx:68-135 | opening an entry and saving it unchanged sends back its uuid, title, paid-at, billing account, creation date and trimmed description |
| EntryModal.EditedTypeBeatsForcedType | accountflow-front/src/components/entries/CreateEntryModal.tsx:75 | an edited entry's own type wins over the forced type, which only fills in when the entry has none |
| EntryModal.CreateEntryModal.constructor | accountflow-front/src/components/entries/CreateEntryModal.tsx:50-58 | the modal starts with an empty income form |
| EntryModal.CreateEntryModal.Open | accountflow-front/src/components/entries/CreateEntryModal.tsx:66-90 | opening the modal replaces the form by the entry's form; a closed modal keeps the form |
| EntryModal.CreateEntryModal.Suggest | accountflow-front/src/components/entries/CreateEntryModal.tsx:107-119 | the suggestion effect sets only the billing account, and only when a suggestion exists |
| EntryModal.CreateEntryModal.ChangeType | accountflow-front/src/components/entries/CreateEntryModal.tsx:239-243 | the type select changes the type only when no type is forced |
| EntryModal.CreateEntryModal.ChooseBillingAccount | accountflow-front/src/components/entries/CreateEntryModal.tsx:275 | choosing a billing account changes that field alone |
| EntryModal.CreateEntryModal.Submit | accountflow-front/src/components/entries/CreateEntryModal.tsx:121-135 | submitting sends the call SubmitCall describes for the current form |
| EntryModal.ChosenAccountKept | accountflow-front/src/components/entries/CreateEntryModal.tsx:109-111 | a billing account the user chose is never overwritten by a later preset suggestion (also line 275) |
| EntryModal.ForcedTypeHolds | accountflow-front/src/components/entries/CreateEntryModal.tsx:85 | with a forced type, a blank form has that type and the type select cannot change it (also lines 239-243) |
| TitleForm.DayPart | accountflow-front/src/components/titles/TitleForm.tsx:39 | the date part is the prefix of the ISO string before the first `T` |
| TitleForm.FormForTitle | accountflow-front/src/components/titles/TitleForm.tsx:33-61 | no title gives the blank form; a title fills each field with its value or `''`, type defaults to income, active defaults to true, recurrence to false, and the company is kept only when it is a uuid string |
| TitleForm.SubmitTitle | accountflow-front/src/components/titles/TitleForm.tsx:63-80 | saving fails with "Empresa é obrigatória" exactly when no company is chosen; otherwise it sends the form with the parsed amount, fees 0 exactly when empty, installments null exactly when empty, and the title's uuid |
| TitleForm.Heading | accountflow-front/src/components/titles/TitleForm.tsx:91 | the heading is "Editar Título" exactly when a title is being edited, "Novo Título" otherwise |
| TitleForm.ExpandedCompanyBlocksSave | accountflow-front/src/components/titles/TitleForm.tsx:45-69 | a title whose company arrives as an object loads with an empty company and so cannot be saved unchanged |
| TitleForm.LoadSaveRoundTrip | accountflow-front/src/components/titles/TitleForm.tsx:33-80 | loading a title with a company uuid and saving it unchanged succeeds with the same uuid, company, type and description |
| TitleForm.HeadingIgnoresUuid | accountflow-front/src/components/titles/TitleForm.tsx:91 | the edit heading depends on a title being present, not on it having a uuid (also line 258) |
| TitleForm.TitleFormView.constructor | accountflow-front/src/components/titles/TitleForm.tsx:18-31 | the form starts blank with no toast |
| TitleForm.TitleFormView.Load | accountflow-front/src/components/titles/TitleForm.tsx:33-61 | the title effect replaces the form by FormForTitle |
| TitleForm.TitleFormView.Submit | accountflow-front/src/components/titles/TitleForm.tsx:63-80 | without a company the error toast is shown and nothing is saved; otherwise the SubmitTitle call is sent and the toast is untouched |
| CreateTitleModal.StoredValue | accountflow-front/src/components/titles/CreateTitleModal.tsx:34-40 | a checkbox stores its checked flag, a number input the parsed number, any other input its raw text |
| CreateTitleModal.CreateTitleModalView.constructor | accountflow-front/src/components/titles/CreateTitleModal.tsx:26-32 | the form starts with the initial description, amount, date, active and recurrence values |
| CreateTitleModal.CreateTitleModalView.HandleInputChange | accountflow-front/src/components/titles/CreateTitleModal.tsx:34-40 | an input change sets that one key and leaves every other key as it was |
| CreateTitleModal.CreateTitleModalView.HandleSubmit | accountflow-front/src/components/titles/CreateTitleModal.tsx:43-54 | submitting calls onSave with the current data, then onClose, then resets the form |
| CreateTitleModal.ChangeThenSubmit | accountflow-front/src/components/titles/CreateTitleModal.tsx:34-54 | a change followed by a submit saves data holding the changed value and leaves the form reset |
| TitleLists.FilteredTitles | accountflow-front/src/app/pages/titles/page.tsx:104-112 | a title is listed exactly when its description contains the search term (ignoring case), its type matches the type filter or the filter is "all", and its active flag matches the status filter or the filter is "all" |
| TitleLists.NoFilterListsAll | accountflow-front/src/app/pages/titles/page.tsx:104-112 | with an empty search and both filters on "all" the whole list is shown, in order |
| TitleLists.TypeLabel | accountflow-front/src/app/pages/titles/page.tsx:28-29 | "Receita" exactly for income, "Despesa" exactly for expense, "Indefinido" for anything else |
| TitleLists.CompanyName | accountflow-front/src/app/pages/titles/page.tsx:62-65 | the fantasy name of the first company with that uuid, "N/A" when there is none or its name is empty |
| TitleLists.CompanyCell | accountflow-front/src/app/pages/titles/page.tsx:200 | a company given as a uuid string shows its name; an expanded company object shows "N/A" |
| TitleLists.RecurrenceLabel | accountflow-front/src/app/pages/titles/page.tsx:223-234 | "Não" exactly when the title does not recur; otherwise the Portuguese name of a known period, or "Sim" |
| TitleLists.InstallmentsLabel | accountflow-front/src/app/pages/titles/page.tsx:219 | no installments or zero shows "À vista"; any other count shows the number |
| TitleLists.ReceivableTitles | accountflow-front/src/app/pages/operations/accounts-receivable/create/page.tsx:111-122 | the receivables list holds exactly the income titles that match the search and status filter |
| TitleLists.ReceivablesAreIncomeView | accountflow-front/src/app/pages/operations/accounts-receivable/create/page.tsx:111-122 | the receivables list is the general title list with its type filter fixed on income |
| TitleLists.ReceivableSave | accountflow-front/src/app/pages/operations/accounts-receivable/create/page.tsx:79-81 | a receivable is always saved as income, with every other field as the form sent it |
| TitleLists.ReceivableSavedMessage | accountflow-front/src/app/pages/operations/accounts-receivable/create/page.tsx:83-86 | "Recebimento atualizado com sucesso!" exactly when a uuid is given, "Recebimento cadastrado com sucesso!" exactly when not |
| TitleLists.NewReceivableCreates | accountflow-front/src/app/pages/operations/accounts-receivable/create/page.tsx:79-143 | the "new receivable" button opens the form on an income title without uuid, so saving it with a company creates an income title with the creation message |
| TitleLists.DeleteRequest | accountflow-front/src/app/pages/operations/accounts-receivable/create/page.tsx:97-100 | a delete request is sent only for a truthy pending uuid, and for that uuid |
| TitleLists.OpenTitles | accountflow-front/src/app/pages/operations/accounts-receivable/receive/page.tsx:25 | the receive page keeps exactly the active income titles, and the pay page the active expense titles |
| TitleLists.Displayed | accountflow-front/src/app/pages/operations/accounts-receivable/receive/page.tsx:38 | the settle pages show exactly the loaded titles whose description contains the search term |
| TitleLists.LoadOpen | accountflow-front/src/app/pages/operations/accounts-receivable/receive/page.tsx:22-31 | a failed load keeps the previous list and shows "Erro ao carregar dados."; a successful one shows the open titles and no toast |
| TitleLists.EmptySearchShowsLoaded | accountflow-front/src/app/pages/operations/accounts-receivable/receive/page.tsx:38 | an empty search shows every loaded title |
| TitleLists.OpenListIsTitlesView | accountflow-front/src/app/pages/operations/accounts-receivable/receive/page.tsx:25-38 | the settle list is the general title list with the type filter on its type and the status filter on "active" |
| HistoryPresets.FilteredPresets | accountflow-front/src/app/pages/history-presets/page.tsx:76-85 | a preset is listed exactly when it belongs to the chosen plan (or no plan is chosen) and its name or description contains the trimmed, lower-cased search text (or that text is blank); the list never grows |
| HistoryPresets.BlankFiltersShowAll | accountflow-front/src/app/pages/history-presets/page.tsx:76-85 | with no plan chosen and a blank search every preset is listed, in order |
| HistoryPresets.PlanFilterNarrows | accountflow-front/src/app/pages/settings/history-presets/page.tsx:151-161 | choosing a plan keeps, of the text-filtered list, exactly the presets of that plan |
| HistoryPresets.Gathered | accountflow-front/src/app/pages/history-presets/page.tsx:58-74 | the accounts of every plan are gathered, and the gathering fails exactly when one plan's account request fails |
| HistoryPresets.GatherAccounts | accountflow-front/src/app/pages/history-presets/page.tsx:62-67 | the loop appends each plan's accounts in turn and yields the Gathered result |
| HistoryPresets.SetEntryUuids | accountflow-front/src/app/pages/history-presets/page.tsx:69 | setting a key in the Map keeps the key order, appending only a new key |
| HistoryPresets.SetEntryMembers | accountflow-front/src/app/pages/history-presets/page.tsx:69 | after setting a key the Map holds the new account and only earlier accounts with other keys |
| HistoryPresets.UniqueByUuidSpec | accountflow-front/src/app/pages/history-presets/page.tsx:69 | the de-duplicated list has each uuid once, in first-seen order, and each entry is the last account seen with its uuid |
| HistoryPresets.FindAccount | accountflow-front/src/app/pages/history-presets/page.tsx:150 | `find` yields the first account with the uuid, or nothing exactly when no account has it |
| HistoryPresets.LookupAfterMerge | accountflow-front/src/app/pages/history-presets/page.tsx:69-150 | looking a uuid up in the de-duplicated list finds the last account loaded with that uuid |
| HistoryPresets.AccountName | accountflow-front/src/app/pages/history-presets/page.tsx:148-152 | the shown name is the found account's name when non-empty, otherwise the preset's stored payable or receivable name |
| HistoryPresets.ShownNameIsLastRecord | accountflow-front/src/app/pages/history-presets/page.tsx:69-152 | when a uuid is loaded twice the table shows the later account's name |
| HistoryPresets.AccountLabel | accountflow-front/src/app/pages/settings/history-presets/page.tsx:164-167 | no uuid or an unknown uuid shows "—"; otherwise the name of the first account with that uuid |
| HistoryPresets.PlanName | accountflow-front/src/app/pages/settings/history-presets/page.tsx:169-172 | no uuid or an unknown uuid shows "Plano não encontrado"; otherwise the name of the first plan with that uuid |
| HistoryPresets.OpenedForm | accountflow-front/src/app/pages/settings/history-presets/page.tsx:81-107 | a new preset opens an empty form; an edited one copies its name, description, plan and both accounts, absent values as empty text |
| HistoryPresets.OpenedPresetSavable | accountflow-front/src/app/pages/history-presets/page.tsx:87-116 | an opened preset passes the required-field guard exactly when its trimmed name, plan and both accounts are all non-empty |
| HistoryPresets.EmptyFormRefused | accountflow-front/src/app/pages/history-presets/page.tsx:100-119 | a new preset cannot be saved before its fields are filled |
| HistoryPresets.SaveToast | accountflow-front/src/app/pages/history-presets/page.tsx:115-134 | missing fields warn "Preencha todos os campos obrigatórios."; a save that succeeds reports updated or created as the preset was edited or new; a failure reports "Erro ao salvar." |
| HistoryPresets.PresetsPage.constructor | accountflow-front/src/app/pages/settings/history-presets/page.tsx:17-42 | the page starts with empty lists, a closed modal, no toast, an empty form and no pending delete |
| HistoryPresets.PresetsPage.LoadData | accountflow-front/src/app/pages/history-presets/page.tsx:45-56 | when both requests answer the plans and presets are replaced together; when either fails both are kept and the load-error toast is shown |
| HistoryPresets.PresetsPage.LoadAccountsMerged | accountflow-front/src/app/pages/history-presets/page.tsx:58-74 | the accounts become the de-duplicated gathering of every plan's accounts; any failure keeps the old accounts |
| HistoryPresets.PresetsPage.LoadAccounts | accountflow-front/src/app/pages/settings/history-presets/page.tsx:63-78 | the accounts become the gathering of every plan's accounts, duplicates included; any failure keeps the old accounts |
| HistoryPresets.PresetsPage.OpenModal | accountflow-front/src/app/pages/history-presets/page.tsx:87-113 | the modal edits the given preset with its form; a new preset has no modal accounts; an edited preset shows its plan's accounts, and a failed request leaves the modal accounts and the open flag unchanged |
| HistoryPresets.PresetsPage.OpenForm | accountflow-front/src/app/pages/settings/history-presets/page.tsx:81-107 | the form edits the given preset and the modal always opens, even when the account request fails; a new preset has no modal accounts; an edited preset gets the plan's accounts when the request answers, else keeps the previous ones |
| HistoryPresets.PresetsPage.ChangePlan | accountflow-front/src/app/pages/history-presets/page.tsx:290-305 | changing the plan clears both chosen accounts and loads that plan's accounts (none for an empty plan) |
| HistoryPresets.PresetsPage.HandleSave | accountflow-front/src/app/pages/history-presets/page.tsx:115-134 | no request and a warning when a required field is missing; otherwise the form is sent with the edited uuid, and on success the presets are reloaded and the modal closes |
| HistoryPresets.PresetsPage.SubmitSave | accountflow-front/src/app/pages/history-presets/page.tsx:121-133 | after a successful save and reload the presets are the reloaded list, the toast names the create or update and the modal closes; any failure leaves presets and modal as they were with the error toast; loading ends false either way |
| HistoryPresets.PresetsPage.HandleDelete | accountflow-front/src/app/pages/history-presets/page.tsx:136-146 | a refused confirmation does nothing; a confirmed delete sends the preset's uuid and reloads on success, or reports the failure |
| HistoryPresets.PresetsPage.AskDelete | accountflow-front/src/app/pages/settings/history-presets/page.tsx:292 | the trash button records the preset awaiting confirmation |
| HistoryPresets.PresetsPage.DeleteConfirm | accountflow-front/src/app/pages/settings/history-presets/page.tsx:136-148 | with no pending preset nothing happens; otherwise its uuid is sent, the list reloads or the failure is reported, and the pending preset is cleared either way |
| HistoryPresets.SaveAfterPlanChangeRefused | accountflow-front/src/app/pages/history-presets/page.tsx:290-305 | saving straight after changing the plan is refused with the required-fields warning, because the accounts were cleared (also lines 115-119) |
| DreReport.DefaultTab | accountflow-front/src/app/pages/reports/dre/page.tsx:83-86 | the default tab is monthly exactly when a monthly breakdown exists, by account exactly when only that breakdown exists, and summary exactly when neither does |
| DreReport.ShownItems | accountflow-front/src/app/pages/reports/dre/page.tsx:655-660 | a detail item is shown exactly when it passes the type, payment-method and top-level filters ("all" passes everything); the list never grows |
| DreReport.AllFiltersShowEverything | accountflow-front/src/app/pages/reports/dre/page.tsx:655-660 | with every filter on "all" each day shows all its items, in order |
| DreReport.DayTotals | accountflow-front/src/app/pages/reports/dre/page.tsx:661-670 | the day total's revenues sum the income items, its expenses sum every other item, and its result is their difference |
| DreReport.SumsAppend | accountflow-front/src/app/pages/reports/dre/page.tsx:661-670 | revenue and expense totals add up over concatenated item lists |
| DreReport.TypeFilterSeparatesTotals | accountflow-front/src/app/pages/reports/dre/page.tsx:656-665 | filtering on income shows no expenses and filtering on expense shows no revenues |
| DreReport.AllTypesSplitIntoViews | accountflow-front/src/app/pages/reports/dre/page.tsx:656-670 | when every item is income or expense, the unfiltered revenues equal the income view's and the unfiltered expenses equal the expense view's |
| DreReport.AllItems | accountflow-front/src/app/pages/reports/dre/page.tsx:639-640 | the flattened detail list holds exactly the items of all days |
| DreReport.TopLevels | accountflow-front/src/app/pages/reports/dre/page.tsx:641-642 | the top-level values kept are exactly the non-empty ones present in the items |
| DreReport.TopLevelOptionsSound | accountflow-front/src/app/pages/reports/dre/page.tsx:637-643 | the level options are distinct, are exactly the non-empty top levels of the report, and each one shows at least one item on some day |
| DreReport.Fixed2 | accountflow-front/src/app/pages/reports/dre/page.tsx:114 | an amount printed with two decimals contains no comma |
| DreReport.NoCommas | accountflow-front/src/app/pages/reports/dre/page.tsx:139 | the safe name replaces each comma by a space and keeps every other character |
| DreReport.MonthLines | accountflow-front/src/app/pages/reports/dre/page.tsx:129-135 | one CSV line per month row |
| DreReport.AccountLines | accountflow-front/src/app/pages/reports/dre/page.tsx:136-143 | one CSV line per account row |
| DreReport.DayLines | accountflow-front/src/app/pages/reports/dre/page.tsx:147-154 | one CSV line per detail item of the day |
| DreReport.DetailLinesUpTo | accountflow-front/src/app/pages/reports/dre/page.tsx:144-155 | the details export has exactly one line per item over all days |
| DreReport.DefaultTabExportsItsSection | accountflow-front/src/app/pages/reports/dre/page.tsx:83-156 | exporting on the default tab gives the monthly section when monthly data exists, the account section when only account data exists, and nothing extra otherwise |
| DreReport.MissingTabDataFallsBack | accountflow-front/src/app/pages/reports/dre/page.tsx:118-177 | a tab whose data is missing exports the same as the summary fallback |
| DreReport.AccountLineColumns | accountflow-front/src/app/pages/reports/dre/page.tsx:139-141 | an account line whose code has no comma has exactly five columns whatever its name |
| DreReport.CompanyLabel | accountflow-front/src/app/pages/reports/dre/page.tsx:184 | the company part is the non-empty fantasy name of the first company with the chosen uuid, "empresa" when that name is empty or missing or no company has the uuid, and never empty |
| DreReport.CsvFileName | accountflow-front/src/app/pages/reports/dre/page.tsx:184-185 | the name starts with "dre_", ends with "_", the tab and ".csv", and between them holds the company part, the start, "_a_" and the end |
| DreReport.CsvFileNameKeepsTab | accountflow-front/src/app/pages/reports/dre/page.tsx:185 | exports of two different tabs never get the same file name, for any company and period |
| DreReport.DreReportPage.constructor | accountflow-front/src/app/pages/reports/dre/page.tsx:15-23 | the page starts with no companies, empty parameters, no report, the summary tab and no toast |
| DreReport.DreReportPage.LoadCompanies | accountflow-front/src/app/pages/reports/dre/page.tsx:60-70 | the company list is replaced when the request answers; a failure keeps it and shows "Falha ao carregar empresas" |
| DreReport.DreReportPage.FetchReport | accountflow-front/src/app/pages/reports/dre/page.tsx:72-102 | missing company or period warns and changes nothing; otherwise the request carries group only when set, a report is stored with its default tab, a failure clears the report and shows the error body's message, and loading ends false |
| DreReport.DreReportPage.ExportCsv | accountflow-front/src/app/pages/reports/dre/page.tsx:104-185 | no report exports nothing and names no file; otherwise the lines are the header, totals and the current tab's section, and the download is named by CsvFileName from the page's companies, company, period and tab |
| DreReport.PushBreakdowns | accountflow-front/src/app/pages/reports/dre/page.tsx:156-177 | the fallback appends the monthly block and then the account block, each followed by a blank line, when present |
| DreReport.PushMonthRows | accountflow-front/src/app/pages/reports/dre/page.tsx:131-135 | the loop appends exactly the month lines |
| DreReport.PushAccountRows | accountflow-front/src/app/pages/reports/dre/page.tsx:138-143 | the loop appends exactly the account lines |
| DreReport.PushDayRows | accountflow-front/src/app/pages/reports/dre/page.tsx:148-154 | the loop appends exactly the day's detail lines |
| DreReport.PushDetailRows | accountflow-front/src/app/pages/reports/dre/page.tsx:147-155 | the loop over days appends exactly the detail lines of every day in order |
| CompanyPage.TaxRegimeLabel | accountflow-front/src/app/pages/company/page.tsx:52-63 | the three known regimes get their Portuguese names; any other value is shown as it is |
| CompanyPage.TaxRegimeColor | accountflow-front/src/app/pages/company/page.tsx:65-76 | simples nacional is success, lucro presumido warning, lucro real info, and gray exactly for an unknown regime |
| CompanyPage.BadgeDistinguishesRegimes | accountflow-front/src/app/pages/company/page.tsx:52-76 | two different regime values never get the same badge text and colour |
| CompanyPage.Without | accountflow-front/src/app/pages/company/page.tsx:94 | after a delete the list holds exactly the companies with another uuid; it never grows |
| CompanyPage.DeleteIdempotent | accountflow-front/src/app/pages/company/page.tsx:94 | removing the same uuid twice is the same as removing it once |
| CompanyPage.DeleteUnknownKeepsList | accountflow-front/src/app/pages/company/page.tsx:94 | removing a uuid no company has leaves the list as it was |
| CompanyPage.CompaniesPage.constructor | accountflow-front/src/app/pages/company/page.tsx:27-33 | the page starts loading, with no companies, a closed delete modal and no toast |
| CompanyPage.CompaniesPage.Load | accountflow-front/src/app/pages/company/page.tsx:35-50 | the list becomes the answer, or empty when the request fails, and loading ends |
| CompanyPage.CompaniesPage.DeleteClick | accountflow-front/src/app/pages/company/page.tsx:82-84 | the delete modal opens on that company |
| CompanyPage.CompaniesPage.DeleteCancel | accountflow-front/src/app/pages/company/page.tsx:104-106 | cancelling closes the modal and forgets the company |
| CompanyPage.CompaniesPage.DeleteConfirm | accountflow-front/src/app/pages/company/page.tsx:86-102 | with no company chosen nothing happens; otherwise its uuid is sent, on success it leaves the list with the named success toast, on failure the list stays and the error toast shows, and the modal closes either way |
| CompanyPage.DeleteRemovesOnlyThatCompany | accountflow-front/src/app/pages/company/page.tsx:82-102 | clicking delete on a company and confirming a successful delete removes every company with its uuid and nothing else, and closes the modal |
| BillingPlans.SavedMessage | accountflow-front/src/app/pages/settings/billing-plans/page.tsx:45-48 | "Plano atualizado com sucesso!" exactly when a uuid is given, "Plano cadastrado com sucesso!" exactly when not |
| BillingPlans.SettingsPlansPage.constructor | accountflow-front/src/app/pages/settings/billing-plans/page.tsx:17-22 | the page starts with no plans, a closed modal, no plan being edited, no toast and no pending delete |
| BillingPlans.SettingsPlansPage.FetchPlans | accountflow-front/src/app/pages/settings/billing-plans/page.tsx:24-31 | the plan list becomes the answer; a failure keeps it and shows "Erro ao buscar planos." |
| BillingPlans.SettingsPlansPage.HandleSave | accountflow-front/src/app/pages/settings/billing-plans/page.tsx:37-56 | a blank name or description warns and sends nothing; otherwise the plan is sent with its uuid, a success shows the created or updated message, closes the modal, clears the edited plan and refetches, and a failure shows the save error |
| BillingPlans.SettingsPlansPage.ConfirmDelete | accountflow-front/src/app/pages/settings/billing-plans/page.tsx:58-60 | the delete button records the plan awaiting confirmation |
| BillingPlans.SettingsPlansPage.HandleDelete | accountflow-front/src/app/pages/settings/billing-plans/page.tsx:62-73 | without a pending uuid nothing happens; otherwise that uuid is sent, success refetches with the deleted toast, failure shows the error, and the pending uuid is cleared |
| BillingPlans.SettingsPlansPage.HandleEdit | accountflow-front/src/app/pages/settings/billing-plans/page.tsx:75-78 | editing opens the modal on that plan |
| BillingPlans.SettingsPlansPage.HandleNew | accountflow-front/src/app/pages/settings/billing-plans/page.tsx:80-83 | a new plan opens the modal with nothing being edited |
| BillingPlans.SettingsPlansPage.CloseModal | accountflow-front/src/app/pages/settings/billing-plans/page.tsx:148 | the form's close callback hides the modal |
| BillingPlans.PlanFormView.constructor | accountflow-front/src/components/billing/billingPlanForm.tsx:15 | the form starts with an empty name and description |
| BillingPlans.PlanFormView.Sync | accountflow-front/src/components/billing/billingPlanForm.tsx:17-23 | the form takes the edited plan's name and description, or is emptied when nothing is edited |
| BillingPlans.PlanFormView.SetName | accountflow-front/src/components/billing/billingPlanForm.tsx:15 | typing a name changes only the name |
| BillingPlans.PlanFormView.SetDescription | accountflow-front/src/components/billing/billingPlanForm.tsx:15 | typing a description changes only the description |
| BillingPlans.PlanFormView.HandleSave | accountflow-front/src/components/billing/billingPlanForm.tsx:25-29 | a blank name makes no call; otherwise onSave gets the form and the edited plan's uuid, then onClose is called |
| BillingPlans.BlankDescriptionClosesWithWarning | accountflow-front/src/components/billing/billingPlanForm.tsx:25-29 | a plan with a name but a blank description passes the form, is refused by the page with the required-fields warning, and the form's close call still hides the modal |
| BillingPlans.EditResavesSamePlan | accountflow-front/src/components/billing/billingPlanForm.tsx:17-29 | opening a plan with a name and saving it unchanged sends exactly its name, description and uuid, then closes |
| BillingPlans.LocalPlansPage.constructor | accountflow-front/src/app/pages/billing-plans/page.tsx:15-21 | the local page starts with its two sample plans, a closed modal and an empty new plan |
| BillingPlans.LocalPlansPage.AddPlan | accountflow-front/src/app/pages/billing-plans/page.tsx:23-36 | a blank name raises the alert and changes nothing; otherwise the plan is appended with a fresh uuid, the modal closes and the new-plan form is emptied |
| BillingPlans.AddKeepsEarlierPlans | accountflow-front/src/app/pages/billing-plans/page.tsx:33 | adding a plan keeps every earlier plan in place and grows the list by one exactly when no alert was raised |

## Left out

- Network, cookies, routing and rendering: every request is a parameter (its answer, or `None` for a failure); toasts, timers, confirm dialogs, layouts, chart geometry and the DOM download of the CSV file are not modelled.
- Nondeterministic values (`Math.random` ids, `crypto.randomUUID`, `new Date()`) are parameters of the methods that use them.
- Floating point: amounts of the back end are exact `real`s; JavaScript `Number`, `parseFloat`, `parseInt`, `toFixed` and `Intl` currency formatting are kept abstract (a parsed value is a marker over its text, and `NaN` appears only as the "not a number" marker), so no rounding or exponent format is modelled.
- TitleForm.SubmitTitle: the fees percentage divided by 100 and rounded with `toFixed(2)` is kept as an abstract marker over the entered text, not as a number.
- DreReport.Fixed2: rounds half away from zero on the exact real value, whereas `toFixed(2)` rounds the binary double, so `(1.005).toFixed(2)` is "1.00" in JavaScript and "1.01" here; its contract states only that the text carries no comma.
- DreReport.MonthLines: states the line count; the text of each line is its defining function `MonthLine`. The same holds for DreReport.AccountLines and DreReport.DayLines.
- Common.Trim: its own contract bounds the length; the rest is stated by lemmas beside it: Common.TrimmedEnds (the result neither starts nor ends with white space), Common.TrimNoSpace (a string without white space at its ends is unchanged) and Common.TrimEmptyIffBlank (the result is empty iff every character is white space). That the result is a contiguous middle part of the input is not stated. White space is ASCII space, tab, newline, carriage return, form feed and vertical tab only, whereas JavaScript `trim` and Python `strip` also remove Unicode spaces.
- Common.Lower: case folding is ASCII only; JavaScript and Python lower-case the whole of Unicode.
- Common.Upper: upper-casing is ASCII only, whereas JavaScript's `toUpperCase()` maps the whole of Unicode (and can lengthen the text, as "ß" becomes "SS").
- BillingAccountForm.AccountFormPage.ChangeName: the name is upper-cased in ASCII only, so "serviços" is stored as "SERVIçOS" where the page stores "SERVIÇOS".
- Common.IsDigit: the model's digit class is the ASCII digits 0-9, whereas Python's `\d` on a `str` pattern without `re.ASCII` matches every Unicode decimal digit; for instance `validate_phone("١٢٣٤٥٦٧٨")` (eight Arabic-Indic digits) is accepted by the source and rejected by the model. The same holds for `_only_digits` (Common.OnlyDigits on the back-end side), whose `\D` keeps every Unicode decimal digit; the front-end `\D` of JavaScript is ASCII, as modelled. The validators below inherit this restriction.
- CompanyValidators.ValidateCnpj: `_CNPJ_RE` (company_value_objects.py:5) and `_only_digits` are read with ASCII digits only; in the source both `\d` and `\D` are Unicode-aware and `int()` reads any Unicode decimal digit, so a CNPJ written in, say, Arabic-Indic digits with matching check digits is accepted by the source and rejected by the model.
- CompanyValidators.ValidateCnae: `_CNAE_RE` is matched with ASCII digits only; the source also accepts other Unicode decimal digits.
- CompanyValidators.ValidateCep: `_CEP_RE` is matched with ASCII digits only; the source also accepts other Unicode decimal digits.
- CompanyValidators.ValidatePhone: `_PHONE_RE` is matched with ASCII digits only; the source also accepts other Unicode decimal digits, as in the example above.
- UserDomain.MakeCpf: the CPF pattern of value_objects.py:11 is matched with ASCII digits only; the source also accepts other Unicode decimal digits.
- UserDomain.MakeCnpj: the CNPJ pattern of value_objects.py:23 is matched with ASCII digits only; the source also accepts other Unicode decimal digits.
- UserDomain.CpfCnpjDigits: the `cpf_cnpj` patterns of user_models.py are matched with ASCII digits only.
- Python's `$` also matching before a trailing newline, and JavaScript `replace` expanding `$&` in replacement strings, are not modelled; the fantasy and social names are inserted literally.
- PresetTemplate.EmpresaNpmeGetsFantasyName: proved for the template that consists of the placeholder alone, not for every template containing it.
- PresetTemplate.RazaoSocialGetsFantasyName: likewise proved for the template that consists of the placeholder alone (and a fantasy name without '@').
- PresetTemplate.CorrectedEmpresaNpmeGetsSocialReason: likewise proved for the lone placeholder and a social reason without '@'; the same holds for PresetTemplate.CorrectedRazaoSocialGetsSocialReason.
- TitleForm.DayPart: takes the date part of the ISO text as given; the UTC normalisation of `new Date(...).toISOString()` is not modelled.
- AccountPlan.AddGrowth: the size of the new forest is stated only when at most one account carries the parent id; with several, nested ones under a matching account receive nothing, and that count is not stated.
- The tree builder from a flat parent-pointer list is not part of this model: the pages receive children already nested.
- CompanyService: addresses given inline in a company listing are not put into the id set, and `getById` is not part of this model.
- Journal: `transaction.atomic`, the logging of caught errors and the ORM's ordering of accounts are not modelled; a journal call is all-or-nothing and the control-account search runs over a given sequence.
- Users and companies are compared by their primary key; UserDomain.CanCreateUser ranges over a given sequence of users instead of the ORM table.
- HistoryPresets.PresetsPage.OpenForm: on the settings page the plan's accounts arrive through `.then` after the modal has opened; the model takes that later answer as a parameter and applies it in the same step, so the moment in between, when the modal shows the previous accounts, and a late answer overtaking a later choice are not modelled. Null preset fields on that page are read as empty text.
- DreReport.CsvFileName: the `tab || 'resumo'` fallback is not modelled, because the tab state always holds one of the five non-empty tab names.
- The `{...}[period]` lookup of the recurrence label ignores JavaScript prototype keys such as `constructor`.
- BillingPlans.SettingsPlansPage.HandleSave: the unawaited refetch after a save or delete is reported as a flag; the plans it loads arrive through FetchPlans.
- The CEP and CNPJ look-ups of the register page are modelled only as the decision to fire them, not their results.

## Findings

| source | as written | input that shows it | evidently intended | confidence | as-written member | corrected member |
|---|---|---|---|---|---|---|
| accountflow-api/backend/domain/company/company_value_objects.py:24 | the check-digit weights start one place too high (6,5,4,3,2,9,... for the first digit) | "12.345.678/0001-95", a CNPJ with correct check digits, is rejected | the Receita Federal weights 5,4,3,2,9,8,7,6,5,4,3,2 and 6,5,4,3,2,9,8,7,6,5,4,3,2 | not executed | CompanyValidators.ExampleCnpjRejectedAsWritten | CompanyValidators.ValidateCnpjStandard |
| accountflow-front/src/middleware.ts:27 | the matcher excludes every path starting with auth/login, so the guard never sees the login page | a request for "/auth/login" with cookie auth_token "abc" passes instead of being redirected to "/" | the signed-in redirect from the login page at lines 17-20 runs | not executed | Middleware.SignedInLoginPasses | Middleware.CorrectedSendsSignedInHome |
| accountflow-front/src/components/utils/presetTemplate.ts:12 | the "@razao_social" placeholder is replaced by the fantasy name | the template "@razao_social" with fantasy name "Loja" and social reason "Loja Ltda" gives "Loja" | "@razao_social" gives the social reason (the legal name the placeholder is named after) | not executed | PresetTemplate.RazaoSocialGetsFantasyName | PresetTemplate.CorrectedRazaoSocialGetsSocialReason |
| accountflow-front/src/components/utils/presetTemplate.ts:13 | "@empresa" is replaced at line 11, before "@empresa_npme" is looked for, so the replacement at line 13 never finds its placeholder | the template "@empresa_npme" with fantasy name "Loja" and social reason "Loja Ltda" gives "Loja_npme" | "@empresa_npme" gives the social reason, the longer placeholder being replaced before its prefix | not executed | PresetTemplate.EmpresaNpmeGetsFantasyName | PresetTemplate.CorrectedEmpresaNpmeGetsSocialReason |
