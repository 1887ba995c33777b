/**
 * The company registration page: the digit-slot input mask, the form's
 * field update, the lengths at which the CEP and CNPJ look-ups fire, and the
 * submit outcome toasts.
 */
module CompanyRegister {
  import opened Common
  import ErrorBody

  const CnpjMask := "99.999.999/9999-99"
  const CepMask := "99999-999"
  const PhoneMask := "(99) 99999-9999"

  /** The number of digit slots ('9') in a mask. */
  function Nines(mask: string): (n: nat)
    ensures n <= |mask|
  {
    if mask == [] then 0 else (if mask[0] == '9' then 1 else 0) + Nines(mask[1..])
  }

  function Min(a: nat, b: nat): nat
  {
    if a <= b then a else b
  }

  /**
   * What the mask loop writes for the digit string `digits`: a '9' takes the
   * next digit, any other mask character is copied, and writing stops when
   * either the mask or the digits run out.
   */
  function Masked(digits: string, mask: string): (r: string)
    ensures |r| <= |mask|
    ensures digits == [] ==> r == []
  {
    if mask == [] || digits == [] then []
    else if mask[0] == '9' then [digits[0]] + Masked(digits[1..], mask[1..])
    else [mask[0]] + Masked(digits, mask[1..])
  }

  /** `applyMask(value, mask)` as a value. */
  function MaskValue(value: string, mask: string): string
  {
    Masked(OnlyDigits(value), mask)
  }

  /** `applyMask`: clean the input to its digits, then fill the mask's slots one by one. */
  method ApplyMask(value: string, mask: string) returns (maskedValue: string)
    ensures maskedValue == MaskValue(value, mask)
  {
    var cleanValue := OnlyDigits(value);
    maskedValue := "";
    var valueIndex := 0;
    var i := 0;
    while i < |mask| && valueIndex < |cleanValue|
      invariant 0 <= i <= |mask| && 0 <= valueIndex <= |cleanValue|
      invariant maskedValue + Masked(cleanValue[valueIndex..], mask[i..]) == Masked(cleanValue, mask)
    {
      var ds, ms := cleanValue[valueIndex..], mask[i..];
      assert ms[0] == mask[i] && ms[1..] == mask[i + 1..];
      assert ds[0] == cleanValue[valueIndex] && ds[1..] == cleanValue[valueIndex + 1..];
      if mask[i] == '9' {
        assert Masked(ds, ms) == [ds[0]] + Masked(ds[1..], ms[1..]);
        assert maskedValue + ([ds[0]] + Masked(ds[1..], ms[1..])) == maskedValue + [ds[0]] + Masked(ds[1..], ms[1..]);
        maskedValue := maskedValue + [cleanValue[valueIndex]];
        valueIndex := valueIndex + 1;
      } else {
        assert Masked(ds, ms) == [ms[0]] + Masked(ds, ms[1..]);
        assert maskedValue + ([ms[0]] + Masked(ds, ms[1..])) == maskedValue + [ms[0]] + Masked(ds, ms[1..]);
        maskedValue := maskedValue + [mask[i]];
      }
      i := i + 1;
    }
  }

  /** Every literal character of the mask sits at its own position in the output. */
  lemma {:induction false} LiteralsInPlace(digits: string, mask: string)
    ensures var r := Masked(digits, mask);
      forall k :: 0 <= k < |r| && mask[k] != '9' ==> r[k] == mask[k]
  {
    if mask != [] && digits != [] {
      LiteralsInPlace(if mask[0] == '9' then digits[1..] else digits, mask[1..]);
      var r := Masked(digits, mask);
      var rest := Masked(if mask[0] == '9' then digits[1..] else digits, mask[1..]);
      assert r[1..] == rest;
      forall k | 0 <= k < |r| && mask[k] != '9' ensures r[k] == mask[k] {
        if k > 0 {
          assert r[k] == rest[k - 1] && mask[k] == mask[1..][k - 1];
        }
      }
    }
  }

  /** The characters of `r` that sit on the mask's digit slots. */
  function Slots(r: string, mask: string): string
  {
    if r == [] || mask == [] then []
    else (if mask[0] == '9' then [r[0]] else []) + Slots(r[1..], mask[1..])
  }

  /** The digit slots hold exactly the first min(digit count, slot count) digits, in order. */
  lemma {:induction false} SlotsHoldDigits(digits: string, mask: string)
    ensures Slots(Masked(digits, mask), mask) == digits[..Min(|digits|, Nines(mask))]
  {
    if mask != [] && digits != [] {
      SlotsHoldDigits(if mask[0] == '9' then digits[1..] else digits, mask[1..]);
      if mask[0] == '9' {
        assert digits[..Min(|digits|, Nines(mask))] == [digits[0]] + digits[1..][..Min(|digits| - 1, Nines(mask[1..]))];
      }
    }
  }

  /** With digits left to place, the output ends right after a digit slot. */
  lemma {:induction false} StopsAfterLastDigit(digits: string, mask: string)
    requires 0 < |digits| <= Nines(mask)
    ensures var r := Masked(digits, mask); r != [] && mask[|r| - 1] == '9'
  {
    if mask[0] == '9' {
      if |digits| > 1 {
        StopsAfterLastDigit(digits[1..], mask[1..]);
      }
    } else {
      StopsAfterLastDigit(digits, mask[1..]);
    }
  }

  /** Every literal of the mask is a non-digit. */
  predicate LiteralsNonDigit(mask: string)
  {
    mask == [] || ((mask[0] == '9' || !IsDigit(mask[0])) && LiteralsNonDigit(mask[1..]))
  }

  predicate EndsWithSlot(mask: string)
  {
    mask != [] && mask[|mask| - 1] == '9'
  }

  /** With non-digit literals, the digits of the output are exactly the placed digits. */
  lemma {:induction false} DigitsOfMasked(digits: string, mask: string)
    requires AllDigits(digits) && LiteralsNonDigit(mask)
    ensures OnlyDigits(Masked(digits, mask)) == digits[..Min(|digits|, Nines(mask))]
  {
    if mask != [] && digits != [] {
      if mask[0] == '9' {
        DigitsOfMasked(digits[1..], mask[1..]);
        OnlyDigitsAppend([digits[0]], Masked(digits[1..], mask[1..]));
        assert digits[..Min(|digits|, Nines(mask))] == [digits[0]] + digits[1..][..Min(|digits| - 1, Nines(mask[1..]))];
      } else {
        DigitsOfMasked(digits, mask[1..]);
        OnlyDigitsAppend([mask[0]], Masked(digits, mask[1..]));
      }
    }
  }

  /** A leading slot adds one to the number of digits placed. */
  lemma MinStep(digits: string, mask: string)
    requires digits != [] && mask != [] && mask[0] == '9'
    ensures Min(|digits|, Nines(mask)) == Min(|digits[1..]|, Nines(mask[1..])) + 1
  {
    assert Nines(mask) == 1 + Nines(mask[1..]);
  }

  /** A leading slot takes the first digit. */
  lemma HeadStep(t: string, mask: string)
    requires t != [] && mask != [] && mask[0] == '9'
    ensures Masked(t, mask) == [t[0]] + Masked(t[1..], mask[1..])
  {
  }

  /** Dropping the head of a prefix is taking a prefix of the tail. */
  lemma TailOfPrefix(s: string, m: nat)
    requires m < |s|
    ensures s[..m + 1][1..] == s[1..][..m]
  {
  }

  /** A leading slot consumes the first digit, both from the cut digits and from all of them. */
  lemma SlotStep(digits: string, mask: string)
    requires digits != [] && mask != [] && mask[0] == '9'
    requires Masked(digits[1..][..Min(|digits| - 1, Nines(mask[1..]))], mask[1..]) == Masked(digits[1..], mask[1..])
    ensures Masked(digits[..Min(|digits|, Nines(mask))], mask) == Masked(digits, mask)
  {
    var rest, mrest := digits[1..], mask[1..];
    var m := Min(|rest|, Nines(mrest));
    MinStep(digits, mask);
    var t := digits[..m + 1];
    TailOfPrefix(digits, m);
    HeadStep(t, mask);
    HeadStep(digits, mask);
  }

  /** A leading literal is copied whatever the digits, as long as some slot follows. */
  lemma LiteralStep(digits: string, mask: string)
    requires digits != [] && mask != [] && mask[0] != '9' && Nines(mask[1..]) > 0
    requires Masked(digits[..Min(|digits|, Nines(mask[1..]))], mask[1..]) == Masked(digits, mask[1..])
    ensures Masked(digits[..Min(|digits|, Nines(mask))], mask) == Masked(digits, mask)
  {
    var t := digits[..Min(|digits|, Nines(mask))];
    assert Nines(mask) == Nines(mask[1..]);
    assert t != [];
    assert Masked(t, mask) == [mask[0]] + Masked(t, mask[1..]);
    assert Masked(digits, mask) == [mask[0]] + Masked(digits, mask[1..]);
  }

  /** A mask ending in a slot only ever reads the digits it has slots for. */
  lemma {:induction false} MaskedOnlyReadsSlots(digits: string, mask: string)
    requires EndsWithSlot(mask)
    ensures Masked(digits[..Min(|digits|, Nines(mask))], mask) == Masked(digits, mask)
  {
    if digits != [] {
      if mask[0] == '9' {
        if |mask| > 1 {
          MaskedOnlyReadsSlots(digits[1..], mask[1..]);
        }
        SlotStep(digits, mask);
      } else {
        assert |mask| > 1 && EndsWithSlot(mask[1..]);
        MaskedOnlyReadsSlots(digits, mask[1..]);
        assert Nines(mask[1..]) > 0;
        LiteralStep(digits, mask);
      }
    }
  }

  /** Masking an already masked value changes nothing, for masks like the three in use. */
  lemma MaskIdempotent(value: string, mask: string)
    requires LiteralsNonDigit(mask) && EndsWithSlot(mask)
    ensures MaskValue(MaskValue(value, mask), mask) == MaskValue(value, mask)
  {
    var d := OnlyDigits(value);
    DigitsOfMasked(d, mask);
    MaskedOnlyReadsSlots(d, mask);
  }

  lemma CnpjMaskSuffix6()
    ensures Nines("999-99") == 5 && LiteralsNonDigit("999-99")
  {
    assert Nines("9") == 1 && LiteralsNonDigit("9");
    assert Nines("99") == 2 && LiteralsNonDigit("99");
    assert Nines("-99") == 2 && LiteralsNonDigit("-99");
    assert Nines("9-99") == 3 && LiteralsNonDigit("9-99");
    assert Nines("99-99") == 4 && LiteralsNonDigit("99-99");
  }

  lemma CnpjMaskSuffix12()
    ensures Nines(".999/9999-99") == 9 && LiteralsNonDigit(".999/9999-99")
  {
    CnpjMaskSuffix6();
    assert Nines("9999-99") == 6 && LiteralsNonDigit("9999-99");
    assert Nines("/9999-99") == 6 && LiteralsNonDigit("/9999-99");
    assert Nines("9/9999-99") == 7 && LiteralsNonDigit("9/9999-99");
    assert Nines("99/9999-99") == 8 && LiteralsNonDigit("99/9999-99");
    assert Nines("999/9999-99") == 9 && LiteralsNonDigit("999/9999-99");
  }

  lemma CnpjMaskSuffix15()
    ensures Nines("999.999/9999-99") == 12 && LiteralsNonDigit("999.999/9999-99")
  {
    CnpjMaskSuffix12();
    assert Nines("9.999/9999-99") == 10 && LiteralsNonDigit("9.999/9999-99");
    assert Nines("99.999/9999-99") == 11 && LiteralsNonDigit("99.999/9999-99");
  }

  /** The mask has 14 digit slots, only non-digit literals, and ends with a slot. */
  lemma CnpjMaskFacts()
    ensures Nines(CnpjMask) == 14 && LiteralsNonDigit(CnpjMask) && EndsWithSlot(CnpjMask)
  {
    CnpjMaskSuffix15();
    assert Nines(".999.999/9999-99") == 12 && LiteralsNonDigit(".999.999/9999-99");
    assert Nines("9.999.999/9999-99") == 13 && LiteralsNonDigit("9.999.999/9999-99");
  }

  lemma CepMaskSuffix6()
    ensures Nines("99-999") == 5 && LiteralsNonDigit("99-999")
  {
    assert Nines("9") == 1 && LiteralsNonDigit("9");
    assert Nines("99") == 2 && LiteralsNonDigit("99");
    assert Nines("999") == 3 && LiteralsNonDigit("999");
    assert Nines("-999") == 3 && LiteralsNonDigit("-999");
    assert Nines("9-999") == 4 && LiteralsNonDigit("9-999");
  }

  /** The mask has 8 digit slots, only non-digit literals, and ends with a slot. */
  lemma CepMaskFacts()
    ensures Nines(CepMask) == 8 && LiteralsNonDigit(CepMask) && EndsWithSlot(CepMask)
  {
    CepMaskSuffix6();
    assert Nines("999-999") == 6 && LiteralsNonDigit("999-999");
    assert Nines("9999-999") == 7 && LiteralsNonDigit("9999-999");
  }

  lemma PhoneMaskSuffix6()
    ensures Nines("9-9999") == 5 && LiteralsNonDigit("9-9999")
  {
    assert Nines("9") == 1 && LiteralsNonDigit("9");
    assert Nines("99") == 2 && LiteralsNonDigit("99");
    assert Nines("999") == 3 && LiteralsNonDigit("999");
    assert Nines("9999") == 4 && LiteralsNonDigit("9999");
    assert Nines("-9999") == 4 && LiteralsNonDigit("-9999");
  }

  lemma PhoneMaskSuffix12()
    ensures Nines(") 99999-9999") == 9 && LiteralsNonDigit(") 99999-9999")
  {
    PhoneMaskSuffix6();
    assert Nines("99-9999") == 6 && LiteralsNonDigit("99-9999");
    assert Nines("999-9999") == 7 && LiteralsNonDigit("999-9999");
    assert Nines("9999-9999") == 8 && LiteralsNonDigit("9999-9999");
    assert Nines("99999-9999") == 9 && LiteralsNonDigit("99999-9999");
    assert Nines(" 99999-9999") == 9 && LiteralsNonDigit(" 99999-9999");
  }

  /** The mask has 11 digit slots, only non-digit literals, and ends with a slot. */
  lemma PhoneMaskFacts()
    ensures Nines(PhoneMask) == 11 && LiteralsNonDigit(PhoneMask) && EndsWithSlot(PhoneMask)
  {
    PhoneMaskSuffix12();
    assert Nines("9) 99999-9999") == 10 && LiteralsNonDigit("9) 99999-9999");
    assert Nines("99) 99999-9999") == 11 && LiteralsNonDigit("99) 99999-9999");
  }

  /** The CNPJ, CEP and phone masks all qualify for idempotence. */
  lemma MasksInUseAreIdempotent(value: string)
    ensures MaskValue(MaskValue(value, CnpjMask), CnpjMask) == MaskValue(value, CnpjMask)
    ensures MaskValue(MaskValue(value, CepMask), CepMask) == MaskValue(value, CepMask)
    ensures MaskValue(MaskValue(value, PhoneMask), PhoneMask) == MaskValue(value, PhoneMask)
  {
    CnpjMaskFacts();
    CepMaskFacts();
    PhoneMaskFacts();
    MaskIdempotent(value, CnpjMask);
    MaskIdempotent(value, CepMask);
    MaskIdempotent(value, PhoneMask);
  }

  // ---------------------------------------------------------------------
  // Look-up triggers

  /** The CEP effect (and `fetchCep`) only proceed with exactly 8 digits. */
  predicate CepLookupFires(cep: string)
  {
    |OnlyDigits(cep)| == 8
  }

  /** The CNPJ effect only proceeds with exactly 14 digits. */
  predicate CnpjLookupFires(cnpj: string)
  {
    |OnlyDigits(cnpj)| == 14
  }

  /** `fetchCep`: the digits it would query, or None (no request) unless there are exactly 8. */
  function FetchCepQuery(cep: string): (q: Option<string>)
    ensures q.Some? <==> CepLookupFires(cep)
    ensures q.Some? ==> |q.value| == 8 && AllDigits(q.value)
  {
    var clean := OnlyDigits(cep);
    if |clean| != 8 then None else Some(clean)
  }

  /** Through the CEP field's mask, the look-up fires exactly when at least 8 digits were typed. */
  lemma CepFieldFiresAtEightDigits(typed: string)
    ensures CepLookupFires(MaskValue(typed, CepMask)) <==> |OnlyDigits(typed)| >= 8
  {
    CepMaskFacts();
    DigitsOfMasked(OnlyDigits(typed), CepMask);
  }

  /** Through the CNPJ field's mask, the look-up fires exactly when at least 14 digits were typed. */
  lemma CnpjFieldFiresAtFourteenDigits(typed: string)
    ensures CnpjLookupFires(MaskValue(typed, CnpjMask)) <==> |OnlyDigits(typed)| >= 14
  {
    CnpjMaskFacts();
    DigitsOfMasked(OnlyDigits(typed), CnpjMask);
  }

  // ---------------------------------------------------------------------
  // Form state

  /** `formData`: the top-level text fields and the nested address. */
  datatype FormData = FormData(fields: map<string, string>, address: map<string, string>)

  /** The text up to the first '.': `split('.')[1]` once the "address." prefix is removed. */
  function UpToDot(s: string): (r: string)
    ensures |r| <= |s| && '.' !in r
  {
    if s == [] || s[0] == '.' then [] else [s[0]] + UpToDot(s[1..])
  }

  /** `handleInputChange`: "address.x" replaces only address x; any other name replaces only that field. */
  function HandleInputChange(form: FormData, field: string, value: string): (r: FormData)
    ensures IsPrefix("address.", field) ==>
      var key := UpToDot(field[8..]);
      r.fields == form.fields && key in r.address && r.address[key] == value &&
      forall k :: k != key ==> (k in r.address <==> k in form.address) && (k in form.address ==> r.address[k] == form.address[k])
    ensures !IsPrefix("address.", field) ==>
      r.address == form.address && field in r.fields && r.fields[field] == value &&
      forall k :: k != field ==> (k in r.fields <==> k in form.fields) && (k in form.fields ==> r.fields[k] == form.fields[k])
  {
    if IsPrefix("address.", field) then
      form.(address := form.address[UpToDot(field[8..]) := value])
    else
      form.(fields := form.fields[field := value])
  }

  const InitialFields: map<string, string> := map[
    "cnpj" := "", "fantasy_name" := "", "social_reason" := "", "opening_date" := "", "cnae" := "",
    "email" := "", "phone" := "", "state_registration" := "", "municipal_registration" := "", "tax_regime" := ""]

  const InitialAddress: map<string, string> := map[
    "cep" := "", "street" := "", "number" := "", "complement" := "", "neighborhood" := "", "city" := "", "state" := ""]

  const DefaultSubmitError := "Erro ao cadastrar empresa. Tente novamente."
  const SubmitSuccess := "Empresa cadastrada com sucesso!"

  /** The outcome of `companyService.create`: success, or failure with the response body if any. */
  datatype SubmitResult = Created | Failed(body: Option<ErrorBody.Body>)

  class CompanyRegisterPage {
    var formData: FormData
    var isLoading: bool
    var toast: Option<Toast>

    constructor ()
      ensures formData == FormData(InitialFields, InitialAddress) && !isLoading && toast == None
    {
      formData := FormData(InitialFields, InitialAddress);
      isLoading := false;
      toast := None;
    }

    method InputChange(field: string, value: string)
      modifies this`formData
      ensures formData == HandleInputChange(old(formData), field, value)
    {
      formData := HandleInputChange(formData, field, value);
    }

    /** Typing in the CNPJ field: mask, store, and whether the CNPJ look-up effect fires. */
    method TypeCnpj(typed: string) returns (lookup: bool)
      modifies this`formData
      ensures formData == HandleInputChange(old(formData), "cnpj", MaskValue(typed, CnpjMask))
      ensures lookup <==> ("cnpj" !in old(formData.fields) || old(formData.fields)["cnpj"] != MaskValue(typed, CnpjMask))
                          && CnpjLookupFires(MaskValue(typed, CnpjMask))
    {
      var masked := ApplyMask(typed, CnpjMask);
      var changed := "cnpj" !in formData.fields || formData.fields["cnpj"] != masked;
      formData := HandleInputChange(formData, "cnpj", masked);
      lookup := changed && |OnlyDigits(masked)| == 14;
    }

    /** Typing in the CEP field: mask, store, and whether the CEP look-up effect fires. */
    method TypeCep(typed: string) returns (lookup: bool)
      modifies this`formData
      ensures formData == HandleInputChange(old(formData), "address.cep", MaskValue(typed, CepMask))
      ensures lookup <==> ("cep" !in old(formData.address) || old(formData.address)["cep"] != MaskValue(typed, CepMask))
                          && CepLookupFires(MaskValue(typed, CepMask))
    {
      var masked := ApplyMask(typed, CepMask);
      var changed := "cep" !in formData.address || formData.address["cep"] != masked;
      formData := HandleInputChange(formData, "address.cep", masked);
      lookup := changed && |OnlyDigits(masked)| == 8;
    }

    /** `handleSubmit` once the request has settled. */
    method Submitted(result: SubmitResult)
      modifies this`toast, this`isLoading
      ensures !isLoading
      ensures result.Created? ==> toast == Some(Toast(SubmitSuccess, SuccessToast))
      ensures result.Failed? ==> toast == Some(Toast(ErrorBody.ErrorMessage(result.body, DefaultSubmitError), ErrorToast))
    {
      if result.Created? {
        toast := Some(Toast(SubmitSuccess, SuccessToast));
      } else {
        var message := ErrorBody.ErrorMessage(result.body, DefaultSubmitError);
        toast := Some(Toast(message, ErrorToast));
      }
      isLoading := false;
    }
  }
}
