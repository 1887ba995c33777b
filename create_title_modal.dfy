/**
 * The quick "new title" modal: a form record updated one input at a time,
 * handed to `onSave` on submit and then reset.
 */
module CreateTitleModal {

  /** A form value: a checkbox's state, `Number(value)` (left symbolic), or the raw text. */
  datatype FieldValue = Checked(on: bool) | NumberFrom(text: string) | TextValue(text: string)

  /** The input kinds the handler distinguishes. */
  datatype InputType = Checkbox | NumberInput | OtherInput

  datatype Callback = OnSave(data: map<string, FieldValue>) | OnClose

  /** The initial record: description, amount 0, expiration date, active, not recurrent. */
  function InitialData(): map<string, FieldValue>
  {
    map["description" := TextValue(""), "amount" := NumberFrom("0"), "expiration_date" := TextValue(""),
        "active" := Checked(true), "recorrente" := Checked(false)]
  }

  /** The value an input event stores under its name. */
  function StoredValue(kind: InputType, value: string, checked: bool): (v: FieldValue)
    ensures kind == Checkbox <==> v.Checked?
    ensures v.Checked? ==> v.on == checked
    ensures kind == NumberInput <==> v.NumberFrom?
    ensures !v.Checked? ==> v.text == value
  {
    match kind
    case Checkbox => Checked(checked)
    case NumberInput => NumberFrom(value)
    case OtherInput => TextValue(value)
  }

  class CreateTitleModalView {
    var formData: map<string, FieldValue>

    constructor ()
      ensures formData == InitialData()
    {
      formData := InitialData();
    }

    /** `handleInputChange`: only the field the input names changes. */
    method HandleInputChange(name: string, value: string, kind: InputType, checked: bool)
      modifies this
      ensures formData == old(formData)[name := StoredValue(kind, value, checked)]
      ensures forall k :: k in old(formData) && k != name ==> k in formData && formData[k] == old(formData)[k]
      ensures formData.Keys == old(formData).Keys + {name}
    {
      var stored := if kind == Checkbox then Checked(checked)
                    else if kind == NumberInput then NumberFrom(value)
                    else TextValue(value);
      formData := formData[name := stored];
    }

    /** `handleSubmit`: `onSave` with the current data, then `onClose`, then the reset. */
    method HandleSubmit() returns (calls: seq<Callback>)
      modifies this
      ensures calls == [OnSave(old(formData)), OnClose]
      ensures formData == InitialData()
    {
      calls := [OnSave(formData)];
      calls := calls + [OnClose];
      formData := InitialData();
    }
  }

  /** A change followed by a submit saves the changed value, and the form starts over. */
  method ChangeThenSubmit(m: CreateTitleModalView, name: string, value: string, kind: InputType, checked: bool)
    returns (calls: seq<Callback>)
    modifies m
    ensures |calls| == 2 && calls[0].OnSave? && calls[1] == OnClose
    ensures name in calls[0].data && calls[0].data[name] == StoredValue(kind, value, checked)
    ensures m.formData == InitialData()
  {
    m.HandleInputChange(name, value, kind, checked);
    calls := m.HandleSubmit();
  }
}
