/**
 * How the company-register and DRE pages turn a failed request's response
 * body (as Django REST Framework returns it) into a toast message.
 */
module ErrorBody {
  import opened Common

  /** A field's value in an object body: an array (joined) or anything else (`String(v)`). */
  datatype FieldValue = ListValue(items: seq<string>) | ScalarValue(text: string)

  /** `error.response.data`: a string, an object's entries in order, or some other value. */
  datatype Body = TextBody(text: string) | ObjectBody(entries: seq<(string, FieldValue)>) | OtherBody

  function FieldText(v: FieldValue): string
  {
    match v
    case ListValue(items) => Join(items, ", ")
    case ScalarValue(t) => t
  }

  function EntryTexts(entries: seq<(string, FieldValue)>): (r: seq<string>)
    ensures |r| == |entries|
    ensures forall i :: 0 <= i < |entries| ==> r[i] == entries[i].0 + ": " + FieldText(entries[i].1)
  {
    if entries == [] then [] else [entries[0].0 + ": " + FieldText(entries[0].1)] + EntryTexts(entries[1..])
  }

  /**
   * The message shown: a non-empty string body verbatim, an object body as
   * "key: v1, v2" items joined by " | ", and the default otherwise.
   */
  function ErrorMessage(body: Option<Body>, defaultMessage: string): (m: string)
    ensures body.None? ==> m == defaultMessage
    ensures body == Some(OtherBody) ==> m == defaultMessage
    ensures body.Some? && body.value.TextBody? ==>
      m == (if body.value.text == "" then defaultMessage else body.value.text)
  {
    match body
    case None => defaultMessage
    case Some(TextBody(t)) => if t != "" then t else defaultMessage
    case Some(ObjectBody(entries)) => Join(EntryTexts(entries), " | ")
    case Some(OtherBody) => defaultMessage
  }

  /** A one-field object body reads "field: first, second". */
  lemma SingleFieldMessage(field: string, values: seq<string>, defaultMessage: string)
    ensures ErrorMessage(Some(ObjectBody([(field, ListValue(values))])), defaultMessage) == field + ": " + Join(values, ", ")
  {
  }

  /** An object body's message starts with its first field name and ": ", and never falls back to the default. */
  lemma {:induction false} ObjectMessageStartsWithFirstField(entries: seq<(string, FieldValue)>, defaultMessage: string)
    requires |entries| > 0
    ensures IsPrefix(entries[0].0 + ": ", ErrorMessage(Some(ObjectBody(entries)), defaultMessage))
  {
    var texts := EntryTexts(entries);
    var first := entries[0].0 + ": " + FieldText(entries[0].1);
    assert texts[0] == first;
    var m := Join(texts, " | ");
    if |texts| == 1 {
      assert m == first;
    } else {
      assert m == first + " | " + Join(texts[1..], " | ");
    }
    assert m[..|entries[0].0 + ": "|] == entries[0].0 + ": ";
  }

  /** Two fields are separated by " | ". */
  lemma TwoFieldMessage(k1: string, v1: FieldValue, k2: string, v2: FieldValue, defaultMessage: string)
    ensures ErrorMessage(Some(ObjectBody([(k1, v1), (k2, v2)])), defaultMessage) ==
      k1 + ": " + FieldText(v1) + " | " + k2 + ": " + FieldText(v2)
  {
    var texts := EntryTexts([(k1, v1), (k2, v2)]);
    assert texts[1..] == [k2 + ": " + FieldText(v2)];
    assert Join(texts[1..], " | ") == texts[1];
    assert Join(texts, " | ") == texts[0] + " | " + texts[1];
  }
}
