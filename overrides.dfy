// The feature-override check shared by module activations and subscription
// plans: an override text is either empty or a JSON object whose keys are
// non-empty and whose values are booleans or nested objects.
//
// Parsing is not modelled: `parsed` is the outcome of `json.loads` on the
// text, `Err` carrying the parser's error text.

module FeatureOverrides {
  import opened Common
  import opened JsonValue
  import SubscriptionContext

  const KEY_MESSAGE: string := "Feature override keys must be non-empty strings."

  function ValueMessage(key: string): string
  {
    "Override for feature " + key + " must be a boolean or nested configuration."
  }

  /** The two messages that differ between the document types. */
  datatype Messages = Messages(invalidJsonPrefix: string, notObject: string)

  /** One acceptable override: a non-empty key with a boolean or nested-object value. */
  predicate ValidOverride(field: (string, Json))
  {
    field.0 != "" && (field.1.JBool? || field.1.JObj?)
  }

  /** The message for one unacceptable override, the key being checked before the value. */
  function FieldMessage(field: (string, Json)): string
  {
    if field.0 == "" then KEY_MESSAGE else ValueMessage(field.0)
  }

  /** The first unacceptable override, in the object's order, raises. */
  function FieldsError(fields: seq<(string, Json)>): (r: Option<string>)
    ensures r.None? <==> forall i :: 0 <= i < |fields| ==> ValidOverride(fields[i])
  {
    if fields == [] then None
    else if !ValidOverride(fields[0]) then Some(FieldMessage(fields[0]))
    else FieldsError(fields[1..])
  }

  /** A refusal names the first unacceptable override. */
  lemma {:induction false} FieldsErrorFirst(fields: seq<(string, Json)>) returns (i: nat)
    requires FieldsError(fields).Some?
    ensures i < |fields| && !ValidOverride(fields[i]) && FieldsError(fields) == Some(FieldMessage(fields[i]))
    ensures forall j :: 0 <= j < i ==> ValidOverride(fields[j])
  {
    if ValidOverride(fields[0]) {
      var k := FieldsErrorFirst(fields[1..]);
      i := k + 1;
    } else {
      i := 0;
    }
  }

  /** `_validate_feature_overrides`: None when the text is acceptable, else the message raised. */
  function Check(text: string, parsed: Result<Json>, m: Messages): (r: Option<string>)
    ensures r.None? <==>
      text == "" || (parsed.Ok? && parsed.value.JObj? && forall i :: 0 <= i < |parsed.value.fields| ==> ValidOverride(parsed.value.fields[i]))
    ensures text != "" && parsed.Err? ==> r == Some(m.invalidJsonPrefix + parsed.error)
    ensures text != "" && parsed.Ok? && !parsed.value.JObj? ==> r == Some(m.notObject)
  {
    if text == "" then None
    else match parsed
      case Err(e) => Some(m.invalidJsonPrefix + e)
      case Ok(j) =>
        if !j.JObj? then Some(m.notObject) else FieldsError(j.fields)
  }

  /**
   * Accepted overrides are what the subscription context reads back: the
   * whole object, every value a boolean or a nested object.
   */
  lemma AcceptedReadBack(text: string, j: Json, m: Messages)
    requires text != "" && Check(text, Ok(j), m).None?
    ensures j.JObj?
    ensures SubscriptionContext.SafeJsonLoad(SubscriptionContext.RawText(text, Some(j))) == j.fields
    ensures forall i :: 0 <= i < |j.fields| ==> j.fields[i].1.JBool? || j.fields[i].1.JObj?
  {
  }
}
