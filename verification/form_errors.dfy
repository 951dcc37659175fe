/**
 * Picking the message shown after a failed form submission
 * (`get_form_error`).  A form's errors are an ordered mapping from field name
 * to that field's validation messages, iterated in field declaration order.
 */
module FormErrors {

  /** One entry of the form's error mapping. */
  datatype FieldErrors = FieldErrors(name: string, messages: seq<string>)

  predicate HasError(f: FieldErrors) {
    |f.messages| > 0
  }

  /** The position of the first field with at least one message, or -1 when no field has one. */
  function FirstErroringField(errors: seq<FieldErrors>): (k: int)
    ensures -1 <= k < |errors|
    ensures k >= 0 ==> HasError(errors[k])
    ensures k >= 0 ==> forall j :: 0 <= j < k ==> !HasError(errors[j])
    ensures k == -1 <==> forall i :: 0 <= i < |errors| ==> !HasError(errors[i])
    decreases |errors|
  {
    if |errors| == 0 then -1
    else if HasError(errors[0]) then 0
    else
      var k := FirstErroringField(errors[1..]);
      if k == -1 then -1 else k + 1
  }

  /**
   * The message to show: the first message of the first field that has one,
   * or the caller's default when no field has any.
   */
  function FormErrorMessage(errors: seq<FieldErrors>, defaultMessage: string): (m: string)
    ensures (forall i :: 0 <= i < |errors| ==> !HasError(errors[i])) ==> m == defaultMessage
    ensures m == defaultMessage ||
      exists i :: 0 <= i < |errors| && HasError(errors[i]) && m == errors[i].messages[0]
    ensures forall k :: 0 <= k < |errors| && HasError(errors[k]) && (forall j :: 0 <= j < k ==> !HasError(errors[j])) ==>
      m == errors[k].messages[0]
  {
    var k := FirstErroringField(errors);
    if k == -1 then defaultMessage else errors[k].messages[0]
  }

  /**
   * The scan as the form code performs it.  The inner loop over a field's
   * messages always stops after its first message, and the outer loop stops
   * as soon as a field has supplied one.
   */
  method GetFormError(errors: seq<FieldErrors>, defaultMessage: string) returns (message: string)
    ensures (forall i :: 0 <= i < |errors| ==> !HasError(errors[i])) ==> message == defaultMessage
    ensures message == defaultMessage ||
      exists i :: 0 <= i < |errors| && HasError(errors[i]) && message == errors[i].messages[0]
    ensures message == FormErrorMessage(errors, defaultMessage)
  {
    message := defaultMessage;
    var found := false;
    var i := 0;
    while i < |errors|
      invariant 0 <= i <= |errors|
      invariant !found && message == defaultMessage
      invariant forall j :: 0 <= j < i ==> !HasError(errors[j])
    {
      var messages := errors[i].messages;
      if |messages| > 0 {
        message := messages[0];
        found := true;
      }
      if found {
        break;
      }
      i := i + 1;
    }
  }

  /** Once a field has supplied the message, fields after it do not affect the result. */
  lemma {:induction false} LaterFieldsIgnored(errors: seq<FieldErrors>, later: seq<FieldErrors>, defaultMessage: string)
    requires FirstErroringField(errors) >= 0
    ensures FormErrorMessage(errors + later, defaultMessage) == FormErrorMessage(errors, defaultMessage)
    decreases |errors|
  {
    if !HasError(errors[0]) {
      assert (errors + later)[1..] == errors[1..] + later;
      LaterFieldsIgnored(errors[1..], later, defaultMessage);
    }
  }

  /**
   * Only whether a field has messages, and its first message, matter: field
   * names and every later message of a list can change without changing the result.
   */
  lemma OnlyFirstMessageMatters(a: seq<FieldErrors>, b: seq<FieldErrors>, defaultMessage: string)
    requires |a| == |b|
    requires forall i :: 0 <= i < |a| ==> (HasError(a[i]) <==> HasError(b[i]))
    requires forall i :: 0 <= i < |a| && HasError(a[i]) && HasError(b[i]) ==> a[i].messages[0] == b[i].messages[0]
    ensures FormErrorMessage(a, defaultMessage) == FormErrorMessage(b, defaultMessage)
  {
  }
}
