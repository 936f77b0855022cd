/**
  The notices shown when the browser reports card-field errors
  (`validation_errors`): each reported error becomes one error notice whose
  text names the field and the kind of problem.
 */
module Validation {

  /** One entry of the posted `errors` list. */
  datatype FieldError = FieldError(field: string, kind: string)

  /** A notice queued with `wc_add_notice(message, kind)`. */
  datatype Notice = Notice(message: string, kind: string)

  predicate KnownField(field: string) {
    field == "number" || field == "expiration" || field == "cvc"
  }

  predicate KnownKind(kind: string) {
    kind == "undefined" || kind == "invalid"
  }

  /** The label of a field; a field outside the table has an empty label. */
  function FieldLabel(field: string): (name: string)
    ensures name != "" <==> KnownField(field)
  {
    match field
    case "number" => "Credit Card Number"
    case "expiration" => "Credit Card Expiration"
    case "cvc" => "Credit Card CVC"
    case _ => ""
  }

  /** The label of a field in bold. */
  function Strong(text: string): string {
    "<strong>" + text + "</strong>"
  }

  /** The message for one error: a missing field "is a required field", an
      invalid one is prefixed with "Please enter a valid", any other kind
      leaves the bold label alone; every message ends with a full stop. */
  function ErrorMessage(e: FieldError): (message: string)
    ensures |message| > 0 && message[|message| - 1] == '.'
  {
    var bold := Strong(FieldLabel(e.field));
    var sentence :=
      if e.kind == "undefined" then bold + " is a required field"
      else if e.kind == "invalid" then "Please enter a valid " + bold
      else bold;
    sentence + "."
  }

  /** Two known errors get the same message only when they are the same
      error: the message tells the shopper which field and which problem. */
  lemma ErrorMessageIdentifiesError(e1: FieldError, e2: FieldError)
    requires KnownField(e1.field) && KnownKind(e1.kind)
    requires KnownField(e2.field) && KnownKind(e2.kind)
    requires ErrorMessage(e1) == ErrorMessage(e2)
    ensures e1 == e2
  {
  }

  /** The two kinds of message, for any field. */
  lemma MessageShapes(field: string)
    ensures ErrorMessage(FieldError(field, "undefined"))
            == Strong(FieldLabel(field)) + " is a required field."
    ensures ErrorMessage(FieldError(field, "invalid"))
            == "Please enter a valid " + Strong(FieldLabel(field)) + "."
  {
    var bold := Strong(FieldLabel(field));
    assert bold + " is a required field" + "." == bold + " is a required field.";
  }

  /** The messages for a missing and for an invalid card number, in full. */
  lemma CardNumberMessages()
    ensures ErrorMessage(FieldError("number", "undefined"))
            == "<strong>Credit Card Number</strong> is a required field."
    ensures ErrorMessage(FieldError("number", "invalid"))
            == "Please enter a valid <strong>Credit Card Number</strong>."
  {
    MessageShapes("number");
    assert Strong(FieldLabel("number")) == "<strong>Credit Card Number</strong>" by {
      assert FieldLabel("number") == "Credit Card Number";
    }
    LiteralMessages();
  }

  lemma LiteralMessages()
    ensures "<strong>Credit Card Number</strong>" + " is a required field."
            == "<strong>Credit Card Number</strong> is a required field."
    ensures "Please enter a valid " + "<strong>Credit Card Number</strong>" + "."
            == "Please enter a valid <strong>Credit Card Number</strong>."
  {
  }

  /** Any field outside the table gets an empty bold label, whatever the
      kind of error. */
  lemma UnknownFieldMessage(field: string)
    requires !KnownField(field)
    ensures ErrorMessage(FieldError(field, "undefined")) == "<strong></strong> is a required field."
    ensures ErrorMessage(FieldError(field, "invalid")) == "Please enter a valid <strong></strong>."
  {
  }

  /** `validation_errors`: one error notice per reported error, in the order
      the errors were posted, after the notices already queued. */
  method ValidationErrors(queued: seq<Notice>, errors: seq<FieldError>) returns (notices: seq<Notice>)
    ensures |notices| == |queued| + |errors|
    ensures notices[..|queued|] == queued
    ensures forall i :: 0 <= i < |errors| ==>
              notices[|queued| + i] == Notice(ErrorMessage(errors[i]), "error")
  {
    notices := queued;
    for i := 0 to |errors|
      invariant |notices| == |queued| + i
      invariant notices[..|queued|] == queued
      invariant forall j :: 0 <= j < i ==>
                  notices[|queued| + j] == Notice(ErrorMessage(errors[j]), "error")
    {
      var message := ErrorMessage(errors[i]);
      notices := notices + [Notice(message, "error")];
    }
  }
}
