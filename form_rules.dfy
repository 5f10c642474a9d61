/**
 * The rule both forms apply to a free-text field: it is required (blank after
 * trimming counts as missing), has a minimum length measured after trimming and a
 * maximum length measured as typed, and gets only the first message it earns.
 */
module FieldRules {
  import opened Wrappers
  import opened Text

  /** The three messages of one free-text field: required, too short, too long. */
  datatype TextMessages<M> = TextMessages(required: M, tooShort: M, tooLong: M)

  /** The one error a free-text field gets: required, then minimum (trimmed), then maximum (raw). */
  function TextFieldError<M>(value: string, min: nat, max: nat, m: TextMessages<M>): Option<M>
  {
    var trimmed := Trim(value);
    if trimmed == "" then Some(m.required)
    else if |trimmed| < min then Some(m.tooShort)
    else if |value| > max then Some(m.tooLong)
    else None
  }

  /** A free-text field is acceptable: not blank, long enough once trimmed, short enough as typed. */
  predicate TextAccepted(value: string, min: nat, max: nat)
  {
    !AllWhitespace(value) && |Trim(value)| >= min && |value| <= max
  }

  /**
   * A text field has no error exactly when it is acceptable; otherwise the error is the
   * first rule it breaks.
   */
  lemma TextFieldErrorRules<M>(value: string, min: nat, max: nat, m: TextMessages<M>)
    ensures TextFieldError(value, min, max, m) == None <==> TextAccepted(value, min, max)
    ensures AllWhitespace(value) ==> TextFieldError(value, min, max, m) == Some(m.required)
    ensures !AllWhitespace(value) && |Trim(value)| < min ==> TextFieldError(value, min, max, m) == Some(m.tooShort)
    ensures !AllWhitespace(value) && |Trim(value)| >= min && |value| > max ==>
      TextFieldError(value, min, max, m) == Some(m.tooLong)
  {
    TrimEmptyIff(value);
  }
}
