/**
 * The customer-service screen: the check a complaint passes before the
 * user is asked to confirm it, and the quick complaint texts.
 */
module CustomerService {
  import opened Text

  const EmptyMessage := "Please enter your complaint."
  const ShortMessage := "Complaint must be at least 10 characters."
  const MinLength := 10

  // Two of the texts are written as two literals so that their first
  // character is visible to the verifier without unfolding the whole string.
  const PerformanceText := "I'm facing " + "an issue with the app performance."
  const PaymentText := "I'm having trouble with the payment process."
  const DeliveryText := "My delivery " + "has been delayed beyond the expected date."

  /** What "Submit" leads to: an error, or the confirmation dialog for the
      complaint it would send. */
  datatype Verdict = ShowError(message: string) | Confirm(complaint: string)

  /** `validateAndSubmitComplaint`: the text is judged without its
      surrounding whitespace, and that trimmed text is what is confirmed. */
  function ValidateComplaint(text: string): (v: Verdict)
    ensures v.Confirm? <==> |Trim(text)| >= MinLength
    ensures v.Confirm? ==> v.complaint == Trim(text) && !IsBlank(v.complaint)
    ensures IsBlank(text) ==> v == ShowError(EmptyMessage)
    ensures !IsBlank(text) && |Trim(text)| < MinLength ==> v == ShowError(ShortMessage)
  {
    var t := Trim(text);
    if t == [] then ShowError(EmptyMessage)
    else if |t| < MinLength then ShowError(ShortMessage)
    else Confirm(t)
  }

  /** Whitespace around a complaint changes neither the verdict nor the
      text confirmed. */
  lemma PaddingIgnored(pre: string, t: string, post: string)
    requires IsBlank(pre) && IsBlank(post)
    requires t == [] || (!IsSpace(t[0]) && !IsSpace(t[|t| - 1]))
    ensures ValidateComplaint(pre + t + post) == ValidateComplaint(t)
  {
    TrimPadded(pre, t, post);
  }

  /** A text with no surrounding whitespace is confirmed unchanged when long
      enough. */
  lemma {:induction false} ConfirmedUnchanged(t: string)
    requires |t| >= MinLength && !IsSpace(t[0]) && !IsSpace(t[|t| - 1])
    ensures ValidateComplaint(t) == Confirm(t)
  {
    assert "" + t + "" == t;
    TrimSurrounded("", t, "");
  }

  /** Each quick button's text is accepted as it is. */
  lemma PerformanceTextAccepted()
    ensures ValidateComplaint(PerformanceText) == Confirm(PerformanceText)
  {
    var t := PerformanceText;
    assert t[0] == 'I';
    assert t[|t| - 1] == '.';
    ConfirmedUnchanged(t);
  }

  lemma PaymentTextAccepted()
    ensures ValidateComplaint(PaymentText) == Confirm(PaymentText)
  {
    var t := PaymentText;
    assert t[0] == 'I';
    assert t[|t| - 1] == '.';
    ConfirmedUnchanged(t);
  }

  lemma DeliveryTextAccepted()
    ensures ValidateComplaint(DeliveryText) == Confirm(DeliveryText)
  {
    var t := DeliveryText;
    assert t[0] == 'M';
    assert t[|t| - 1] == '.';
    ConfirmedUnchanged(t);
  }
}
