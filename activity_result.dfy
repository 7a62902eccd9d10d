/**
 * What the activity makes of the result a payment application returns
 * (`onActivityResult`), delivered here as a single synchronous call.
 */
module ActivityResult {
  import opened Wrappers
  import opened KotlinStrings
  import UpiRequest

  const SuccessToken := "SUCCESS"
  const SuccessMessage := "Transaction Successful!"
  const FailedMessage := "Transaction Failed or Cancelled."
  const NoResponseMessage := "No response from UPI app."

  /** The returned intent, reduced to its optional "response" string extra. */
  datatype ResultData = ResultData(response: Option<string>)

  datatype PaymentOutcome = Success | FailedOrCancelled | NoResponse

  /** The toast text for an outcome; each outcome has its own text. */
  function OutcomeMessage(o: PaymentOutcome): (m: string)
    ensures m == SuccessMessage <==> o == Success
    ensures m == FailedMessage <==> o == FailedOrCancelled
    ensures m == NoResponseMessage <==> o == NoResponse
  {
    match o
    case Success => SuccessMessage
    case FailedOrCancelled => FailedMessage
    case NoResponse => NoResponseMessage
  }

  /** A result for another request code is ignored; a missing intent means
      no response; otherwise the payment succeeded exactly when the response
      extra is present and contains "SUCCESS" in any letter case. The result
      code plays no part. */
  function Interpret(requestCode: int, resultCode: int, data: Option<ResultData>): (r: Option<PaymentOutcome>)
    ensures r.None? <==> requestCode != UpiRequest.PaymentRequestCode
    ensures r == Some(NoResponse) <==> requestCode == UpiRequest.PaymentRequestCode && data.None?
    ensures r == Some(Success) <==>
      requestCode == UpiRequest.PaymentRequestCode && data.Some? && data.value.response.Some? &&
      exists i :: RegionMatchesAt(data.value.response.value, i, SuccessToken)
  {
    if requestCode != UpiRequest.PaymentRequestCode then None
    else if data.None? then Some(NoResponse)
    else
      var response := data.value.response;
      if response.Some? && ContainsIgnoringCase(response.value, SuccessToken) then Some(Success)
      else Some(FailedOrCancelled)
  }

  /** The toast shown for a result, if any. */
  function ResultToast(requestCode: int, resultCode: int, data: Option<ResultData>): (m: Option<string>)
    ensures m.None? <==> requestCode != UpiRequest.PaymentRequestCode
    ensures m.Some? ==> m.value in {SuccessMessage, FailedMessage, NoResponseMessage}
    ensures m == Some(SuccessMessage) <==> Interpret(requestCode, resultCode, data) == Some(Success)
    ensures m == Some(FailedMessage) <==> Interpret(requestCode, resultCode, data) == Some(FailedOrCancelled)
    ensures m == Some(NoResponseMessage) <==> Interpret(requestCode, resultCode, data) == Some(NoResponse)
  {
    match Interpret(requestCode, resultCode, data)
    case None => None
    case Some(o) => Some(OutcomeMessage(o))
  }

  /** A response that starts with the token, in any case, is a success. */
  lemma PrefixedResponseSucceeds(response: string, resultCode: int)
    requires |response| >= |SuccessToken|
    requires forall k :: 0 <= k < |SuccessToken| ==> AsciiUpper(response[k]) == SuccessToken[k]
    ensures Interpret(UpiRequest.PaymentRequestCode, resultCode, Some(ResultData(Some(response)))) == Some(Success)
  {
  }

  /** A missing response extra reads as failed or cancelled. */
  lemma MissingResponseFails(resultCode: int)
    ensures Interpret(UpiRequest.PaymentRequestCode, resultCode, Some(ResultData(None))) == Some(FailedOrCancelled)
  {
  }

  /** The token found in the middle of a lower-case response. */
  lemma LowerCaseSuccess()
    ensures Interpret(UpiRequest.PaymentRequestCode, 0, Some(ResultData(Some("txn=1;status=success")))) == Some(Success)
  {
    assert RegionMatchesAt("txn=1;status=success", 13, SuccessToken);
  }

  /** A text in which no possible starting position holds the token's
      first letter, in either case, does not contain the token. */
  lemma NoStartNoMatch(text: string)
    requires forall j :: 0 <= j <= |text| - |SuccessToken| ==> text[j] != 's' && text[j] != 'S'
    ensures !exists i :: RegionMatchesAt(text, i, SuccessToken)
  {
    forall i | 0 <= i <= |text| - |SuccessToken| ensures !RegionMatchesAt(text, i, SuccessToken) {
      assert !EqualsIgnoringCase(text[i + 0], SuccessToken[0]);
    }
  }

  /** A response without the token, such as "cancelled by user", is not a success. */
  lemma CancelledFails()
    ensures Interpret(UpiRequest.PaymentRequestCode, 0, Some(ResultData(Some("cancelled by user")))) == Some(FailedOrCancelled)
  {
    var text := "cancelled by user";
    assert forall j :: 0 <= j <= 10 ==> text[j] in "cancelled b";
    NoStartNoMatch(text);
  }
}
