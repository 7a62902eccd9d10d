/**
 * The payment request that an accepted form produces, and the `upi://pay`
 * URI it is sent as. The URI is kept as its parts (scheme, authority and
 * the ordered query parameters) rather than as a percent-encoded string.
 */
module UpiRequest {
  import opened Wrappers
  import opened KotlinStrings
  import opened KotlinInts

  const MerchantUpiId := "merchant@upi"
  const MerchantName := "Merchant Name"
  const DefaultNote := "UPI Payment"
  const Currency := "INR"
  const UpiScheme := "upi"
  const PayAuthority := "pay"
  /** The request code the chooser is started with and the result is matched on. */
  const PaymentRequestCode := 101

  datatype PaymentRequest = PaymentRequest(
    payeeAddress: string,
    payeeName: string,
    note: string,
    amount: int,
    currency: string)

  datatype UpiUri = UpiUri(scheme: string, authority: string, query: seq<(string, string)>)

  /** The note sent with the payment: the trimmed description, or the
      default note when that is empty. Never empty, and already trimmed. */
  function NoteFor(description: string): (note: string)
    ensures |note| > 0 && Trim(note) == note
    ensures |Trim(description)| > 0 ==> note == Trim(description)
    ensures |Trim(description)| == 0 ==> note == DefaultNote
  {
    var d := Trim(description);
    if |d| == 0 then
      TrimOfTrimmed(DefaultNote);
      DefaultNote
    else
      TrimIdempotent(description);
      d
  }

  /** The request for a description and a parsed amount, with the fixed
      payee identity and currency. */
  function NewPaymentRequest(description: string, amount: int): (p: PaymentRequest)
    ensures p.payeeAddress == MerchantUpiId && p.payeeName == MerchantName
    ensures p.note == NoteFor(description) && p.amount == amount && p.currency == Currency
  {
    PaymentRequest(MerchantUpiId, MerchantName, NoteFor(description), amount, Currency)
  }

  /** The value of the first parameter named `key`, as a URI reader such as
      `Uri.getQueryParameter` finds it. */
  function Lookup(query: seq<(string, string)>, key: string): Option<string> {
    if |query| == 0 then None
    else if query[0].0 == key then Some(query[0].1)
    else Lookup(query[1..], key)
  }

  /** No key appears twice in the query. */
  predicate DistinctKeys(query: seq<(string, string)>) {
    forall i, j :: 0 <= i < j < |query| ==> query[i].0 != query[j].0
  }

  /** With distinct keys, looking a key up finds the parameter that has it. */
  lemma {:induction false} LookupDistinctKeys(query: seq<(string, string)>, i: nat)
    requires DistinctKeys(query) && i < |query|
    ensures Lookup(query, query[i].0) == Some(query[i].1)
  {
    if i > 0 {
      assert query[1..][i - 1] == query[i];
      LookupDistinctKeys(query[1..], i - 1);
    }
  }

  /** The `upi://pay` URI of a request: the parameters pa, pn, tn, am and
      cu in that order, the amount written as `Int.toString` writes it. */
  function ToUri(p: PaymentRequest): (u: UpiUri)
    ensures u.scheme == UpiScheme && u.authority == PayAuthority
    ensures |u.query| == 5
    ensures u.query[0].0 == "pa" && u.query[1].0 == "pn" && u.query[2].0 == "tn"
    ensures u.query[3] == ("am", IntToDecimal(p.amount)) && u.query[4].0 == "cu"
  {
    var query := [
      ("pa", p.payeeAddress),
      ("pn", p.payeeName),
      ("tn", p.note),
      ("am", IntToDecimal(p.amount)),
      ("cu", p.currency)];
    UpiUri(UpiScheme, PayAuthority, query)
  }

  /** The URI built for a description and an amount: the fixed payee
      address and name, the defaulted note, the printed amount and INR, as
      the parameters pa, pn, tn, am, cu in that order. */
  lemma RequestShape(description: string, amount: int)
    ensures ToUri(NewPaymentRequest(description, amount)) == UpiUri("upi", "pay", [
      ("pa", "merchant@upi"), ("pn", "Merchant Name"), ("tn", NoteFor(description)),
      ("am", IntToDecimal(amount)), ("cu", "INR")])
  {
  }

  /** How a payment application reads a `upi://pay` URI back: by parameter
      name, with the amount parsed as an `Int`. */
  function FromUri(u: UpiUri): Option<PaymentRequest> {
    if u.scheme != UpiScheme || u.authority != PayAuthority then None
    else
      var pa := Lookup(u.query, "pa");
      var pn := Lookup(u.query, "pn");
      var tn := Lookup(u.query, "tn");
      var am := Lookup(u.query, "am");
      var cu := Lookup(u.query, "cu");
      if pa.None? || pn.None? || tn.None? || am.None? || cu.None? then None
      else
        var amount := ToIntOrNull(am.value);
        if amount.None? then None
        else Some(PaymentRequest(pa.value, pn.value, tn.value, amount.value, cu.value))
  }

  /** Every request with an `Int` amount is read back unchanged from its URI. */
  lemma UriRoundTrip(p: PaymentRequest)
    requires IsInt(p.amount)
    ensures FromUri(ToUri(p)) == Some(p)
  {
    var q := ToUri(p).query;
    assert q[0].0 == "pa" && q[1].0 == "pn" && q[2].0 == "tn" && q[3].0 == "am" && q[4].0 == "cu";
    assert DistinctKeys(q);
    LookupDistinctKeys(q, 0);
    LookupDistinctKeys(q, 1);
    LookupDistinctKeys(q, 2);
    LookupDistinctKeys(q, 3);
    LookupDistinctKeys(q, 4);
    DecimalRoundTrip(p.amount);
  }

  /** The example request: empty description, amount 100. */
  lemma ExampleUri()
    ensures ToUri(NewPaymentRequest("", 100)) == UpiUri("upi", "pay", [
      ("pa", "merchant@upi"), ("pn", "Merchant Name"), ("tn", "UPI Payment"),
      ("am", "100"), ("cu", "INR")])
  {
    assert NoteFor("") == DefaultNote;
    assert NatToDecimal(1) == "1" && NatToDecimal(10) == "10" && NatToDecimal(100) == "100";
  }
}
