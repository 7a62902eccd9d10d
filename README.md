# UPI payment screen — Dafny model

A model of the one screen of the UPI Handler Android application
(`MainActivity`). The screen collects a payer's name, e-mail, phone,
amount and an optional note; a text-change listener on each of the four
required fields rewrites that field's inline error on every edit; the pay
button re-checks the form and, when it is acceptable, builds a
`upi://pay` deep link (payee `merchant@upi`, name `Merchant Name`, note,
amount, currency `INR`) and starts the system chooser for it under request
code 101; the result handler turns the payment application's `response`
extra into "Transaction Successful!", "Transaction Failed or Cancelled."
or "No response from UPI app.".

Modules, one per concern of the activity:

- `Wrappers` (`wrappers.dfy`): `Option`, for Kotlin's nullable values.
- `KotlinStrings` (`kotlin_strings.dfy`): `String.trim()` and
  `contains(..., ignoreCase = true)` as functions, with lemmas saying what
  trimming removes and keeps, that it is idempotent, and that the
  case-insensitive search agrees with "some offset matches".
- `KotlinInts` (`kotlin_ints.dfy`): `String.toIntOrNull()` (optional sign,
  digits, 32-bit overflow gives null) and `Int.toString()`, with the
  print/parse round trip and the uniqueness of the canonical decimal form.
- `FieldValidation` (`field_validation.dfy`): the four listener checks
  and their exact messages.
- `UpiRequest` (`upi_request.dfy`): the payment request, the URI (scheme,
  authority and ordered query parameters) and a reader for it; a request
  is read back unchanged from its URI.
- `ActivityResult` (`activity_result.dfy`): `onActivityResult` as a
  function from request code, result code and optional returned data to
  an optional outcome.
- `PaymentForm` (`payment_form.dfy`): a class holding the five field texts
  and the four error slots; one method per text-change listener, and the
  pay handler, which reads the state and returns what the screen does.
  `Valid()` is the invariant that every slot agrees with its validator on
  the current text, except for a field never edited (empty text, no
  error), which is why the handler re-checks emptiness.

The query parameters are appended in the fixed order pa, pn, tn, am, cu.
At submission the name, e-mail, phone and amount verdicts are read from
their slots, not re-computed; what is re-checked is that the four required
fields are non-empty after trimming, that the amount is in range and that
the phone has ten characters. The description field has no listener and
no error slot.

## Model

| member | source | states |
|---|---|---|
| KotlinStrings.Trim | app/src/main/java/com/lakshay/upihandler/MainActivity.kt:64-68 | the trimmed text is no longer than the text and neither starts nor ends with whitespace |
| KotlinStrings.TrimStartSpec | app/src/main/java/com/lakshay/upihandler/MainActivity.kt:33 | the leading part removed is all whitespace and the kept suffix does not start with whitespace |
| KotlinStrings.TrimEndSpec | app/src/main/java/com/lakshay/upihandler/MainActivity.kt:33 | the trailing part removed is all whitespace and the kept prefix does not end with whitespace |
| KotlinStrings.TrimIsInfix | app/src/main/java/com/lakshay/upihandler/MainActivity.kt:64-68 | the trimmed text is a contiguous infix of the text, with only whitespace on either side of it |
| KotlinStrings.TrimEmptyIffBlank | app/src/main/java/com/lakshay/upihandler/MainActivity.kt:79 | a field is empty after trimming exactly when it holds nothing but whitespace |
| KotlinStrings.TrimOfTrimmed | app/src/main/java/com/lakshay/upihandler/MainActivity.kt:64-68 | a text with no whitespace at either end is unchanged by trimming |
| KotlinStrings.TrimIdempotent | app/src/main/java/com/lakshay/upihandler/MainActivity.kt:85 | trimming twice is trimming once (the note is already trimmed) |
| KotlinStrings.AsciiUpper | app/src/main/java/com/lakshay/upihandler/MainActivity.kt:123 | lower-case ASCII letters map to their capitals, every other character to itself |
| KotlinStrings.IndexOfIgnoringCase | app/src/main/java/com/lakshay/upihandler/MainActivity.kt:123 | the result is -1 and no offset from `from` on matches, or it is the first matching offset from `from` on |
| KotlinStrings.ContainsIgnoringCase | app/src/main/java/com/lakshay/upihandler/MainActivity.kt:123 | true exactly when the pattern occurs at some offset ignoring ASCII case |
| KotlinInts.DigitValue | app/src/main/java/com/lakshay/upihandler/MainActivity.kt:54 | a decimal digit's value is below ten |
| KotlinInts.DigitChar | app/src/main/java/com/lakshay/upihandler/MainActivity.kt:93 | the digit written for a value below ten is a digit with that value |
| KotlinInts.SignedDigits | app/src/main/java/com/lakshay/upihandler/MainActivity.kt:54 | a value is produced exactly when the text is all digits and its signed value fits in `Int`, and it is that signed value |
| KotlinInts.ToIntOrNull | app/src/main/java/com/lakshay/upihandler/MainActivity.kt:69 | a parsed amount always fits in a 32-bit `Int` and comes from a non-empty text |
| KotlinInts.ToIntOrNullForm | app/src/main/java/com/lakshay/upihandler/MainActivity.kt:54 | for every text: after an optional leading '-' or '+' there is a non-empty run of nothing but digits whose signed value fits in `Int` exactly when the result is non-null, and the result is that signed value |
| KotlinInts.NatToDecimal | app/src/main/java/com/lakshay/upihandler/MainActivity.kt:93 | the printed form is a non-empty digit string with no leading zero whose value is the number |
| KotlinInts.IntToDecimal | app/src/main/java/com/lakshay/upihandler/MainActivity.kt:93 | the printed form is non-empty, starts with '-' exactly for a negative number and is all digits otherwise (never a '+'), and after the sign is a digit string with no leading zero whose signed value is the number |
| KotlinInts.NatToDecimalLength | app/src/main/java/com/lakshay/upihandler/MainActivity.kt:93 | a natural number below 10^k is printed with at most k digits |
| KotlinInts.DecimalRoundTrip | app/src/main/java/com/lakshay/upihandler/MainActivity.kt:82-93 | parsing the printed form of any `Int` gives that `Int` back |
| KotlinInts.LeadingNonZeroPositive | app/src/main/java/com/lakshay/upihandler/MainActivity.kt:93 | a digit string not starting with '0' has a positive value |
| KotlinInts.CanonicalDecimalUnique | app/src/main/java/com/lakshay/upihandler/MainActivity.kt:93 | a digit string without leading zero is exactly the printed form of its value |
| KotlinInts.ValueOfIntMaxPlusOne | app/src/main/java/com/lakshay/upihandler/MainActivity.kt:54 | "2147483648" is worth one more than the largest `Int` |
| KotlinInts.PlusAndLeadingZeros | app/src/main/java/com/lakshay/upihandler/MainActivity.kt:82 | "+0100" parses to 100, which prints as "100" |
| KotlinInts.IntRangeEdges | app/src/main/java/com/lakshay/upihandler/MainActivity.kt:54 | "-2147483648" parses to the smallest `Int`; "2147483648" overflows to null |
| KotlinInts.MalformedNumbers | app/src/main/java/com/lakshay/upihandler/MainActivity.kt:54 | a lone sign, the empty text, an inner blank and a doubled sign all give null |
| FieldValidation.NameError | app/src/main/java/com/lakshay/upihandler/MainActivity.kt:32-35 | no error exactly when the name holds a non-whitespace character; otherwise "Name required" |
| FieldValidation.EmailError | app/src/main/java/com/lakshay/upihandler/MainActivity.kt:37-41 | no error exactly when the trimmed text matches the address pattern; otherwise "Invalid email" |
| FieldValidation.PhoneError | app/src/main/java/com/lakshay/upihandler/MainActivity.kt:43-50 | no error exactly when the trimmed phone has 10 characters, whatever they are; otherwise the 10-digit message |
| FieldValidation.ParsedAmount | app/src/main/java/com/lakshay/upihandler/MainActivity.kt:67-69 | the amount read from a field fits in `Int`, and a field that is blank after trimming reads as null |
| FieldValidation.AmountInRange | app/src/main/java/com/lakshay/upihandler/MainActivity.kt:70 | an amount in range is present, fits in `Int` and is positive |
| FieldValidation.InRangeAmountDigits | app/src/main/java/com/lakshay/upihandler/MainActivity.kt:93 | an amount in range is written into the request as one to five characters, all of them digits (so no sign) |
| FieldValidation.AmountError | app/src/main/java/com/lakshay/upihandler/MainActivity.kt:52-61 | no error exactly for a parsed amount in 1..50000 (the same test as the pay handler's); the whole-number message exactly for null or non-positive; the maximum message exactly above 50000 |
| FieldValidation.AmountAcceptedForm | app/src/main/java/com/lakshay/upihandler/MainActivity.kt:52-61 | an amount is accepted exactly when its trimmed text is an optional '+' and digits worth 1..50000: never a '-', leading zeros allowed |
| FieldValidation.ParsedDigits | app/src/main/java/com/lakshay/upihandler/MainActivity.kt:53-54 | a bare digit string reads as its value when it fits in `Int`, as null otherwise |
| FieldValidation.OverflowIsNotTooLarge | app/src/main/java/com/lakshay/upihandler/MainActivity.kt:54-59 | an amount past the `Int` range gets the whole-number message, not the maximum message |
| FieldValidation.AboveMaximum | app/src/main/java/com/lakshay/upihandler/MainActivity.kt:58-59 | "50001" gets the maximum-amount message |
| FieldValidation.AtMaximum | app/src/main/java/com/lakshay/upihandler/MainActivity.kt:55-60 | "50000" is accepted |
| FieldValidation.ZeroAmount | app/src/main/java/com/lakshay/upihandler/MainActivity.kt:56-57 | "0" gets the whole-number message |
| FieldValidation.NegativeAmount | app/src/main/java/com/lakshay/upihandler/MainActivity.kt:56-57 | "-5" gets the whole-number message |
| FieldValidation.PaddedAmount | app/src/main/java/com/lakshay/upihandler/MainActivity.kt:53 | " 100 " is accepted: the listener trims before parsing |
| FieldValidation.ExampleFieldsValid | app/src/main/java/com/lakshay/upihandler/MainActivity.kt:32-61 | "A", "9876543210" and "100" pass the name, phone and amount checks |
| UpiRequest.NoteFor | app/src/main/java/com/lakshay/upihandler/MainActivity.kt:85 | the note is never empty and already trimmed; it is the trimmed description when that is non-empty and "UPI Payment" when it is empty |
| UpiRequest.NewPaymentRequest | app/src/main/java/com/lakshay/upihandler/MainActivity.kt:82-85 | the request carries the fixed payee address and name, the defaulted note, the amount and INR |
| UpiRequest.LookupDistinctKeys | app/src/main/java/com/lakshay/upihandler/MainActivity.kt:90-94 | with distinct keys each parameter is found by its own key |
| UpiRequest.ToUri | app/src/main/java/com/lakshay/upihandler/MainActivity.kt:87-95 | scheme `upi`, authority `pay`, five parameters keyed pa, pn, tn, am, cu in that order, and `am` holds the amount as `Int.toString` prints it |
| UpiRequest.RequestShape | app/src/main/java/com/lakshay/upihandler/MainActivity.kt:82-95 | the built URI is `upi`/`pay` with exactly pa=merchant@upi, pn=Merchant Name, tn=the defaulted note, am=the printed amount, cu=INR, in that order |
| UpiRequest.UriRoundTrip | app/src/main/java/com/lakshay/upihandler/MainActivity.kt:87-95 | every request with an `Int` amount is read back unchanged from its URI |
| UpiRequest.ExampleUri | app/src/main/java/com/lakshay/upihandler/MainActivity.kt:82-95 | an empty description and amount 100 give exactly pa=merchant@upi, pn=Merchant Name, tn=UPI Payment, am=100, cu=INR |
| ActivityResult.Interpret | app/src/main/java/com/lakshay/upihandler/MainActivity.kt:118-133 | nothing for a request code other than 101; no response exactly for missing data; success exactly when the response extra is present and contains SUCCESS ignoring case |
| ActivityResult.OutcomeMessage | app/src/main/java/com/lakshay/upihandler/MainActivity.kt:124-130 | each outcome has its own toast text: the success, failure and no-response messages each belong to exactly one outcome |
| ActivityResult.ResultToast | app/src/main/java/com/lakshay/upihandler/MainActivity.kt:120-131 | a toast is shown exactly for request code 101; it is "Transaction Successful!" exactly for a success, "Transaction Failed or Cancelled." exactly for a failed or cancelled payment, and "No response from UPI app." exactly when no data came back |
| ActivityResult.PrefixedResponseSucceeds | app/src/main/java/com/lakshay/upihandler/MainActivity.kt:123-124 | a response starting with SUCCESS in any case (such as "SUCCESS:1234") is a success |
| ActivityResult.MissingResponseFails | app/src/main/java/com/lakshay/upihandler/MainActivity.kt:122-127 | returned data without a response extra reads as failed or cancelled |
| ActivityResult.LowerCaseSuccess | app/src/main/java/com/lakshay/upihandler/MainActivity.kt:123 | "txn=1;status=success" is a success |
| ActivityResult.NoStartNoMatch | app/src/main/java/com/lakshay/upihandler/MainActivity.kt:123 | a text with no s or S at any possible starting offset does not contain the token |
| ActivityResult.CancelledFails | app/src/main/java/com/lakshay/upihandler/MainActivity.kt:123-127 | "cancelled by user" reads as failed or cancelled |
| PaymentForm.Form.constructor | app/src/main/java/com/lakshay/upihandler/MainActivity.kt:22-23 | the screen opens with every field empty and no error shown, which satisfies the slot invariant |
| PaymentForm.Form.Accepted | app/src/main/java/com/lakshay/upihandler/MainActivity.kt:73-80 | when the gate opens, the name, phone and amount checks pass on the current texts even without the slot invariant, because the gate re-checks non-emptiness, the phone length and the amount range |
| PaymentForm.Form.OnNameChanged | app/src/main/java/com/lakshay/upihandler/MainActivity.kt:32-35 | the name slot becomes the name check of the new text; only the name text and slot change; the invariant is kept |
| PaymentForm.Form.OnEmailChanged | app/src/main/java/com/lakshay/upihandler/MainActivity.kt:37-41 | the e-mail slot becomes the e-mail check of the new text; only the e-mail text and slot change |
| PaymentForm.Form.OnPhoneChanged | app/src/main/java/com/lakshay/upihandler/MainActivity.kt:43-50 | the phone slot becomes the phone check of the new text; only the phone text and slot change |
| PaymentForm.Form.OnAmountChanged | app/src/main/java/com/lakshay/upihandler/MainActivity.kt:52-61 | the amount slot becomes the amount check of the new text; only the amount text and slot change |
| PaymentForm.Form.OnDescriptionChanged | app/src/main/java/com/lakshay/upihandler/MainActivity.kt:68 | only the description text changes; no slot is touched |
| PaymentForm.Form.AcceptedIffFieldsValid | app/src/main/java/com/lakshay/upihandler/MainActivity.kt:73-80 | under the slot invariant the gate opens exactly when name, phone and amount pass their checks and the e-mail is non-blank and matches |
| PaymentForm.Form.OnPayClicked | app/src/main/java/com/lakshay/upihandler/MainActivity.kt:63-115 | a closed gate shows "Please fix all errors before proceeding."; an open gate starts the chooser under code 101 with the URI of the request, or shows the no-UPI-app message when no handler resolves; a launch implies amount in 1..50000 and a 10-character phone |
| PaymentForm.ReapplyAmountEdit | app/src/main/java/com/lakshay/upihandler/MainActivity.kt:52-61 | entering the same amount text twice leaves the amount slot as once did, and no other slot changes |
| PaymentForm.OverMaximumScenario | app/src/main/java/com/lakshay/upihandler/MainActivity.kt:52-113 | amount "50001" shows the maximum-amount error and the click is refused |
| PaymentForm.UntouchedPhoneScenario | app/src/main/java/com/lakshay/upihandler/MainActivity.kt:73-80 | a never-edited phone shows no error, yet the click is refused |
| PaymentForm.FillForm | app/src/main/java/com/lakshay/upihandler/MainActivity.kt:32-61 | editing each required field once on a new form leaves the typed texts, every slot holding its validator's verdict, and the slot invariant |
| PaymentForm.ExampleForm | app/src/main/java/com/lakshay/upihandler/MainActivity.kt:32-61 | after filling in the example values the gate is open and the amount reads as 100 |
| PaymentForm.ValidFormScenario | app/src/main/java/com/lakshay/upihandler/MainActivity.kt:63-110 | the example form launches exactly the example URI under code 101, or shows the no-UPI-app message |

## Left out

- Window insets, view binding inflation and edge-to-edge layout (lines 19-29): layout only.
- Toasts: each is a returned message (`PayAction.ShowToast`, `ResultToast`).
- The chooser, `resolveActivity` and `startActivityForResult`: the handler's resolution is the boolean `handlerAvailable`, and the launch is the returned `StartForResult(uri, 101)`.
- `Uri.Builder` percent-encoding: the URI is kept as its scheme, authority and ordered key/value list, and `FromUri` is a reader of that value, not of an encoded string.
- `Patterns.EMAIL_ADDRESS`: a platform pattern that is not part of this model; it is the `isEmail` parameter of the form.
- The asynchronous delivery of the activity result: `Interpret` is one synchronous call; no pending-request register is kept, since the activity keeps none.
- KotlinStrings.Trim: whitespace is the ASCII part of `Char.isWhitespace` (HT, LF, VT, FF, CR, FS, GS, RS, US, space); Unicode spaces are not modelled.
- KotlinInts.ToIntOrNull: only the ASCII digits '0'..'9' are digits; the other Unicode decimal digits that the platform accepts are not modelled. Sign handling and 32-bit overflow are modelled exactly.
- KotlinStrings.ContainsIgnoringCase: case folding is ASCII upper-casing only.
- FieldValidation.PhoneError: lengths are counted in characters, not in UTF-16 code units, so a character outside the Basic Multilingual Plane counts once.
- The maximum-amount message: the source text shows the rupee sign as the mis-decoded bytes "â‚¹"; the model writes the intended sign U+20B9.
- ActivityResult.Interpret: takes the result code, which the source ignores, and ignores it too.
