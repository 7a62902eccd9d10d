/**
 * The per-field checks that the activity's text-change listeners run on
 * every edit. Each takes the raw text of its field, trims it as the
 * listener does, and returns the inline error message or None when the
 * field is valid.
 */
module FieldValidation {
  import opened Wrappers
  import opened KotlinStrings
  import opened KotlinInts

  const NameRequired := "Name required"
  const InvalidEmail := "Invalid email"
  const InvalidPhone := "Enter valid 10-digit phone number (excluding +91)"
  const InvalidAmount := "Enter valid amount (whole number)"
  /** The source's literal shows the rupee sign mis-encoded; it is written here as U+20B9. */
  const AmountTooLarge := "Maximum amount allowed is \U{20B9}50,000"

  const PhoneLength := 10
  const MaxAmount := 50000

  /** Name listener: an error exactly when the text holds nothing but whitespace. */
  function NameError(text: string): (r: Option<string>)
    ensures r.None? <==> exists k :: 0 <= k < |text| && !IsWhitespace(text[k])
    ensures r.Some? ==> r.value == NameRequired
  {
    TrimEmptyIffBlank(text);
    if |Trim(text)| == 0 then Some(NameRequired) else None
  }

  /** Email listener. The address pattern of the platform is not part of
      this model; `isEmail` stands for it. */
  function EmailError(isEmail: string -> bool, text: string): (r: Option<string>)
    ensures r.None? <==> isEmail(Trim(text))
    ensures r.Some? ==> r.value == InvalidEmail
  {
    if !isEmail(Trim(text)) then Some(InvalidEmail) else None
  }

  /** Phone listener: only the length of the trimmed text is checked, never
      which characters it holds. */
  function PhoneError(text: string): (r: Option<string>)
    ensures r.None? <==> |Trim(text)| == PhoneLength
    ensures r.Some? ==> r.value == InvalidPhone
  {
    if |Trim(text)| != PhoneLength then Some(InvalidPhone) else None
  }

  /** The amount as the activity reads it: the trimmed text through `toIntOrNull`. */
  function ParsedAmount(text: string): (r: Option<int>)
    ensures r.Some? ==> IsInt(r.value)
    ensures |Trim(text)| == 0 ==> r.None?
  {
    ToIntOrNull(Trim(text))
  }

  /** The pay handler's amount check: a parsed amount in 1..MaxAmount. */
  predicate AmountInRange(amount: Option<int>): (b: bool)
    ensures b ==> amount.Some? && IsInt(amount.value) && amount.value > 0
  {
    amount.Some? && 0 < amount.value <= MaxAmount
  }

  /** An amount in range is written into the request as one to five digits
      with no sign. */
  lemma InRangeAmountDigits(amount: Option<int>)
    requires AmountInRange(amount)
    ensures AllDigits(IntToDecimal(amount.value))
    ensures 1 <= |IntToDecimal(amount.value)| <= 5
  {
    NatToDecimalLength(amount.value, 5);
  }

  /** Amount listener: no error exactly for an amount in 1..MaxAmount; the
      "whole number" message for unparsable, overflowing or non-positive
      text; the maximum-amount message for a parsed amount above MaxAmount. */
  function AmountError(text: string): (r: Option<string>)
    ensures r.None? <==> AmountInRange(ParsedAmount(text))
    ensures r == Some(InvalidAmount) <==>
      ParsedAmount(text).None? || ParsedAmount(text).value <= 0
    ensures r == Some(AmountTooLarge) <==>
      ParsedAmount(text).Some? && ParsedAmount(text).value > MaxAmount
  {
    var amount := ParsedAmount(text);
    if amount.None? || amount.value <= 0 then Some(InvalidAmount)
    else if amount.value > MaxAmount then Some(AmountTooLarge)
    else None
  }

  /** The digits that follow an optional leading '+'. */
  function UnsignedPart(t: string): string {
    if |t| > 0 && t[0] == '+' then t[1..] else t
  }

  /** An amount is accepted exactly when its trimmed text is an optional '+'
      followed by decimal digits worth 1..MaxAmount: a '-' sign is never
      accepted, leading zeros are, and the `Int` range plays no part. */
  lemma AmountAcceptedForm(text: string)
    ensures AmountError(text).None? <==>
      var u := UnsignedPart(Trim(text));
      |u| > 0 && AllDigits(u) && 1 <= DigitsValue(u) <= MaxAmount
  {
  }

  /** A bare digit string is read as its value when that fits in `Int`
      and as null when it does not. */
  lemma ParsedDigits(t: string)
    requires |t| > 0 && AllDigits(t)
    ensures ParsedAmount(t) == if DigitsValue(t) <= IntMax then Some(DigitsValue(t)) else None
  {
  }

  /** A text that overflows `Int` gets the "whole number" message, not the
      maximum-amount one. */
  lemma OverflowIsNotTooLarge()
    ensures AmountError("2147483648") == Some(InvalidAmount)
  {
    ValueOfIntMaxPlusOne();
    ParsedDigits("2147483648");
  }

  /** Just above the maximum amount. */
  lemma AboveMaximum()
    ensures AmountError("50001") == Some(AmountTooLarge)
  {
    assert "50001"[..4] == "5000" && "5000"[..3] == "500" && "500"[..2] == "50" && "50"[..1] == "5";
    ParsedDigits("50001");
  }

  /** The maximum amount itself is accepted. */
  lemma AtMaximum()
    ensures AmountError("50000") == None
  {
    assert "50000"[..4] == "5000" && "5000"[..3] == "500" && "500"[..2] == "50" && "50"[..1] == "5";
    ParsedDigits("50000");
  }

  /** Zero gets the "whole number" message. */
  lemma ZeroAmount()
    ensures AmountError("0") == Some(InvalidAmount)
  {
  }

  /** A negative amount gets the "whole number" message. */
  lemma NegativeAmount()
    ensures AmountError("-5") == Some(InvalidAmount)
  {
  }

  /** Surrounding whitespace is ignored. */
  lemma PaddedAmount()
    ensures AmountError(" 100 ") == None
  {
    var s := " 100 ";
    assert s[1..] == "100 ";
    assert TrimStart("100 ") == "100 ";
    assert TrimStart(s) == "100 ";
    assert "100 "[..3] == "100";
    assert TrimEnd("100") == "100";
    assert TrimEnd("100 ") == "100";
    assert Trim(s) == "100";
    assert "100"[..2] == "10" && "10"[..1] == "1";
    ParsedDigits("100");
  }

  /** The fields of the example form each pass their check. */
  lemma ExampleFieldsValid()
    ensures NameError("A") == None
    ensures PhoneError("9876543210") == None
    ensures ParsedAmount("100") == Some(100) && AmountError("100") == None
    ensures Trim("A") == "A" && Trim("100") == "100"
  {
    TrimOfTrimmed("A");
    TrimOfTrimmed("100");
    TrimOfTrimmed("9876543210");
    assert "100"[..2] == "10" && "10"[..1] == "1";
    ParsedDigits("100");
  }
}
