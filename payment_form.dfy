/**
 * The payment form of the activity: the text of each field, the inline
 * error each field's layout shows, the text-change listeners that rewrite
 * those errors, and the pay button's handler.
 */
module PaymentForm {
  import opened Wrappers
  import opened KotlinStrings
  import opened KotlinInts
  import opened FieldValidation
  import opened UpiRequest

  const FixErrorsMessage := "Please fix all errors before proceeding."
  const NoUpiAppMessage := "No UPI app found. Please install one to continue."

  /** What a click on the pay button does: start the chooser for the URI
      and wait for its result under a request code, or show a toast. */
  datatype PayAction = StartForResult(uri: UpiUri, requestCode: int) | ShowToast(message: string)

  /** A stored error agrees with its field when it is the validator's
      verdict on the current text, or when the field has never been edited
      (its text is still empty and no error is shown). */
  predicate SlotAgrees(slot: Option<string>, text: string, verdict: Option<string>) {
    slot == verdict || (slot.None? && text == "")
  }

  class Form {
    /** The platform's e-mail address pattern, which this model does not define. */
    const isEmail: string -> bool

    var nameText: string
    var emailText: string
    var phoneText: string
    var amountText: string
    var descriptionText: string

    var nameError: Option<string>
    var emailError: Option<string>
    var phoneError: Option<string>
    var amountError: Option<string>

    ghost predicate NameAgrees()
      reads this`nameText, this`nameError
    {
      SlotAgrees(nameError, nameText, NameError(nameText))
    }

    ghost predicate EmailAgrees()
      reads this`emailText, this`emailError
    {
      SlotAgrees(emailError, emailText, EmailError(isEmail, emailText))
    }

    ghost predicate PhoneAgrees()
      reads this`phoneText, this`phoneError
    {
      SlotAgrees(phoneError, phoneText, PhoneError(phoneText))
    }

    ghost predicate AmountAgrees()
      reads this`amountText, this`amountError
    {
      SlotAgrees(amountError, amountText, AmountError(amountText))
    }

    /** Every error slot agrees with its field. */
    ghost predicate Valid()
      reads this
    {
      NameAgrees() && EmailAgrees() && PhoneAgrees() && AmountAgrees()
    }

    /** The pay handler's gate: no error shown, no required field empty
        after trimming, the amount in range and the phone of the right length. */
    predicate Accepted()
      reads this
      ensures Accepted() ==>
        NameError(nameText).None? && PhoneError(phoneText).None? && AmountError(amountText).None?
    {
      nameError.None? && emailError.None? && phoneError.None? && amountError.None? &&
      |Trim(nameText)| > 0 && |Trim(emailText)| > 0 && |Trim(phoneText)| > 0 && |Trim(amountText)| > 0 &&
      AmountInRange(ParsedAmount(amountText)) && |Trim(phoneText)| == PhoneLength
    }

    /** Every required field passes its own check on its current text, and
        the e-mail is not blank. */
    predicate FieldsValid()
      reads this
    {
      NameError(nameText).None? && EmailError(isEmail, emailText).None? && |Trim(emailText)| > 0 &&
      PhoneError(phoneText).None? && AmountError(amountText).None?
    }

    /** The form as the screen opens: every field empty, no error shown. */
    constructor (isEmail: string -> bool)
      ensures Valid() && this.isEmail == isEmail
      ensures nameText == "" && emailText == "" && phoneText == "" && amountText == "" && descriptionText == ""
      ensures nameError.None? && emailError.None? && phoneError.None? && amountError.None?
    {
      this.isEmail := isEmail;
      nameText, emailText, phoneText, amountText, descriptionText := "", "", "", "", "";
      nameError, emailError, phoneError, amountError := None, None, None, None;
    }

    /** The name field's text changes; its listener rewrites the name error. */
    method OnNameChanged(text: string)
      modifies this`nameText, this`nameError
      ensures nameText == text && nameError == NameError(text)
      ensures old(Valid()) ==> Valid()
    {
      nameText := text;
      nameError := NameError(text);
    }

    /** The e-mail field's text changes; its listener rewrites the e-mail error. */
    method OnEmailChanged(text: string)
      modifies this`emailText, this`emailError
      ensures emailText == text && emailError == EmailError(isEmail, text)
      ensures old(Valid()) ==> Valid()
    {
      emailText := text;
      emailError := EmailError(isEmail, text);
    }

    /** The phone field's text changes; its listener rewrites the phone error. */
    method OnPhoneChanged(text: string)
      modifies this`phoneText, this`phoneError
      ensures phoneText == text && phoneError == PhoneError(text)
      ensures old(Valid()) ==> Valid()
    {
      phoneText := text;
      phoneError := PhoneError(text);
    }

    /** The amount field's text changes; its listener rewrites the amount error. */
    method OnAmountChanged(text: string)
      modifies this`amountText, this`amountError
      ensures amountText == text && amountError == AmountError(text)
      ensures old(Valid()) ==> Valid()
    {
      amountText := text;
      amountError := AmountError(text);
    }

    /** The description field's text changes; it has no listener and no error. */
    method OnDescriptionChanged(text: string)
      modifies this`descriptionText
      ensures descriptionText == text
      ensures old(Valid()) ==> Valid()
    {
      descriptionText := text;
    }

    /** While the slots agree with their fields, the gate opens exactly when
        every required field is valid: the re-check of emptiness at
        submission is what rejects a field that was never edited. */
    lemma AcceptedIffFieldsValid()
      requires Valid()
      ensures Accepted() <==> FieldsValid()
    {
    }

    /** A click on the pay button, with `handlerAvailable` standing for
        whether the chooser resolves to an activity. The form is not changed. */
    method OnPayClicked(handlerAvailable: bool) returns (action: PayAction)
      ensures !Accepted() ==> action == ShowToast(FixErrorsMessage)
      ensures Accepted() && !handlerAvailable ==> action == ShowToast(NoUpiAppMessage)
      ensures Accepted() && handlerAvailable ==>
        action == StartForResult(
          ToUri(NewPaymentRequest(descriptionText, ParsedAmount(amountText).value)),
          PaymentRequestCode)
      ensures action.StartForResult? ==>
        AmountInRange(ParsedAmount(amountText)) && |Trim(phoneText)| == PhoneLength
    {
      var name := Trim(nameText);
      var email := Trim(emailText);
      var phone := Trim(phoneText);
      var amountStr := Trim(amountText);
      var description := Trim(descriptionText);
      var amount := ToIntOrNull(amountStr);
      var isAmountValid := amount.Some? && amount.value > 0 && amount.value <= MaxAmount;
      var isPhoneValid := |phone| == PhoneLength;
      var isValid :=
        nameError.None? && emailError.None? && phoneError.None? && amountError.None? &&
        |name| > 0 && |email| > 0 && |phone| > 0 && |amountStr| > 0 &&
        isAmountValid && isPhoneValid;
      if isValid {
        TrimIdempotent(descriptionText);
        assert NoteFor(description) == NoteFor(descriptionText);
        var request := NewPaymentRequest(description, amount.value);
        var uri := ToUri(request);
        if handlerAvailable {
          action := StartForResult(uri, PaymentRequestCode);
        } else {
          action := ShowToast(NoUpiAppMessage);
        }
      } else {
        action := ShowToast(FixErrorsMessage);
      }
    }
  }

  /** The amount slot depends on nothing but the text: entering the same
      text a second time leaves the slot as the first time left it. */
  method ReapplyAmountEdit(form: Form, text: string) returns (first: Option<string>, second: Option<string>)
    modifies form
    ensures first == AmountError(text) && second == first
    ensures form.nameError == old(form.nameError) && form.emailError == old(form.emailError)
    ensures form.phoneError == old(form.phoneError)
  {
    form.OnAmountChanged(text);
    first := form.amountError;
    form.OnAmountChanged(text);
    second := form.amountError;
  }

  /** An amount over the maximum shows the maximum-amount error and blocks
      the payment. */
  method OverMaximumScenario(isEmail: string -> bool) returns (amountError: Option<string>, action: PayAction)
    ensures amountError == Some(AmountTooLarge)
    ensures action == ShowToast(FixErrorsMessage)
  {
    var form := new Form(isEmail);
    form.OnNameChanged("A");
    form.OnEmailChanged("a@b.com");
    form.OnPhoneChanged("9876543210");
    form.OnAmountChanged("50001");
    AboveMaximum();
    amountError := form.amountError;
    action := form.OnPayClicked(true);
  }

  /** A phone field that was never edited shows no error, yet the emptiness
      re-check still blocks the payment. */
  method UntouchedPhoneScenario(isEmail: string -> bool) returns (phoneError: Option<string>, action: PayAction)
    ensures phoneError == None
    ensures action == ShowToast(FixErrorsMessage)
  {
    var form := new Form(isEmail);
    form.OnNameChanged("A");
    form.OnEmailChanged("a@b.com");
    form.OnAmountChanged("100");
    phoneError := form.phoneError;
    action := form.OnPayClicked(true);
  }

  /** A new form on which each required field has been edited once, in the
      order the screen shows them; every slot holds its validator's verdict. */
  method FillForm(isEmail: string -> bool, name: string, email: string, phone: string, amount: string)
    returns (form: Form)
    ensures fresh(form) && form.Valid() && form.isEmail == isEmail
    ensures form.nameText == name && form.emailText == email && form.phoneText == phone
    ensures form.amountText == amount && form.descriptionText == ""
    ensures form.nameError == NameError(name) && form.emailError == EmailError(isEmail, email)
    ensures form.phoneError == PhoneError(phone) && form.amountError == AmountError(amount)
  {
    form := new Form(isEmail);
    form.OnNameChanged(name);
    form.OnEmailChanged(email);
    form.OnPhoneChanged(phone);
    form.OnAmountChanged(amount);
  }

  /** The example form, filled in with name "A", e-mail "a@b.com", phone
      "9876543210" and amount "100" and no description. */
  method ExampleForm(isEmail: string -> bool) returns (form: Form)
    requires isEmail("a@b.com")
    ensures fresh(form) && form.Accepted()
    ensures form.descriptionText == "" && ParsedAmount(form.amountText) == Some(100)
  {
    ExampleFieldsValid();
    TrimOfTrimmed("a@b.com");
    assert EmailError(isEmail, "a@b.com") == None;
    form := FillForm(isEmail, "A", "a@b.com", "9876543210", "100");
  }

  /** A complete, valid form launches the payment with the example URI, or
      reports that no payment application is installed. */
  method ValidFormScenario(isEmail: string -> bool, handlerAvailable: bool) returns (action: PayAction)
    requires isEmail("a@b.com")
    ensures handlerAvailable ==> action == StartForResult(UpiUri("upi", "pay", [
      ("pa", "merchant@upi"), ("pn", "Merchant Name"), ("tn", "UPI Payment"),
      ("am", "100"), ("cu", "INR")]), 101)
    ensures !handlerAvailable ==> action == ShowToast(NoUpiAppMessage)
  {
    var form := ExampleForm(isEmail);
    action := form.OnPayClicked(handlerAvailable);
    ExampleUri();
  }
}
