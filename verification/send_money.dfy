/**
 * The send-money page: the transfer form, its validation, and the hand-off of
 * the form plus its conversion quote to the next step of the flow.
 */
module SendMoney {
  import opened Wrappers
  import opened Session

  /** The smallest amount, in rupees, the form accepts. */
  const MinAmount: real := 0.01

  /** The form state; every field is the text of its input. */
  datatype FormData = FormData(amount: string, receiverAddress: string, currency: string)

  const InitialForm: FormData := FormData("", "", "USDT")

  /** The `name` attribute of the input that raised a change event. */
  datatype FieldName = Amount | ReceiverAddress | Currency

  function FieldValue(form: FormData, name: FieldName): string
  {
    match name
    case Amount => form.amount
    case ReceiverAddress => form.receiverAddress
    case Currency => form.currency
  }

  /** `{ ...prev, [name]: value }`: the named field takes the value, the others keep theirs. */
  function WithField(form: FormData, name: FieldName, value: string): (r: FormData)
    ensures FieldValue(r, name) == value
    ensures forall other :: other != name ==> FieldValue(r, other) == FieldValue(form, other)
  {
    match name
    case Amount => form.(amount := value)
    case ReceiverAddress => form.(receiverAddress := value)
    case Currency => form.(currency := value)
  }

  predicate IsHexDigit(c: char)
  {
    '0' <= c <= '9' || 'a' <= c <= 'f' || 'A' <= c <= 'F'
  }

  /**
   * `/^0x[a-fA-F0-9]{40}$/.test(s)`. An accepted address is never empty, so it
   * also passes the presence check, and holds no comma, space or newline.
   */
  predicate IsEthAddress(s: string)
    ensures IsEthAddress(s) ==> s != "" && ',' !in s && ' ' !in s && '\n' !in s
  {
    |s| == 42 && s[0] == '0' && s[1] == 'x' && forall i :: 2 <= i < 42 ==> IsHexDigit(s[i])
  }

  predicate AllHex(h: string)
  {
    forall i :: 0 <= i < |h| ==> IsHexDigit(h[i])
  }

  /**
   * An address is accepted exactly when it is the lower-case prefix "0x"
   * followed by forty hexadecimal digits of either case.
   */
  lemma EthAddressShape(s: string)
    ensures IsEthAddress(s) <==> |s| == 42 && s[..2] == "0x" && AllHex(s[2..])
  {
    if |s| == 42 && s[..2] == "0x" {
      assert s[0] == s[..2][0] && s[1] == s[..2][1];
      assert AllHex(s[2..]) <==> forall i :: 2 <= i < 42 ==> IsHexDigit(s[i]) by {
        forall i | 2 <= i < 42 ensures s[2..][i - 2] == s[i] { }
      }
    }
    if IsEthAddress(s) {
      assert s[..2] == "0x";
    }
  }

  /** The same, read constructively: "0x" followed by `h` is accepted iff `h` is forty hex digits. */
  lemma PrefixedAddress(h: string)
    ensures IsEthAddress("0x" + h) <==> |h| == 40 && AllHex(h)
  {
    var s := "0x" + h;
    EthAddressShape(s);
    assert s[..2] == "0x" && s[2..] == h;
  }

  /** An upper-case "0X" prefix is never accepted. */
  lemma UpperPrefixRejected(h: string)
    ensures !IsEthAddress("0X" + h)
  {
    assert ("0X" + h)[1] == 'X';
  }

  datatype FormError = InvalidAmount | MissingReceiver | InvalidReceiver

  /** The toast shown for each rejected form. */
  function ErrorMessage(e: FormError): string
  {
    match e
    case InvalidAmount => "Please enter a valid amount (minimum ₹0.01)"
    case MissingReceiver => "Please enter receiver wallet address"
    case InvalidReceiver => "Please enter a valid Ethereum wallet address"
  }

  /** The amount check: the field is filled in and its numeric value is at least the minimum. */
  predicate AmountAccepted(form: FormData, amountValue: real)
  {
    form.amount != "" && amountValue >= MinAmount
  }

  /**
   * validateForm. `amountValue` is `parseFloat(form.amount)`. The checks run in
   * the order amount, presence of the receiver, format of the receiver, and the
   * first one that fails decides the error; `None` means the form is valid.
   */
  function ValidateForm(form: FormData, amountValue: real): (r: Option<FormError>)
    ensures r.None? <==> AmountAccepted(form, amountValue) && IsEthAddress(form.receiverAddress)
    ensures r == Some(InvalidAmount) <==> !AmountAccepted(form, amountValue)
    ensures r == Some(MissingReceiver) <==> AmountAccepted(form, amountValue) && form.receiverAddress == ""
    ensures r == Some(InvalidReceiver) <==>
              AmountAccepted(form, amountValue) && form.receiverAddress != "" && !IsEthAddress(form.receiverAddress)
  {
    if form.amount == "" || amountValue < MinAmount then Some(InvalidAmount)
    else if form.receiverAddress == "" then Some(MissingReceiver)
    else if !IsEthAddress(form.receiverAddress) then Some(InvalidReceiver)
    else None
  }

  /** The amount boundary: exactly 0.01 passes the amount check, anything smaller is rejected. */
  lemma AmountBoundary(form: FormData)
    requires form.amount != ""
    ensures ValidateForm(form, 0.01) != Some(InvalidAmount)
    ensures ValidateForm(form, 0.009999) == Some(InvalidAmount)
  {
  }

  /** The request sent to the conversion endpoint: `parseFloat(amount)` and the chosen currency. */
  datatype ConversionRequest = ConversionRequest(amount: real, currency: string)

  /** The send-money page: its form, its loading flag, and where it navigated. */
  class SendMoneyPage {
    var formData: FormData
    var isLoading: bool
    var navigatedTo: Option<string>

    constructor ()
      ensures formData == InitialForm && !isLoading && navigatedTo == None
    {
      formData, isLoading, navigatedTo := InitialForm, false, None;
    }

    /** handleInputChange: only the field named by the event changes. */
    method HandleInputChange(name: FieldName, value: string)
      modifies this
      ensures formData == WithField(old(formData), name, value)
      ensures FieldValue(formData, name) == value
      ensures forall other :: other != name ==> FieldValue(formData, other) == FieldValue(old(formData), other)
      ensures isLoading == old(isLoading) && navigatedTo == old(navigatedTo)
    {
      formData := WithField(formData, name, value);
    }

    /**
     * handleSubmit. `amountValue` is `parseFloat(formData.amount)` and `conversion`
     * is what the conversion endpoint answers (its `error` text, possibly empty,
     * on failure). Returns the conversion request made, if any, and the toast shown.
     */
    method HandleSubmit(amountValue: real, conversion: Result<Conversion, string>, store: SessionStore)
      returns (request: Option<ConversionRequest>, toast: string)
      modifies this, store
      ensures request.Some? <==> ValidateForm(formData, amountValue).None?
      ensures request.Some? ==> request.value == ConversionRequest(amountValue, formData.currency)
      ensures formData == old(formData)
      ensures store.transactionHash == old(store.transactionHash)
      ensures store.transactionData == old(store.transactionData)
      ensures ValidateForm(formData, amountValue).Some? ==>
                toast == ErrorMessage(ValidateForm(formData, amountValue).value) &&
                isLoading == old(isLoading) && navigatedTo == old(navigatedTo) &&
                store.transferData == old(store.transferData)
      ensures ValidateForm(formData, amountValue).None? && conversion.Success? ==>
                !isLoading && navigatedTo == Some("/conversion") &&
                store.transferData == Some(TransferData(formData.amount, formData.receiverAddress,
                                                        formData.currency, conversion.value)) &&
                toast == "Conversion calculated successfully!"
      ensures ValidateForm(formData, amountValue).None? && conversion.Failure? ==>
                !isLoading && navigatedTo == old(navigatedTo) &&
                store.transferData == old(store.transferData) &&
                toast == ErrorText(conversion.error, "Failed to convert currency")
    {
      var invalid := ValidateForm(formData, amountValue);
      if invalid.Some? {
        request := None;
        toast := ErrorMessage(invalid.value);
        return;
      }
      isLoading := true;
      request := Some(ConversionRequest(amountValue, formData.currency));
      if conversion.Success? {
        store.transferData := Some(TransferData(formData.amount, formData.receiverAddress,
                                                formData.currency, conversion.value));
        toast := "Conversion calculated successfully!";
        navigatedTo := Some("/conversion");
      } else {
        toast := ErrorText(conversion.error, "Failed to convert currency");
      }
      isLoading := false;
    }
  }
}
