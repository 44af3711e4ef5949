/** The payout page: the request form and its validation against the
    available balance, what a submission does, how the payouts and balance
    responses are read, the payout status badge and the processed-date cell. */
module Payouts {
  import opened Common
  import opened JsNumbers

  datatype Payout = Payout(
    id: int, amount: real, status: string, paymentMethod: string,
    paymentDetails: string, createdAt: string, processedAt: Option<string>)

  /** Balances as numbers; `None` when the server left the field out (`undefined`). */
  datatype Balance = Balance(available: Option<real>, pending: Option<real>)

  datatype PayoutForm = PayoutForm(amount: string, paymentMethod: string, paymentDetails: string)

  /** One message per field; the empty string means no error. */
  datatype FormErrors = FormErrors(amount: string, paymentDetails: string)

  const EmptyForm := PayoutForm("", "bank_transfer", "")
  const InvalidAmountMessage := "Please enter a valid amount"
  const ExceedsBalanceMessage := "Amount exceeds available balance"
  const DetailsRequiredMessage := "Payment details are required"
  const SubmitFailedMessage := "Failed to submit payout request"
  const FetchFailedMessage := "Failed to fetch payout history"

  // ---------------------------------------------------------------- validation

  /** The errors `validateForm` writes. The amount must be non-empty and a
      number, and must not exceed the available balance (equal is fine; no
      lower bound is checked). The details are checked on their own. */
  function FormErrorsFor(form: PayoutForm, available: Option<real>): (errs: FormErrors)
    ensures errs.amount == InvalidAmountMessage <==> form.amount == [] || ToNumber(form.amount).None?
    ensures errs.amount == ExceedsBalanceMessage <==>
      form.amount != [] && ToNumber(form.amount).Some? && available.Some? && ToNumber(form.amount).value > available.value
    ensures errs.amount == [] || errs.amount == InvalidAmountMessage || errs.amount == ExceedsBalanceMessage
    ensures errs.paymentDetails == [] <==> form.paymentDetails != []
    ensures errs.paymentDetails != [] ==> errs.paymentDetails == DetailsRequiredMessage
  {
    var amountError :=
      if form.amount == [] || ToNumber(form.amount).None? then InvalidAmountMessage
      else if Gt(ToNumber(form.amount), available) then ExceedsBalanceMessage
      else [];
    var detailsError := if form.paymentDetails == [] then DetailsRequiredMessage else [];
    FormErrors(amountError, detailsError)
  }

  predicate NoErrors(errs: FormErrors)
  {
    errs.amount == [] && errs.paymentDetails == []
  }

  /** "abc" is not a number. */
  lemma NonNumericAmountRefused()
    ensures FormErrorsFor(PayoutForm("abc", "bank_transfer", "IBAN"), Some(500.0)).amount == InvalidAmountMessage
  {
    assert Scan("abc").whole == [] && Scan("abc").frac == [];
  }

  /** 600 against a balance of 500 is refused. */
  lemma AmountAboveBalanceRefused()
    ensures FormErrorsFor(PayoutForm("600", "bank_transfer", "IBAN"), Some(500.0)).amount == ExceedsBalanceMessage
  {
    NumberOfDigits("600");
    assert "600"[..2] == "60" && "60"[..1] == "6" && "6"[..0] == [];
  }

  /** "499.99" against a balance of 500 is accepted. */
  lemma AmountBelowBalanceAccepted()
    ensures NoErrors(FormErrorsFor(PayoutForm("499.99", "bank_transfer", "IBAN"), Some(500.0)))
  {
    DecimalAmount();
  }

  lemma DecimalAmount()
    ensures ToNumber("499.99") == Some(499.99)
  {
    NumberOfDecimal("499", "99");
    assert "499" + "." + "99" == "499.99";
    DecimalAmountValue();
  }

  lemma DecimalAmountValue()
    ensures Value(Scanned(false, false, "499", true, "99", [])) == 499.99
  {
    assert DigitsValue("499") == 499 by {
      assert "499"[..2] == "49" && "49"[..1] == "4" && "4"[..0] == [];
    }
    assert DigitsValue("99") == 99 by {
      assert "99"[..1] == "9" && "9"[..0] == [];
    }
    assert Pow10(2) == 100;
  }

  /** Any amount whose number equals the balance is accepted: the bound is inclusive. */
  lemma AmountEqualToBalanceAccepted(form: PayoutForm, available: real)
    requires form.amount != [] && ToNumber(form.amount) == Some(available) && form.paymentDetails != []
    ensures NoErrors(FormErrorsFor(form, Some(available)))
  {
  }

  /** Nothing asks for a positive amount: "-5" passes against any balance of at least -5. */
  lemma NegativeAmountAccepted(available: real)
    requires available >= -5.0
    ensures NoErrors(FormErrorsFor(PayoutForm("-5", "bank_transfer", "IBAN"), Some(available)))
  {
    assert Scan("-5").whole == "5" && Scan("-5").rest == [] && Scan("-5").negative && Scan("-5").frac == [];
  }

  /** Both fields are checked every time: an unusable amount and missing
      details are reported together. */
  lemma BothErrorsAtOnce(available: Option<real>)
    ensures var errs := FormErrorsFor(PayoutForm("", "bank_transfer", ""), available);
      errs.amount == InvalidAmountMessage && errs.paymentDetails == DetailsRequiredMessage
  {
  }

  /** Without a known balance every number passes the balance test. */
  lemma UnknownBalanceNeverExceeded(form: PayoutForm)
    requires form.amount != [] && ToNumber(form.amount).Some?
    ensures FormErrorsFor(form, None).amount == []
  {
  }

  // ---------------------------------------------------------------- badges and dates

  /** `getStatusBadgeColor` of the payout list, after lower-casing. */
  function PayoutStatusBadge(status: string): (b: Badge)
    ensures b == Success <==> ToLower(status) == "completed"
    ensures b == Warning <==> ToLower(status) == "pending"
    ensures b == Error <==> ToLower(status) == "failed"
  {
    var s := ToLower(status);
    if s == "completed" then Success
    else if s == "pending" then Warning
    else if s == "failed" then Error
    else Default
  }

  /** What a date cell shows: a dash, or the date in the `en-US` short form. */
  datatype DateCell = Dash | LocaleDate(iso: string)

  /** `formatDate`: a missing or empty date shows `-`. */
  function FormatDate(date: Option<string>): (cell: DateCell)
    ensures cell == Dash <==> date.None? || date.value == []
    ensures cell.LocaleDate? ==> cell.iso == date.value
  {
    if date.None? || date.value == [] then Dash else LocaleDate(date.value)
  }

  // ---------------------------------------------------------------- responses

  /** The two responses `fetchPayouts` awaits together: both readable; a
      payouts body with a list but a balance body without `data`, which
      throws only after the list is stored; or an error thrown before
      anything is stored (a failed request, a payouts body without `data`). */
  datatype PayoutsResponse =
    | Loaded(payouts: Option<seq<Payout>>, availableBalance: Option<real>, pendingBalance: Option<real>)
    | BalanceUnreadable(payouts: Option<seq<Payout>>)
    | LoadFailed

  datatype PayoutView = PayoutView(payouts: seq<Payout>, balance: Balance, error: Option<string>, loading: bool)

  /** `fetchPayouts`: the balance fields are renamed, a missing list is empty,
      and a failure keeps the old balance; the list is kept too unless it
      was stored before the balance body failed to read. */
  function AfterPayoutsFetch(v: PayoutView, r: PayoutsResponse): (w: PayoutView)
    ensures !w.loading
    ensures r.Loaded? ==> w.balance == Balance(r.availableBalance, r.pendingBalance) && w.error == v.error
    ensures !r.LoadFailed? ==> w.payouts == if r.payouts.Some? then r.payouts.value else []
    ensures r.BalanceUnreadable? ==> w.balance == v.balance && w.error == Some(FetchFailedMessage)
    ensures r.LoadFailed? ==> w.payouts == v.payouts && w.balance == v.balance && w.error == Some(FetchFailedMessage)
  {
    match r
    case Loaded(ps, available, pending) =>
      v.(payouts := if ps.Some? then ps.value else [], balance := Balance(available, pending), loading := false)
    case BalanceUnreadable(ps) =>
      v.(payouts := if ps.Some? then ps.value else [], error := Some(FetchFailedMessage), loading := false)
    case LoadFailed =>
      v.(error := Some(FetchFailedMessage), loading := false)
  }

  /** The body of the payout request: the form with the amount as a number. */
  datatype PayoutRequest = PayoutRequest(amount: real, paymentMethod: string, paymentDetails: string)

  // ---------------------------------------------------------------- page state

  class PayoutPage {
    var payouts: seq<Payout>
    var balance: Balance
    var error: Option<string>
    var loading: bool
    var isModalOpen: bool
    var formData: PayoutForm
    var formErrors: FormErrors

    constructor ()
      ensures payouts == [] && balance == Balance(Some(0.0), Some(0.0)) && error == None && loading
      ensures !isModalOpen && formData == EmptyForm && formErrors == FormErrors([], [])
    {
      payouts, balance, error, loading := [], Balance(Some(0.0), Some(0.0)), None, true;
      isModalOpen, formData, formErrors := false, EmptyForm, FormErrors([], []);
    }

    function View(): PayoutView
      reads this
    {
      PayoutView(payouts, balance, error, loading)
    }

    /** `validateForm`: writes both field errors and reports whether neither is set. */
    method ValidateForm() returns (valid: bool)
      modifies this`formErrors
      ensures formErrors == FormErrorsFor(formData, balance.available)
      ensures valid <==> NoErrors(formErrors)
    {
      valid := true;
      var amountError: string := [];
      var detailsError: string := [];
      if formData.amount == [] || ToNumber(formData.amount).None? {
        amountError := InvalidAmountMessage;
        valid := false;
      } else if Gt(ToNumber(formData.amount), balance.available) {
        amountError := ExceedsBalanceMessage;
        valid := false;
      }
      if formData.paymentDetails == [] {
        detailsError := DetailsRequiredMessage;
        valid := false;
      }
      formErrors := FormErrors(amountError, detailsError);
    }

    /** `fetchPayouts`, with both responses given as `r`. */
    method FetchPayouts(r: PayoutsResponse)
      modifies this`payouts, this`balance, this`error, this`loading
      ensures View() == AfterPayoutsFetch(old(View()), r)
    {
      loading := true;
      match r {
        case Loaded(ps, available, pending) =>
          payouts := if ps.Some? then ps.value else [];
          balance := Balance(available, pending);
        case BalanceUnreadable(ps) =>
          payouts := if ps.Some? then ps.value else [];
          error := Some(FetchFailedMessage);
        case LoadFailed =>
          error := Some(FetchFailedMessage);
      }
      loading := false;
    }

    /** `handleSubmit`: a request is sent only when the form is valid. When
        the service accepts it (`accepted`), the list and balance are fetched
        again (`refetch`), the modal closes and the form is reset; when it
        refuses, an error is shown and the form stays as typed. */
    method HandleSubmit(accepted: bool, refetch: PayoutsResponse) returns (request: Option<PayoutRequest>)
      modifies this
      ensures formErrors == FormErrorsFor(old(formData), old(balance.available))
      ensures request.Some? <==> NoErrors(formErrors)
      ensures request.Some? ==>
        ToNumber(old(formData.amount)).Some?
        && request.value == PayoutRequest(ToNumber(old(formData.amount)).value, old(formData.paymentMethod), old(formData.paymentDetails))
      ensures request.None? ==> View() == old(View()) && formData == old(formData) && isModalOpen == old(isModalOpen)
      ensures request.Some? && accepted ==>
        View() == AfterPayoutsFetch(old(View()), refetch) && !isModalOpen && formData == EmptyForm
      ensures request.Some? && !accepted ==>
        payouts == old(payouts) && balance == old(balance) && loading == old(loading)
        && error == Some(SubmitFailedMessage) && formData == old(formData) && isModalOpen == old(isModalOpen)
    {
      var valid := ValidateForm();
      if !valid {
        return None;
      }
      var amount := ToNumber(formData.amount);
      request := Some(PayoutRequest(amount.value, formData.paymentMethod, formData.paymentDetails));
      if accepted {
        FetchPayouts(refetch);
        isModalOpen := false;
        formData := EmptyForm;
      } else {
        error := Some(SubmitFailedMessage);
      }
    }
  }
}
