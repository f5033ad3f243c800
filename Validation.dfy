/** `checkPaymentParam` and `checkCancelParam`: fail-fast guards that name the
    first field that fails. */
module Validation {
  import opened Wrappers
  import opened Decimal
  import opened Params

  /** A required text is missing when it is null or empty. */
  predicate Missing(s: Option<string>)
  {
    s.None? || s.value == ""
  }

  /** The required fields of a payment request, in the order they are checked,
      by the name the exception carries. */
  const PAYMENT_FIELD_ORDER: seq<string> :=
    ["card number", "expiration date", "cvc", "installment months", "payment price"]

  /** Whether each field of PAYMENT_FIELD_ORDER is present. */
  function PaymentPresence(p: PaymentRequestParam): (present: seq<bool>)
    ensures |present| == |PAYMENT_FIELD_ORDER|
  {
    [!Missing(p.cardNumber), !Missing(p.expirationDate), !Missing(p.cvc),
     !Missing(p.installmentMonths), p.paymentPrice.Some?]
  }

  /** Field k is absent and every field before it is present. */
  predicate FirstAbsent(present: seq<bool>, k: int)
  {
    0 <= k < |present| && !present[k] && forall i :: 0 <= i < k ==> present[i]
  }

  /** Every required field of the payment request is present. */
  predicate Complete(p: PaymentRequestParam)
  {
    && !Missing(p.cardNumber) && !Missing(p.expirationDate) && !Missing(p.cvc)
    && !Missing(p.installmentMonths) && p.paymentPrice.Some?
  }

  /** The VAT rule both validators apply: an absent VAT passes, a VAT text that is not
      a 32-bit decimal throws a parse error, and a VAT above the price is rejected
      (a VAT equal to the price passes). */
  function CheckVat(price: int, vat: Option<string>): (r: Outcome<Failure>)
    ensures vat.None? ==> r == Pass
    ensures vat.Some? && ParseInt(vat.value).None? ==> r == Fail(NumberFormat(vat.value))
    ensures vat.Some? && ParseInt(vat.value).Some? ==>
              (r == Pass <==> ParseInt(vat.value).value <= price) &&
              (r == Fail(InvalidParameter("vat")) <==> price < ParseInt(vat.value).value)
  {
    match vat
    case None => Pass
    case Some(s) =>
      match ParseInt(s)
      case None => Fail(NumberFormat(s))
      case Some(v) => if price < v then Fail(InvalidParameter("vat")) else Pass
  }

  /** Checks card number, expiration date, cvc, installment months and payment price
      in that order and reports the first absent one; when none is absent, the VAT rule
      decides. */
  function CheckPaymentParam(p: PaymentRequestParam): (r: Outcome<Failure>)
    ensures !Complete(p) ==> r.Fail? && r.error.InvalidParameter? && r.error.field in PAYMENT_FIELD_ORDER
    ensures Complete(p) ==> r == CheckVat(p.paymentPrice.value, p.vat)
  {
    if Missing(p.cardNumber) then Fail(InvalidParameter("card number"))
    else if Missing(p.expirationDate) then Fail(InvalidParameter("expiration date"))
    else if Missing(p.cvc) then Fail(InvalidParameter("cvc"))
    else if Missing(p.installmentMonths) then Fail(InvalidParameter("installment months"))
    else if p.paymentPrice.None? then Fail(InvalidParameter("payment price"))
    else CheckVat(p.paymentPrice.value, p.vat)
  }

  /** Fail-fast: the validator names field k exactly when field k is the first absent one. */
  lemma PaymentFailFast(p: PaymentRequestParam, k: int)
    requires 0 <= k < |PAYMENT_FIELD_ORDER|
    ensures CheckPaymentParam(p) == Fail(InvalidParameter(PAYMENT_FIELD_ORDER[k]))
            <==> FirstAbsent(PaymentPresence(p), k)
  {
    var present := PaymentPresence(p);
    var r := CheckPaymentParam(p);
    assert |PAYMENT_FIELD_ORDER[k]| == [11, 15, 3, 18, 13][k];
    if k == 0 {
    } else if k == 1 {
      assert FirstAbsent(present, k) <==> present[0] && !present[1];
    } else if k == 2 {
      assert FirstAbsent(present, k) <==> present[0] && present[1] && !present[2];
    } else if k == 3 {
      assert FirstAbsent(present, k) <==> present[0] && present[1] && present[2] && !present[3];
    } else {
      assert FirstAbsent(present, k) <==>
        present[0] && present[1] && present[2] && present[3] && !present[4];
    }
  }

  /** Reports a missing id; otherwise the VAT rule decides. The cancel price is a
      primitive and always present, so its guard never fires. */
  function CheckCancelParam(c: CancelRequestParam): (r: Outcome<Failure>)
    ensures r == Fail(InvalidParameter("id")) <==> Missing(c.id)
    ensures !Missing(c.id) ==> r == CheckVat(c.cancelPrice, c.vat)
  {
    if Missing(c.id) then Fail(InvalidParameter("id"))
    else CheckVat(c.cancelPrice, c.vat)
  }

  /** The "cancel price" error is never raised. */
  lemma CancelPriceNeverReported(c: CancelRequestParam)
    ensures CheckCancelParam(c) != Fail(InvalidParameter("cancel price"))
  {
  }

  /** A VAT equal to the price passes and a VAT one above it is rejected, whatever
      the price's decimal text. */
  lemma VatBoundary(price: int)
    requires IsInt32(price) && IsInt32(price + 1)
    ensures CheckVat(price, Some(ValueOf(price))) == Pass
    ensures CheckVat(price, Some(ValueOf(price + 1))) == Fail(InvalidParameter("vat"))
  {
    ParseValueOf(price);
    ParseValueOf(price + 1);
  }

  /** A VAT text that is not a number is a parse error, not an invalid parameter. */
  lemma VatNotANumber(price: int)
    ensures CheckVat(price, Some("ten")) == Fail(NumberFormat("ten"))
    ensures CheckVat(price, Some("")) == Fail(NumberFormat(""))
  {
  }
}
