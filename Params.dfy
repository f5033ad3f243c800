/** The request and entity types whose getters CommonFunction calls, and the
    exceptions it raises. A Java `String` that may be null is an `Option<string>`. */
module Params {
  import opened Wrappers

  /** The payment request: card data, installment months, price and optional VAT text.
      The price is a boxed number and may be null. */
  datatype PaymentRequestParam = PaymentRequestParam(
    cardNumber: Option<string>,
    expirationDate: Option<string>,
    cvc: Option<string>,
    installmentMonths: Option<string>,
    paymentPrice: Option<int>,
    vat: Option<string>)

  /** The cancel request: transaction id, cancel price (a primitive `long`, never null)
      and optional VAT text. */
  datatype CancelRequestParam = CancelRequestParam(
    id: Option<string>,
    cancelPrice: int,
    vat: Option<string>)

  /** The stored payment a cancellation refers to: its management number, installment
      months, price, VAT and the encrypted card data. */
  datatype Payment = Payment(
    id: string,
    installmentMonths: string,
    paymentPrice: int,
    vat: int,
    data: string)

  /** `InvalidParameterException(field)` and the `NumberFormatException` of a bad VAT text. */
  datatype Failure = InvalidParameter(field: string) | NumberFormat(input: string)
}
