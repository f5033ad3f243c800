/** `computeVat`: the VAT of a payment, derived from the price when the caller gave
    none, otherwise parsed from the caller's text. */
module Vat {
  import opened Wrappers
  import opened Decimal
  import opened Params
  import Validation

  /** Java's `/` on `long`: the quotient is truncated toward zero. */
  function JavaDiv(a: int, b: int): (q: int)
    requires b > 0
    ensures a >= 0 ==> 0 <= a - b * q < b
    ensures a < 0 ==> -b < a - b * q <= 0
  {
    if a >= 0 then a / b else -((-a) / b)
  }

  /** `Math.round(float)` returns an integral float argument unchanged only while it is
      exactly representable, which every integer of magnitude up to 2^24 is. */
  const FLOAT_EXACT: int := 0x100_0000

  /** The VAT the record carries: with no VAT text, the price divided by 11 in integer
      arithmetic (the remainder is dropped before rounding, so nothing rounds up);
      with a VAT text, its parsed value, never compared with the price here. */
  function ComputeVat(price: int, vat: Option<string>): (r: Result<int, Failure>)
    requires vat.None? ==> -FLOAT_EXACT <= JavaDiv(price, 11) <= FLOAT_EXACT
    ensures vat.None? && price >= 0 ==> r.Ok? && 0 <= price - 11 * r.value < 11
    ensures vat.None? && price < 0 ==> r.Ok? && -11 < price - 11 * r.value <= 0
    ensures vat.Some? ==> (r.Ok? <==> ParseInt(vat.value).Some?)
    ensures vat.Some? && r.Ok? ==> ParseInt(vat.value) == Some(r.value)
    ensures vat.Some? && r.Err? ==> r.error == NumberFormat(vat.value)
  {
    match vat
    case None => Ok(JavaDiv(price, 11))
    case Some(s) =>
      match ParseInt(s)
      case None => Err(NumberFormat(s))
      case Some(v) => Ok(v)
  }

  /** A caller-supplied VAT comes back verbatim, whatever the price. */
  lemma ComputeVatEchoes(price: int, v: int)
    requires IsInt32(v)
    ensures ComputeVat(price, Some(ValueOf(v))) == Ok(v)
  {
    ParseValueOf(v);
  }

  /** After the VAT rule of the validators has passed on a non-negative price, the VAT
      the record will carry does not exceed the price. */
  lemma ValidatedVatWithinPrice(price: int, vat: Option<string>)
    requires 0 <= price <= 11 * FLOAT_EXACT
    requires Validation.CheckVat(price, vat) == Pass
    ensures ComputeVat(price, vat).Ok? && ComputeVat(price, vat).value <= price
  {
  }

  /** The rounding the comment at the derivation promises: price / 11 to the
      nearest integer (a price is never exactly halfway, as 11 is odd). */
  function RoundedVat(price: int): (r: int)
    requires price >= 0
    ensures -5 <= price - 11 * r <= 5
  {
    (price + 5) / 11
  }

  /** The derivation as written rounds 116 / 11 = 10.54… down to 10; rounding to
      the nearest gives 11. */
  lemma VatTruncates()
    ensures ComputeVat(116, None) == Ok(10)
    ensures RoundedVat(116) == 11
  {
  }

  /** The worked values: 110 and 116 both give 10, 110000 gives 10000, and a supplied
      "5" gives 5. */
  lemma VatExamples()
    ensures ComputeVat(110, None) == Ok(10)
    ensures ComputeVat(110000, None) == Ok(10000)
    ensures ComputeVat(100, Some("5")) == Ok(5)
  {
  }
}
