/** `dataEncryption`: frames card number, expiry and cvc as one delimited text and
    hands it to the external cipher. The cipher is a parameter, as it is code
    outside this core. */
module CardData {
  import opened Text
  import opened Params

  const DELIMITER: char := '|'

  /** `card + "|" + expiry + "|" + cvc`. */
  function CardDataFrame(cardNumber: string, expirationDate: string, cvc: string): (plain: string)
    ensures |plain| == |cardNumber| + |expirationDate| + |cvc| + 2
    ensures plain[..|cardNumber|] == cardNumber
    ensures plain[|cardNumber|] == DELIMITER
    ensures plain[|cardNumber| + 1..|cardNumber| + 1 + |expirationDate|] == expirationDate
    ensures plain[|cardNumber| + 1 + |expirationDate|] == DELIMITER
    ensures plain[|cardNumber| + |expirationDate| + 2..] == cvc
  {
    cardNumber + [DELIMITER] + expirationDate + [DELIMITER] + cvc
  }

  /** The cipher receives exactly the framed card data and the password, and its
      output is returned unchanged. Null card fields would throw before the cipher
      runs, so they must be present. */
  function DataEncryption(p: PaymentRequestParam, password: string,
                          encrypt: (string, string) -> string): (cipher: string)
    requires p.cardNumber.Some? && p.expirationDate.Some? && p.cvc.Some?
    ensures cipher == encrypt(CardDataFrame(p.cardNumber.value, p.expirationDate.value, p.cvc.value), password)
  {
    var plain := CardDataFrame(p.cardNumber.value, p.expirationDate.value, p.cvc.value);
    encrypt(plain, password)
  }

  /** When no field holds the delimiter, splitting the frame gives back the three fields. */
  lemma FrameSplits(cardNumber: string, expirationDate: string, cvc: string)
    requires DELIMITER !in cardNumber && DELIMITER !in expirationDate && DELIMITER !in cvc
    ensures Split(CardDataFrame(cardNumber, expirationDate, cvc), DELIMITER)
            == [cardNumber, expirationDate, cvc]
  {
    var tail := expirationDate + [DELIMITER] + cvc;
    assert CardDataFrame(cardNumber, expirationDate, cvc) == cardNumber + [DELIMITER] + tail;
    SplitAtDelimiter(cardNumber, DELIMITER, tail);
    SplitAtDelimiter(expirationDate, DELIMITER, cvc);
    SplitNoDelimiter(cvc, DELIMITER);
  }

  /** Delimiter-free card data is recoverable from its frame: two frames are equal only
      when their fields are. */
  lemma FrameInjective(c1: string, e1: string, v1: string, c2: string, e2: string, v2: string)
    requires DELIMITER !in c1 && DELIMITER !in e1 && DELIMITER !in v1
    requires DELIMITER !in c2 && DELIMITER !in e2 && DELIMITER !in v2
    requires CardDataFrame(c1, e1, v1) == CardDataFrame(c2, e2, v2)
    ensures c1 == c2 && e1 == e2 && v1 == v2
  {
    FrameSplits(c1, e1, v1);
    FrameSplits(c2, e2, v2);
  }
}
