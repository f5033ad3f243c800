/** `generatePaymentStringData` and `generateCancelStringData`: the 450-character
    positional record sent to the card company. */
module Records {
  import opened Wrappers
  import opened Decimal
  import opened Text
  import opened Params
  import opened Layout

  const PAYMENT_TAG: string := " 446PAYMENT   "
  const CANCEL_TAG: string := " 446CANCEL    "

  const TAG_WIDTH: nat := 14
  const MANAGE_NUM_WIDTH: nat := 20
  const CARD_WIDTH: nat := 20
  const MONTHS_WIDTH: nat := 2
  const EXPIRY_WIDTH: nat := 4
  const CVC_WIDTH: nat := 3
  const AMOUNT_WIDTH: nat := 10
  const VAT_WIDTH: nat := 10
  const ORIGIN_WIDTH: nat := 20
  const CIPHER_WIDTH: nat := 300
  const TRAILER_WIDTH: nat := 47

  /** What a record carries, field by field, before it is laid out. */
  datatype Record = Record(
    tag: string,
    manageNum: string,
    cardNumber: string,
    installmentMonths: string,
    expirationDate: string,
    cvc: string,
    amount: int,
    vat: int,
    originManageNum: string,
    cipher: string)

  /** The field list of both encoders: the card number and the ciphertext are padded on
      the right with spaces, the amount on the left with spaces, the VAT on the left
      with '0'; every other field is written as it is. */
  function Fields(r: Record): (fs: seq<Field>)
    ensures |fs| == 10
  {
    [ Field(r.tag, TAG_WIDTH, Fixed),
      Field(r.manageNum, MANAGE_NUM_WIDTH, Fixed),
      Field(r.cardNumber, CARD_WIDTH, PadRight(' ')),
      Field(r.installmentMonths, MONTHS_WIDTH, Fixed),
      Field(r.expirationDate, EXPIRY_WIDTH, Fixed),
      Field(r.cvc, CVC_WIDTH, Fixed),
      Field(ValueOf(r.amount), AMOUNT_WIDTH, PadLeft(' ')),
      Field(ValueOf(r.vat), VAT_WIDTH, PadLeft('0')),
      Field(r.originManageNum, ORIGIN_WIDTH, Fixed),
      Field(r.cipher, CIPHER_WIDTH, PadRight(' ')) ]
  }

  /** The record text: the fields, then the space trailer. */
  function EncodeRecord(r: Record): (s: string)
  {
    Frame(Fields(r))
  }

  /** The request fields a payment record is built from; the origin is 20 spaces. */
  function PaymentRecord(p: PaymentRequestParam, manageNum: string, vatPrice: int, encryptData: string): (r: Record)
    requires p.cardNumber.Some? && p.installmentMonths.Some? && p.expirationDate.Some?
    requires p.cvc.Some? && p.paymentPrice.Some?
  {
    Record(PAYMENT_TAG, manageNum, p.cardNumber.value, p.installmentMonths.value,
           p.expirationDate.value, p.cvc.value, p.paymentPrice.value, vatPrice,
           Fill(' ', Max0(ORIGIN_WIDTH)), encryptData)
  }

  /** A cancel record: the card data is passed in, while the installment months, the
      amount (the original payment price), the VAT, the origin (the payment's id) and
      the ciphertext all come from the stored payment. */
  function CancelRecord(payment: Payment, manageNum: string, cardNumber: string,
                        expirationDate: string, cvc: string): (r: Record)
  {
    Record(CANCEL_TAG, manageNum, cardNumber, payment.installmentMonths, expirationDate, cvc,
           payment.paymentPrice, payment.vat, payment.id, payment.data)
  }

  /** Every field takes exactly its width. */
  predicate WellSized(r: Record)
  {
    && |r.tag| == TAG_WIDTH
    && |r.manageNum| == MANAGE_NUM_WIDTH
    && |r.cardNumber| <= CARD_WIDTH
    && |r.installmentMonths| == MONTHS_WIDTH
    && |r.expirationDate| == EXPIRY_WIDTH
    && |r.cvc| == CVC_WIDTH
    && |ValueOf(r.amount)| <= AMOUNT_WIDTH
    && |ValueOf(r.vat)| <= VAT_WIDTH
    && |r.originManageNum| == ORIGIN_WIDTH
    && |r.cipher| <= CIPHER_WIDTH
  }

  /** The nominal offsets 0, 14, 34, 54, 56, 60, 63, 73, 83, 103 and the end at 403. */
  lemma Offsets(r: Record)
    ensures Offset(Fields(r), 1) == 14 && Offset(Fields(r), 2) == 34
    ensures Offset(Fields(r), 3) == 54 && Offset(Fields(r), 4) == 56
    ensures Offset(Fields(r), 5) == 60 && Offset(Fields(r), 6) == 63
    ensures Offset(Fields(r), 7) == 73 && Offset(Fields(r), 8) == 83
    ensures Offset(Fields(r), 9) == 103 && Offset(Fields(r), 10) == 403
  {
    var fs := Fields(r);
    assert Offset(fs, 1) == 14;
    assert Offset(fs, 2) == 34;
    assert Offset(fs, 3) == 54;
    assert Offset(fs, 4) == 56;
    assert Offset(fs, 5) == 60;
    assert Offset(fs, 6) == 63;
    assert Offset(fs, 7) == 73;
    assert Offset(fs, 8) == 83;
    assert Offset(fs, 9) == 103;
  }

  lemma WellSizedFits(r: Record)
    requires WellSized(r)
    ensures forall i :: 0 <= i < |Fields(r)| ==> Fits(Fields(r)[i])
  {
  }

  /** Field k of a well-sized record fills [Offset(k), Offset(k) + width). */
  lemma FieldSlice(r: Record, k: nat)
    requires WellSized(r) && k < 10
    ensures Offset(Fields(r), k) + Fields(r)[k].width <= |EncodeRecord(r)|
    ensures EncodeRecord(r)[Offset(Fields(r), k)..Offset(Fields(r), k) + Fields(r)[k].width]
            == Render(Fields(r)[k])
  {
    WellSizedFits(r);
    FieldAt(Fields(r), k);
  }

  lemma RecordLength(r: Record)
    requires WellSized(r)
    ensures |EncodeRecord(r)| == RECORD_LENGTH
    ensures EncodeRecord(r)[403..] == Fill(' ', TRAILER_WIDTH)
  {
    var fs := Fields(r);
    WellSizedFits(r);
    Offsets(r);
    FittingSpan(fs, 10);
    FrameLength(fs);
  }

  lemma LeadingFields(r: Record)
    requires WellSized(r)
    ensures |EncodeRecord(r)| >= 60
    ensures EncodeRecord(r)[0..14] == r.tag
    ensures EncodeRecord(r)[14..34] == r.manageNum
    ensures EncodeRecord(r)[34..54] == RightPad(r.cardNumber, CARD_WIDTH, ' ')
    ensures EncodeRecord(r)[54..56] == r.installmentMonths
    ensures EncodeRecord(r)[56..60] == r.expirationDate
  {
    Offsets(r);
    FieldSlice(r, 0);
    FieldSlice(r, 1);
    FieldSlice(r, 2);
    FieldSlice(r, 3);
    FieldSlice(r, 4);
  }

  lemma TrailingFields(r: Record)
    requires WellSized(r)
    ensures |EncodeRecord(r)| >= 403
    ensures EncodeRecord(r)[60..63] == r.cvc
    ensures EncodeRecord(r)[63..73] == LeftPad(ValueOf(r.amount), AMOUNT_WIDTH, ' ')
    ensures EncodeRecord(r)[73..83] == LeftPad(ValueOf(r.vat), VAT_WIDTH, '0')
    ensures EncodeRecord(r)[83..103] == r.originManageNum
    ensures EncodeRecord(r)[103..403] == RightPad(r.cipher, CIPHER_WIDTH, ' ')
  {
    Offsets(r);
    FieldSlice(r, 5);
    FieldSlice(r, 6);
    FieldSlice(r, 7);
    FieldSlice(r, 8);
    FieldSlice(r, 9);
  }

  /** A well-sized record is exactly 450 characters, with every field at its offset. */
  lemma RecordLayout(r: Record)
    requires WellSized(r)
    ensures |EncodeRecord(r)| == RECORD_LENGTH
    ensures EncodeRecord(r)[0..14] == r.tag
    ensures EncodeRecord(r)[14..34] == r.manageNum
    ensures EncodeRecord(r)[34..54] == RightPad(r.cardNumber, CARD_WIDTH, ' ')
    ensures EncodeRecord(r)[54..56] == r.installmentMonths
    ensures EncodeRecord(r)[56..60] == r.expirationDate
    ensures EncodeRecord(r)[60..63] == r.cvc
    ensures EncodeRecord(r)[63..73] == LeftPad(ValueOf(r.amount), AMOUNT_WIDTH, ' ')
    ensures EncodeRecord(r)[73..83] == LeftPad(ValueOf(r.vat), VAT_WIDTH, '0')
    ensures EncodeRecord(r)[83..103] == r.originManageNum
    ensures EncodeRecord(r)[103..403] == RightPad(r.cipher, CIPHER_WIDTH, ' ')
    ensures EncodeRecord(r)[403..] == Fill(' ', TRAILER_WIDTH)
  {
    RecordLength(r);
    LeadingFields(r);
    TrailingFields(r);
  }

  function Max(a: int, b: int): (m: int)
  {
    if a < b then b else a
  }

  /** The characters the fields actually take: a padded field takes its width or its
      content's length, whichever is larger. */
  function RecordSize(r: Record): (n: nat)
  {
    |r.tag| + |r.manageNum| + Max(CARD_WIDTH, |r.cardNumber|) + |r.installmentMonths|
    + |r.expirationDate| + |r.cvc| + Max(AMOUNT_WIDTH, |ValueOf(r.amount)|)
    + Max(VAT_WIDTH, |ValueOf(r.vat)|) + |r.originManageNum| + Max(CIPHER_WIDTH, |r.cipher|)
  }

  lemma FieldsSpan(r: Record)
    ensures Span(Fields(r), 10) == RecordSize(r)
  {
    var fs := Fields(r);
    assert Span(fs, 1) == |r.tag|;
    assert Span(fs, 2) == Span(fs, 1) + |r.manageNum|;
    assert Span(fs, 3) == Span(fs, 2) + Max(CARD_WIDTH, |r.cardNumber|);
    assert Span(fs, 4) == Span(fs, 3) + |r.installmentMonths|;
    assert Span(fs, 5) == Span(fs, 4) + |r.expirationDate|;
    assert Span(fs, 6) == Span(fs, 5) + |r.cvc|;
    assert Span(fs, 7) == Span(fs, 6) + Max(AMOUNT_WIDTH, |ValueOf(r.amount)|);
    assert Span(fs, 8) == Span(fs, 7) + Max(VAT_WIDTH, |ValueOf(r.vat)|);
    assert Span(fs, 9) == Span(fs, 8) + |r.originManageNum|;
  }

  /** Nothing is truncated and nothing is rejected: the record is 450 characters, or
      longer when the fields take more than 450. */
  lemma RecordLengthAlways(r: Record)
    ensures |EncodeRecord(r)| == Max(RECORD_LENGTH, RecordSize(r))
  {
    FieldsSpan(r);
    FrameLength(Fields(r));
  }

  /** A card number of 21 to 67 characters in an otherwise well-sized record still
      gives 450 characters, but every field after the card moves right: the
      installment months no longer stand at offset 54. */
  lemma OversizedCardShifts(r: Record)
    requires WellSized(r.(cardNumber := []))
    requires CARD_WIDTH < |r.cardNumber| <= CARD_WIDTH + TRAILER_WIDTH
    ensures |EncodeRecord(r)| == RECORD_LENGTH
    ensures EncodeRecord(r)[34 + |r.cardNumber|..36 + |r.cardNumber|] == r.installmentMonths
  {
    OversizedSize(r);
    RecordLengthAlways(r);
    var fs := Fields(r);
    OversizedSpan(r);
    ConcatFieldAt(fs, 3);
    FrameSlice(fs, 34 + |r.cardNumber|, 36 + |r.cardNumber|);
  }

  lemma OversizedSize(r: Record)
    requires WellSized(r.(cardNumber := []))
    requires CARD_WIDTH < |r.cardNumber| <= CARD_WIDTH + TRAILER_WIDTH
    ensures RecordSize(r) <= RECORD_LENGTH
  {
    assert |ValueOf(r.amount)| <= AMOUNT_WIDTH && |ValueOf(r.vat)| <= VAT_WIDTH;
  }

  lemma OversizedSpan(r: Record)
    requires WellSized(r.(cardNumber := []))
    requires CARD_WIDTH < |r.cardNumber|
    ensures Span(Fields(r), 3) == 34 + |r.cardNumber|
    ensures Render(Fields(r)[3]) == r.installmentMonths
  {
    var fs := Fields(r);
    assert Span(fs, 1) == 14;
    assert Span(fs, 2) == 34;
  }

  predicate NoTrailingSpace(s: string)
  {
    s == [] || s[|s| - 1] != ' '
  }

  /** How the card company reads a record: fields at their fixed offsets, the padding
      of the card number, amount and ciphertext stripped, amount and VAT read as
      decimals. */
  function DecodeRecord(s: string): (r: Option<Record>)
  {
    if |s| != RECORD_LENGTH then None
    else
      var amountText := TrimLeft(s[63..73]);
      var vatText := s[73..83];
      if amountText == [] || !AllDigits(amountText) || !AllDigits(vatText) then None
      else Some(Record(s[0..14], s[14..34], TrimRight(s[34..54]), s[54..56], s[56..60], s[60..63],
                       DigitsValue(amountText), DigitsValue(vatText), s[83..103],
                       TrimRight(s[103..403])))
  }

  /** Records the reader can take apart: well sized, non-negative amounts, and no
      trailing space in the card number or the ciphertext (padding would swallow it). */
  predicate Decodable(r: Record)
  {
    && WellSized(r) && r.amount >= 0 && r.vat >= 0
    && NoTrailingSpace(r.cardNumber) && NoTrailingSpace(r.cipher)
  }

  /** Reading an encoded record gives back every field. */
  lemma DecodeEncode(r: Record)
    requires Decodable(r)
    ensures DecodeRecord(EncodeRecord(r)) == Some(r)
  {
    RecordLayout(r);
    var s := EncodeRecord(r);
    TrimRightPad(r.cardNumber, CARD_WIDTH);
    TrimRightPad(r.cipher, CIPHER_WIDTH);
    TrimLeftPad(ValueOf(r.amount), AMOUNT_WIDTH);
    DigitsRoundTrip(r.amount);
    DigitsRoundTrip(r.vat);
    var zeros := Fill('0', Max0(VAT_WIDTH - |ValueOf(r.vat)|));
    LeadingZeros(zeros, ValueOf(r.vat));
    assert s[73..83] == zeros + ValueOf(r.vat);
  }

  /** A cancel record reproduces the stored payment's installment months, price, VAT,
      id and ciphertext at their offsets, and the reader gets them back verbatim. */
  lemma CancelCarriesPayment(payment: Payment, manageNum: string, cardNumber: string,
                             expirationDate: string, cvc: string)
    requires Decodable(CancelRecord(payment, manageNum, cardNumber, expirationDate, cvc))
    ensures var s := EncodeRecord(CancelRecord(payment, manageNum, cardNumber, expirationDate, cvc));
      && s[54..56] == payment.installmentMonths
      && s[83..103] == payment.id
      && s[103..403] == RightPad(payment.data, CIPHER_WIDTH, ' ')
      && DecodeRecord(s).Some?
      && DecodeRecord(s).value.amount == payment.paymentPrice
      && DecodeRecord(s).value.vat == payment.vat
      && DecodeRecord(s).value.cipher == payment.data
  {
    var r := CancelRecord(payment, manageNum, cardNumber, expirationDate, cvc);
    RecordLayout(r);
    DecodeEncode(r);
  }

  /** The first five fields as the encoders append them. */
  lemma WrittenHead(r: Record)
    ensures Written(Fields(r), 5) ==
      r.tag + r.manageNum + RightPad(r.cardNumber, CARD_WIDTH, ' ') + r.installmentMonths + r.expirationDate
  {
    var fs := Fields(r);
    assert Written(fs, 1) == r.tag;
    assert Written(fs, 2) == Written(fs, 1) + r.manageNum;
    assert Written(fs, 3) == Written(fs, 2) + RightPad(r.cardNumber, CARD_WIDTH, ' ');
    assert Written(fs, 4) == Written(fs, 3) + r.installmentMonths;
  }

  /** The last five fields as the encoders append them. */
  lemma WrittenTail(r: Record)
    ensures Written(Fields(r), 10) ==
      Written(Fields(r), 5) + r.cvc + LeftPad(ValueOf(r.amount), AMOUNT_WIDTH, ' ')
      + LeftPad(ValueOf(r.vat), VAT_WIDTH, '0') + r.originManageNum + RightPad(r.cipher, CIPHER_WIDTH, ' ')
  {
    var fs := Fields(r);
    assert Written(fs, 6) == Written(fs, 5) + r.cvc;
    assert Written(fs, 7) == Written(fs, 6) + LeftPad(ValueOf(r.amount), AMOUNT_WIDTH, ' ');
    assert Written(fs, 8) == Written(fs, 7) + LeftPad(ValueOf(r.vat), VAT_WIDTH, '0');
    assert Written(fs, 9) == Written(fs, 8) + r.originManageNum;
  }

  /** `data.concat(s).concat(align)` with `align` the fill up to `width`. */
  method AppendRightPadded(data: string, s: string, width: int, fill: char) returns (out: string)
    ensures out == data + RightPad(s, width, fill)
  {
    var align := Fill(fill, Max0(width - |s|));
    out := data + s;
    out := out + align;
    assert out == data + (s + align);
  }

  /** `data.concat(align).concat(s)` with `align` the fill up to `width`. */
  method AppendLeftPadded(data: string, s: string, width: int, fill: char) returns (out: string)
    ensures out == data + LeftPad(s, width, fill)
  {
    var align := Fill(fill, Max0(width - |s|));
    out := data + align;
    out := out + s;
    assert out == data + (align + s);
  }

  /** `generatePaymentStringData`: appends tag, management number, card number and its
      space padding, months, expiry, cvc, the amount's space padding and digits, the
      VAT's '0' padding and digits, 20 spaces, the ciphertext and its padding, and the
      trailer up to 450. */
  method GeneratePaymentStringData(p: PaymentRequestParam, manageNum: string, vatPrice: int,
                                   encryptData: string) returns (data: string)
    requires p.cardNumber.Some? && p.installmentMonths.Some? && p.expirationDate.Some?
    requires p.cvc.Some? && p.paymentPrice.Some?
    ensures data == EncodeRecord(PaymentRecord(p, manageNum, vatPrice, encryptData))
    ensures |data| == Max(RECORD_LENGTH, RecordSize(PaymentRecord(p, manageNum, vatPrice, encryptData)))
    ensures WellSized(PaymentRecord(p, manageNum, vatPrice, encryptData)) ==>
              |data| == RECORD_LENGTH && data[14..34] == manageNum
  {
    ghost var r := PaymentRecord(p, manageNum, vatPrice, encryptData);
    data := PAYMENT_TAG;
    data := data + manageNum;
    data := AppendRightPadded(data, p.cardNumber.value, CARD_WIDTH, ' ');
    data := data + p.installmentMonths.value;
    data := data + p.expirationDate.value;
    assert data == Written(Fields(r), 5) by { WrittenHead(r); }

    data := data + p.cvc.value;
    data := AppendLeftPadded(data, ValueOf(p.paymentPrice.value), AMOUNT_WIDTH, ' ');
    data := AppendLeftPadded(data, ValueOf(vatPrice), VAT_WIDTH, '0');
    var originManageNum := Fill(' ', Max0(ORIGIN_WIDTH));
    data := data + originManageNum;
    data := AppendRightPadded(data, encryptData, CIPHER_WIDTH, ' ');
    assert data == Written(Fields(r), 10) by { WrittenTail(r); }

    var totalAlign := Fill(TRAILER_FILL, Max0(RECORD_LENGTH - |data|));
    data := data + totalAlign;

    RecordLengthAlways(r);
    if WellSized(r) {
      RecordLayout(r);
    }
  }

  /** `generateCancelStringData`: the same layout, with the cancel tag, the card data
      passed in, and months, amount, VAT, origin and ciphertext from the stored payment. */
  method GenerateCancelStringData(payment: Payment, manageNum: string, cardNum: string,
                                  expireDate: string, cvc: string) returns (data: string)
    ensures data == EncodeRecord(CancelRecord(payment, manageNum, cardNum, expireDate, cvc))
    ensures |data| == Max(RECORD_LENGTH, RecordSize(CancelRecord(payment, manageNum, cardNum, expireDate, cvc)))
    ensures WellSized(CancelRecord(payment, manageNum, cardNum, expireDate, cvc)) ==>
              |data| == RECORD_LENGTH && data[14..34] == manageNum && data[83..103] == payment.id
  {
    ghost var r := CancelRecord(payment, manageNum, cardNum, expireDate, cvc);
    data := CANCEL_TAG;
    data := data + manageNum;
    data := AppendRightPadded(data, cardNum, CARD_WIDTH, ' ');
    data := data + payment.installmentMonths;
    data := data + expireDate;
    assert data == Written(Fields(r), 5) by { WrittenHead(r); }

    data := data + cvc;
    data := AppendLeftPadded(data, ValueOf(payment.paymentPrice), AMOUNT_WIDTH, ' ');
    data := AppendLeftPadded(data, ValueOf(payment.vat), VAT_WIDTH, '0');
    data := data + payment.id;
    data := AppendRightPadded(data, payment.data, CIPHER_WIDTH, ' ');
    assert data == Written(Fields(r), 10) by { WrittenTail(r); }

    var totalAlign := Fill(TRAILER_FILL, Max0(RECORD_LENGTH - |data|));
    data := data + totalAlign;

    RecordLengthAlways(r);
    if WellSized(r) {
      RecordLayout(r);
    }
  }

  /** The encoding with the size check the fixed layout needs: a record whose fields do
      not all take exactly their widths is refused instead of being written shifted. */
  function EncodeChecked(r: Record): (s: Option<string>)
    ensures s.Some? <==> WellSized(r)
    ensures s.Some? ==> s.value == EncodeRecord(r) && |s.value| == RECORD_LENGTH
    ensures s.Some? ==> s.value[14..34] == r.manageNum && s.value[54..56] == r.installmentMonths
    ensures s.Some? ==> s.value[83..103] == r.originManageNum
  {
    if WellSized(r) then
      RecordLayout(r);
      Some(EncodeRecord(r))
    else None
  }
}
