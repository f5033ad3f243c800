# Card-payment request helpers (`CommonFunction`)

A Dafny model of the static helpers a card-payment API runs before it hands a
request to the card company. It covers:

- the two fail-fast request validators;
- the VAT derivation;
- the framing of the card data handed to the cipher;
- the display mask for card numbers;
- the management-number generator;
- the two encoders of the 450-character positional record (payment and cancel).

Modules, leaf first:

- `Wrappers`: `Option`, `Result` and `Outcome`. A nullable Java reference becomes an `Option`, and an exception becomes the error side of a `Result` or `Outcome`.
- `Decimal`: `String.valueOf` of a number, and `Integer.parseInt` / `Integer.valueOf` as a parse that either gives a 32-bit value or fails.
- `Text`: `String.repeat` behind `Math.max(0, …)`, left and right padding, and their inverses: trimming, and splitting at a delimiter.
- `Params`: the getters of `PaymentRequestParam`, `CancelRequestParam` and `Payment` that the helpers call, plus the two exception kinds.
- `Validation`: `checkPaymentParam`, `checkCancelParam`, and the VAT rule that both share.
- `Vat`: `computeVat`.
- `CardData`: `dataEncryption`. The cipher is a function parameter.
- `Masking`: `stringMasking`. It is a method with a loop, proved against the function `Mask`.
- `UniqueId`: `generateUniqueId`, on a given UUID text, with base64url as in section 5 of RFC 4648.
- `Layout`: a fixed-width record as a list of fields. It states where each field lands and how long the record is.
- `Records`: `generatePaymentStringData` and `generateCancelStringData`. Each is a method that appends field after field and is proved equal to the layout. The module also has a reader of the record, as the partner of the encoders.

Where the code's comments or the fixed-width record layout disagree with what the code does, the model follows the code:

- `computeVat` divides in integer arithmetic before rounding, so 116 gives 10. See Findings.
- The encoders never reject an oversized field. The padding width is clamped at zero, so a long field is written whole. The record then grows past 450 characters, or keeps 450 characters while later fields move right. `Records.RecordLengthAlways` and `Records.OversizedCardShifts` state this.

## Model

| member | source | states |
|---|---|---|
| Validation.CheckVat | src/main/java/com/jiwon/payment/common/CommonFunction.java:38-44 | an absent VAT passes; a VAT text that is not a 32-bit decimal is a parse error, not an invalid parameter; a VAT above the price fails with "vat"; a VAT equal to the price passes |
| Validation.CheckPaymentParam | src/main/java/com/jiwon/payment/common/CommonFunction.java:16-45 | when a required field is absent, the result is an invalid-parameter error naming one of the five required fields; when all five are present, the VAT rule alone decides |
| Validation.PaymentFailFast | src/main/java/com/jiwon/payment/common/CommonFunction.java:16-36 | the validator names field k exactly when field k is the first absent one, in the order card number, expiration date, cvc, installment months, payment price; null and "" both count as absent |
| Validation.CheckCancelParam | src/main/java/com/jiwon/payment/common/CommonFunction.java:48-65 | the "id" error is raised exactly when the id is null or empty; otherwise the shared VAT rule decides against the cancel price |
| Validation.CancelPriceNeverReported | src/main/java/com/jiwon/payment/controller/parameter/CancelRequestParam.java:15 | the "cancel price" error can never be raised, because the cancel price is a primitive `long` |
| Validation.VatBoundary | src/main/java/com/jiwon/payment/common/CommonFunction.java:39-44 | for every price, a VAT written as that price passes and a VAT one above it fails with "vat" |
| Validation.VatNotANumber | src/main/java/com/jiwon/payment/common/CommonFunction.java:40 | a non-numeric or empty VAT text is a number-format error |
| Vat.ComputeVat | src/main/java/com/jiwon/payment/common/CommonFunction.java:77-85 | with no VAT text, the result is the price divided by 11, truncated toward zero (0 ≤ price − 11·r < 11 for a non-negative price); with a VAT text, the result is its parsed value, or a number-format error when it does not parse |
| Vat.ComputeVatEchoes | src/main/java/com/jiwon/payment/common/CommonFunction.java:82-84 | a supplied VAT comes back verbatim for every price; it is never compared with the price here |
| Vat.ValidatedVatWithinPrice | src/main/java/com/jiwon/payment/common/CommonFunction.java:77-85 | once the VAT rule has passed on a non-negative price, the derived or supplied VAT does not exceed the price |
| Vat.VatExamples | src/main/java/com/jiwon/payment/common/CommonFunction.java:77-85 | 110 and 110000 without VAT give 10 and 10000; a supplied "5" gives 5 |
| Vat.VatTruncates | src/main/java/com/jiwon/payment/common/CommonFunction.java:80 | 116 without VAT gives 10, while rounding to the nearest gives 11 |
| Vat.RoundedVat | src/main/java/com/jiwon/payment/common/CommonFunction.java:78 | the rounding the comment promises: the result is within 5/11 of price / 11 (nearest integer) |
| CardData.CardDataFrame | src/main/java/com/jiwon/payment/common/CommonFunction.java:93 | the plaintext is card, '\|', expiry, '\|', cvc: its length is the three lengths plus 2, with each field and each delimiter at its position |
| CardData.DataEncryption | src/main/java/com/jiwon/payment/common/CommonFunction.java:88-97 | the cipher receives exactly the framed card data and the password, and its output is returned unchanged |
| CardData.FrameSplits | src/main/java/com/jiwon/payment/common/CommonFunction.java:93 | when no field contains '\|', splitting the plaintext at '\|' gives back the three fields |
| CardData.FrameInjective | src/main/java/com/jiwon/payment/common/CommonFunction.java:93 | delimiter-free card data is determined by its plaintext |
| Masking.Mask | src/main/java/com/jiwon/payment/common/CommonFunction.java:100-120 | the result has the input's length; a text of at most 9 characters is unchanged; a longer one keeps its first 6 and last 3 characters and has '*' at every position between |
| Masking.MaskUnique | src/main/java/com/jiwon/payment/common/CommonFunction.java:100-120 | that description determines the masked text: any text that fits it is `Mask` of the input |
| Masking.MaskIdempotent | src/main/java/com/jiwon/payment/common/CommonFunction.java:100-120 | masking twice is the same as masking once |
| Masking.StringMasking | src/main/java/com/jiwon/payment/common/CommonFunction.java:100-120 | null comes back null; otherwise the builder loop produces a text that fits the mask description |
| Masking.MaskExamples | src/main/java/com/jiwon/payment/common/CommonFunction.java:100-120 | "4111111111111111" → "411111*******111", a 13-character text gets 4 stars, a 10-character text gets one, a 5-character text is unchanged |
| UniqueId.Encode | src/main/java/com/jiwon/payment/common/CommonFunction.java:70 | base64url with padding turns n bytes into 4·⌈n/3⌉ symbols |
| UniqueId.EncodePrefix | src/main/java/com/jiwon/payment/common/CommonFunction.java:70-73 | the first 4k symbols are the encoding of the first 3k bytes, all from the base64url alphabet |
| UniqueId.GenerateUniqueId | src/main/java/com/jiwon/payment/common/CommonFunction.java:68-74 | the management number is always 20 base64url symbols with no padding; it is the encoding of the first 15 characters of the UUID text |
| UniqueId.IdDependsOnFirst15 | src/main/java/com/jiwon/payment/common/CommonFunction.java:69-73 | two UUIDs that agree on their first 15 characters get the same management number |
| Layout.FieldAt | src/main/java/com/jiwon/payment/common/CommonFunction.java:125-179 | a field stands at its nominal offset (the sum of the widths before it) whenever every earlier field takes exactly its width |
| Layout.FrameLength | src/main/java/com/jiwon/payment/common/CommonFunction.java:175-179 | the record is 450 characters or, when the fields take more, exactly the fields; the trailer is spaces |
| Text.RightPadShape | src/main/java/com/jiwon/payment/common/CommonFunction.java:133-136 | a right-padded text starts with the text itself and has only the fill character after it |
| Text.LeftPadShape | src/main/java/com/jiwon/payment/common/CommonFunction.java:150-161 | a left-padded text ends with the text itself and has only the fill character before it |
| Records.RecordLayout | src/main/java/com/jiwon/payment/common/CommonFunction.java:123-181 | a well-sized record is exactly 450 characters, as follows: tag [0,14), management number [14,34), card right-padded with spaces [34,54), months [54,56), expiry [56,60), cvc [60,63), amount left-padded with spaces [63,73), VAT left-padded with '0' [73,83), origin [83,103), ciphertext right-padded with spaces [103,403), spaces [403,450) |
| Records.RecordLengthAlways | src/main/java/com/jiwon/payment/common/CommonFunction.java:133 | the record length is max(450, the characters the fields actually take); nothing is truncated or rejected |
| Records.OversizedCardShifts | src/main/java/com/jiwon/payment/common/CommonFunction.java:130-136 | a 21- to 67-character card number still gives 450 characters, but the installment months move to offset 34 + card length |
| Records.DecodeEncode | src/main/java/com/jiwon/payment/common/CommonFunction.java:123-181 | reading a well-sized record at the fixed offsets gives back every field, when the amounts are non-negative and the card number and ciphertext do not end in a space |
| Records.CancelCarriesPayment | src/main/java/com/jiwon/payment/common/CommonFunction.java:185-241 | a cancel record carries the stored payment's installment months, id and ciphertext at their offsets; reading it gives back that payment's price (not a cancel price), VAT and ciphertext |
| Records.GeneratePaymentStringData | src/main/java/com/jiwon/payment/common/CommonFunction.java:123-182 | the text appended step by step is the layout of the payment record: tag " 446PAYMENT   ", 20 spaces as origin; its length is max(450, actual size); a well-sized request gives 450 characters with the management number at [14,34) |
| Records.GenerateCancelStringData | src/main/java/com/jiwon/payment/common/CommonFunction.java:185-242 | the same for the cancel record: tag " 446CANCEL    ", with months, amount, VAT, origin (the payment's id) and ciphertext taken from the stored payment |
| Records.EncodeChecked | src/main/java/com/jiwon/payment/common/CommonFunction.java:175-179 | the encoding with a size check: it refuses exactly the records that are not well sized, and what it returns is the record layout itself: 450 characters, with the management number at [14,34), the installment months at [54,56) and the origin at [83,103), and every other field where `Records.RecordLayout` places it |
| Decimal.ParseInt | src/main/java/com/jiwon/payment/common/CommonFunction.java:40 | `Integer.parseInt`: a result is a 32-bit value read from ASCII digits after at most one leading sign, with the digits giving its magnitude and a negative value only after '-'; every all-digit text up to 2^31 − 1, with or without a sign, parses; an empty text, a bare sign or any other character fails |
| Decimal.ValueOfShape | src/main/java/com/jiwon/payment/common/CommonFunction.java:148 | `String.valueOf`: a minus sign exactly for negative values, then the shortest decimal digits of the magnitude, with no leading zero except for 0 itself |
| Vat.JavaDiv | src/main/java/com/jiwon/payment/common/CommonFunction.java:80 | Java's `long` division truncates toward zero: for a non-negative dividend the remainder lies in [0, 11), for a negative one in (−11, 0] |
| Decimal.ParseValueOf | src/main/java/com/jiwon/payment/common/CommonFunction.java:83 | parsing the decimal text of any 32-bit number gives the number back |
| Decimal.DigitsLength | src/main/java/com/jiwon/payment/common/CommonFunction.java:148-150 | the decimal text of n has at most k characters exactly when n < 10^k, so an amount fits its 10 places exactly when it is below 10^10 |

## Left out

- Logging (`log.error`) is not modelled. It only logs, and changes nothing.
- The random UUID is not generated. The UUID text is a parameter of `UniqueId.GenerateUniqueId`, in the canonical lower-case 8-4-4-4-12 form. `getBytes()` is one byte per character, which holds for that ASCII text. In a random (version 4) UUID, the 15th character is always `4`. So the 20-character id carries only the 12 hex digits before it.
- `EncryptionService.encryptData` is not part of this model. It is the `encrypt` function parameter of `CardData.DataEncryption`. No bound on its output length is assumed: the 450-length lemmas take `|cipher| <= 300` as a precondition.
- `PaymentRequestParam.java`, `Payment.java` and `InvalidParameterException.java` are not part of this model. Their field types are assumed:
  - the payment price is a boxed, nullable number;
  - `Payment.getVat()` is a number rendered by `String.valueOf`;
  - the payment's id and data are non-null strings.
- `Validation.Missing`: Java's `x == ""` compares references. The model treats any empty text as missing, which is the evident intent. An empty string that is not the interned literal would pass the Java guard.
- `Vat.ComputeVat`: does not model `Math.round(float)` beyond quotients of magnitude 2^24. That is where a `long` quotient stops being exactly representable as a `float`. So the case without a VAT text requires |price / 11| ≤ 2^24. Java's truncating division is modelled, negative prices included.
- `Decimal.ParseInt`: accepts an optional `+` or `-` and ASCII digits only. Java's parse also accepts non-ASCII Unicode digits.
- `CardData.DataEncryption`: requires card number, expiry and cvc to be non-null. Java would throw `NullPointerException` there.
- `Records.GeneratePaymentStringData`: requires card number, installment months, expiry, cvc and price to be non-null. Java would throw `NullPointerException` on a null string, and for a null boxed price it would write the text "null". The validator runs before this encoder.
- `Records.GenerateCancelStringData`: takes the stored payment's fields as non-null. A null `Payment` field is not modelled.
- The record length is not enforced by the encoders, because the source does not enforce it. `Records.EncodeChecked` is the checked variant, and it is given beside them.
- A text is modelled as a sequence of Unicode code points, while Java's `length()` and `substring` count UTF-16 code units. Text outside the Basic Multilingual Plane is not modelled: Java counts two units for each such character, which shifts the masking positions in `stringMasking`, the padding widths in the encoders and the 450-unit record length. Lone surrogates are not modelled either. Card numbers, management numbers, amounts and base64 text are ASCII, where the two counts agree.
- `Text.Split` keeps empty pieces. Java's `String.split` drops trailing empty pieces, but no core function splits: the split only serves to state what the frame lets a reader recover.
- The string builder in `stringMasking` and the repeated `concat` calls in the encoders are modelled as a local `string` accumulator. No object is shared, so nothing about aliasing is lost.

## Findings

| source | as written | input that shows it | evidently intended | confidence | as-written member | corrected member |
|---|---|---|---|---|---|---|
| src/main/java/com/jiwon/payment/common/CommonFunction.java:80 | `Math.round(price / 11)`: `price / 11` is `long` division, so the remainder is dropped before rounding | price 116, no VAT: 10 | the comment at line 78 asks for price / 11 rounded off: 10.54… gives 11 | high, not executed | `Vat.VatTruncates` | `Vat.RoundedVat` |
| src/main/java/com/jiwon/payment/common/CommonFunction.java:133 | the padding `Math.max(0, 20 - card_num_length)` lets a card number longer than 20 through whole | a 21-character card number: the record is still 450 characters, but the installment months sit at offset 55 instead of 54 | a record with every field at its fixed offset, which the comments at lines 127-177 lay out; a field that cannot fit is refused | medium, not executed | `Records.OversizedCardShifts` | `Records.EncodeChecked` |

Nothing else in this core consumes the derived VAT or the checked encoding. The encoders take the VAT as a parameter. So the model keeps the source's `computeVat` and encoders as written, and places each corrected member beside them with its intended property proved.
