/** `generateUniqueId`: the management number, the first 20 characters of the
    base64url encoding (section 5 of RFC 4648, with padding) of a UUID's text.
    The random UUID is a parameter. */
module UniqueId {

  type Byte = x: int | 0 <= x < 256

  const BASE64URL_ALPHABET: string :=
    "ABCDEFGHIJKLMNOPQRSTUVWXYZabcdefghijklmnopqrstuvwxyz0123456789-_"
  const PAD: char := '='
  const ID_LENGTH: nat := 20
  const UUID_TEXT_LENGTH: nat := 36

  function Symbol(n: int): (c: char)
    requires 0 <= n < 64
    ensures c in BASE64URL_ALPHABET
  {
    BASE64URL_ALPHABET[n]
  }

  /** Three bytes as four symbols of six bits each. */
  function Group(b0: Byte, b1: Byte, b2: Byte): (r: string)
    ensures |r| == 4 && forall i :: 0 <= i < 4 ==> r[i] in BASE64URL_ALPHABET
  {
    [Symbol(b0 / 4), Symbol((b0 % 4) * 16 + b1 / 16), Symbol((b1 % 16) * 4 + b2 / 64), Symbol(b2 % 64)]
  }

  /** A final group of one or two bytes: the symbols its bits fill, then padding. */
  function FinalGroup(b: seq<Byte>): (r: string)
    requires 1 <= |b| <= 2
    ensures |r| == 4
  {
    if |b| == 1 then [Symbol(b[0] / 4), Symbol((b[0] % 4) * 16), PAD, PAD]
    else [Symbol(b[0] / 4), Symbol((b[0] % 4) * 16 + b[1] / 16), Symbol((b[1] % 16) * 4), PAD]
  }

  /** Base64url with '=' padding: each group of 3 bytes becomes 4 symbols; a final group
      of 1 or 2 bytes becomes 2 or 3 symbols and is padded to 4. */
  function Encode(b: seq<Byte>): (r: string)
    ensures |r| == 4 * ((|b| + 2) / 3)
    decreases |b|
  {
    if |b| == 0 then []
    else if |b| <= 2 then FinalGroup(b)
    else
      var rest := Encode(b[3..]);
      assert (|b| - 1) / 3 + 1 == (|b| + 2) / 3;
      Group(b[0], b[1], b[2]) + rest
  }

  /** The first 4k symbols encode the first 3k bytes, and nothing after them. */
  lemma {:induction false} EncodePrefix(b: seq<Byte>, k: nat)
    requires 3 * k <= |b|
    ensures |Encode(b[..3 * k])| == 4 * k
    ensures Encode(b)[..4 * k] == Encode(b[..3 * k])
    ensures forall i :: 0 <= i < 4 * k ==> Encode(b)[i] in BASE64URL_ALPHABET
  {
    if k > 0 {
      EncodePrefix(b[3..], k - 1);
      assert b[..3 * k][3..] == b[3..][..3 * (k - 1)];
      assert b[..3 * k][..3] == b[..3];
    }
  }

  predicate IsLowerHex(c: char)
  {
    '0' <= c <= '9' || 'a' <= c <= 'f'
  }

  /** `UUID.toString()`: 36 characters, hyphens at 8, 13, 18 and 23, lower-case hex elsewhere. */
  predicate IsUuidText(u: string)
  {
    |u| == UUID_TEXT_LENGTH && forall i :: 0 <= i < |u| ==> IsUuidChar(i, u[i])
  }

  predicate IsUuidChar(i: int, c: char)
  {
    if i == 8 || i == 13 || i == 18 || i == 23 then c == '-' else IsLowerHex(c)
  }

  predicate IsAscii(u: string)
  {
    forall i :: 0 <= i < |u| ==> u[i] as int < 128
  }

  /** `getBytes()` of an ASCII text: one byte per character. */
  function AsciiBytes(u: string): (b: seq<Byte>)
    requires IsAscii(u)
    ensures |b| == |u|
  {
    seq(|u|, i requires 0 <= i < |u| => u[i] as int)
  }

  lemma UuidIsAscii(u: string)
    requires IsUuidText(u)
    ensures IsAscii(u)
  {
    forall i | 0 <= i < |u|
      ensures u[i] as int < 128
    {
      assert IsUuidChar(i, u[i]);
    }
  }

  /** The management number is always 20 base64url symbols (no padding): the encoding
      of the first 15 characters of the UUID text (8 hex digits, a hyphen, 4 hex
      digits, a hyphen and the version digit); the rest of the UUID does not reach it. */
  function GenerateUniqueId(u: string): (id: string)
    requires IsUuidText(u)
    ensures |id| == ID_LENGTH
    ensures forall i :: 0 <= i < |id| ==> id[i] in BASE64URL_ALPHABET
    ensures IsAscii(u[..15]) && id == Encode(AsciiBytes(u[..15]))
  {
    UuidIsAscii(u);
    var bytes := AsciiBytes(u);
    EncodePrefix(bytes, 5);
    assert bytes[..15] == AsciiBytes(u[..15]);
    Encode(bytes)[..ID_LENGTH]
  }

  /** Two UUIDs that agree on their first 15 characters get the same management number. */
  lemma IdDependsOnFirst15(u: string, v: string)
    requires IsUuidText(u) && IsUuidText(v)
    requires u[..15] == v[..15]
    ensures GenerateUniqueId(u) == GenerateUniqueId(v)
  {
  }
}
