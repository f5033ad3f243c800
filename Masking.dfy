/** `stringMasking`: the display form of a card number, with all but the first six
    and the last three characters replaced by '*'. */
module Masking {
  import opened Wrappers
  import opened Text

  const KEEP_HEAD: nat := 6
  const KEEP_TAIL: nat := 3
  const MASK_CHAR: char := '*'

  /** `r` is the display form of `s`: texts of at most 9 characters are shown whole;
      longer ones keep their length, their first 6 and last 3 characters, and have
      '*' everywhere between. */
  predicate IsMaskOf(s: string, r: string)
  {
    && |r| == |s|
    && (|s| <= KEEP_HEAD + KEEP_TAIL ==> r == s)
    && (|s| > KEEP_HEAD + KEEP_TAIL ==>
          && r[..KEEP_HEAD] == s[..KEEP_HEAD]
          && r[|s| - KEEP_TAIL..] == s[|s| - KEEP_TAIL..]
          && forall i :: KEEP_HEAD <= i < |s| - KEEP_TAIL ==> r[i] == MASK_CHAR)
  }

  /** The masked text as a value. */
  function Mask(s: string): (r: string)
    ensures IsMaskOf(s, r)
  {
    if |s| <= KEEP_HEAD + KEEP_TAIL then s
    else s[..KEEP_HEAD] + Fill(MASK_CHAR, |s| - KEEP_HEAD - KEEP_TAIL) + s[|s| - KEEP_TAIL..]
  }

  /** The description determines the masked text: Mask is the only text that fits it. */
  lemma MaskUnique(s: string, r: string)
    requires IsMaskOf(s, r)
    ensures r == Mask(s)
  {
    if |s| > KEEP_HEAD + KEEP_TAIL {
      var m := Mask(s);
      forall i | 0 <= i < |s|
        ensures r[i] == m[i]
      {
        if i < KEEP_HEAD {
          assert r[i] == r[..KEEP_HEAD][i] && m[i] == m[..KEEP_HEAD][i];
        } else if i >= |s| - KEEP_TAIL {
          assert r[i] == r[|s| - KEEP_TAIL..][i - (|s| - KEEP_TAIL)];
          assert m[i] == m[|s| - KEEP_TAIL..][i - (|s| - KEEP_TAIL)];
        }
      }
    }
  }

  /** Masking a masked text changes nothing. */
  lemma MaskIdempotent(s: string)
    ensures Mask(Mask(s)) == Mask(s)
  {
    var m := Mask(s);
    if |s| > KEEP_HEAD + KEEP_TAIL {
      assert m[..KEEP_HEAD] == s[..KEEP_HEAD];
      assert m[|m| - KEEP_TAIL..] == s[|s| - KEEP_TAIL..];
      MaskUnique(m, m);
    }
  }

  /** `stringMasking`: null and texts of at most 9 characters come back unchanged;
      otherwise the head is copied, one '*' is appended per middle position, and the
      tail is copied. */
  method StringMasking(original: Option<string>) returns (masked: Option<string>)
    ensures original.None? ==> masked.None?
    ensures original.Some? ==> masked.Some? && IsMaskOf(original.value, masked.value)
  {
    if original.None? || |original.value| <= KEEP_HEAD + KEEP_TAIL {
      return original;
    }
    var s := original.value;
    var length := |s|;
    var builder := s[..KEEP_HEAD];
    var i := KEEP_HEAD;
    while i < length - KEEP_TAIL
      invariant KEEP_HEAD <= i <= length - KEEP_TAIL
      invariant |builder| == i
      invariant builder[..KEEP_HEAD] == s[..KEEP_HEAD]
      invariant forall j :: KEEP_HEAD <= j < i ==> builder[j] == MASK_CHAR
    {
      builder := builder + [MASK_CHAR];
      i := i + 1;
    }
    builder := builder + s[length - KEEP_TAIL..];
    masked := Some(builder);
  }

  /** A 16-digit card number, a 13-character text, a 10-character text (one star)
      and a 5-character text. */
  lemma MaskExamples()
    ensures Mask("4111111111111111") == "411111*******111"
    ensures Mask("1234567890123") == "123456****123"
    ensures Mask("1234567890") == "123456*890"
    ensures Mask("12345") == "12345"
  {
    MaskUnique("4111111111111111", "411111*******111");
    MaskUnique("1234567890123", "123456****123");
    MaskUnique("1234567890", "123456*890");
  }
}
