/** String helpers of the Java library that the encoders use: `String.repeat`
    behind `Math.max(0, …)`, padding, and the inverse operations a reader of a
    fixed-width record or of a delimited text applies. */
module Text {

  /** `Math.max(0, x)`. */
  function Max0(x: int): (r: nat)
    ensures r >= x && (r == 0 || r == x)
  {
    if x < 0 then 0 else x
  }

  /** `String.valueOf(c).repeat(n)`. */
  function Fill(c: char, n: nat): (r: string)
    ensures |r| == n && forall i :: 0 <= i < n ==> r[i] == c
  {
    seq(n, _ => c)
  }

  /** `s` followed by `c` up to `width`; an oversized `s` is kept whole. */
  function RightPad(s: string, width: int, c: char): (r: string)
    ensures |r| == if |s| < width then width else |s|
  {
    s + Fill(c, Max0(width - |s|))
  }

  /** `c` up to `width`, then `s`; an oversized `s` is kept whole. */
  function LeftPad(s: string, width: int, c: char): (r: string)
    ensures |r| == if |s| < width then width else |s|
  {
    Fill(c, Max0(width - |s|)) + s
  }

  /** RightPad keeps the text at the start and fills the rest with `c`. */
  lemma RightPadShape(s: string, width: int, c: char)
    ensures RightPad(s, width, c)[..|s|] == s
    ensures forall i :: |s| <= i < |RightPad(s, width, c)| ==> RightPad(s, width, c)[i] == c
  {
  }

  /** LeftPad keeps the text at the end and fills the front with `c`. */
  lemma LeftPadShape(s: string, width: int, c: char)
    ensures |LeftPad(s, width, c)| >= |s|
    ensures LeftPad(s, width, c)[|LeftPad(s, width, c)| - |s|..] == s
    ensures forall i :: 0 <= i < |LeftPad(s, width, c)| - |s| ==> LeftPad(s, width, c)[i] == c
  {
  }

  /** Drops the leading spaces. */
  function TrimLeft(s: string): (r: string)
  {
    if s != [] && s[0] == ' ' then TrimLeft(s[1..]) else s
  }

  /** Drops the trailing spaces. */
  function TrimRight(s: string): (r: string)
  {
    if s != [] && s[|s| - 1] == ' ' then TrimRight(s[..|s| - 1]) else s
  }

  /** Removing the padding that LeftPad adds gives back a text that does not start with a space. */
  lemma {:induction false} TrimLeftPad(s: string, width: int)
    requires s == [] || s[0] != ' '
    ensures TrimLeft(LeftPad(s, width, ' ')) == s
  {
    var n := Max0(width - |s|);
    if n > 0 {
      var rest := Fill(' ', n - 1) + s;
      assert LeftPad(s, width, ' ')[1..] == rest;
      assert rest == LeftPad(s, width - 1, ' ');
      TrimLeftPad(s, width - 1);
    } else {
      assert LeftPad(s, width, ' ') == s;
    }
  }

  /** Removing the padding that RightPad adds gives back a text that does not end with a space. */
  lemma {:induction false} TrimRightPad(s: string, width: int)
    requires s == [] || s[|s| - 1] != ' '
    ensures TrimRight(RightPad(s, width, ' ')) == s
  {
    var n := Max0(width - |s|);
    var r := RightPad(s, width, ' ');
    if n > 0 {
      assert r[..|r| - 1] == RightPad(s, width - 1, ' ');
      TrimRightPad(s, width - 1);
    } else {
      assert r == s;
    }
  }

  /** Splits `s` at every occurrence of `d`, keeping empty pieces:
      `k` delimiters give `k + 1` pieces. */
  function Split(s: string, d: char): (parts: seq<string>)
    ensures |parts| >= 1
  {
    if s == [] then [[]]
    else
      var rest := Split(s[1..], d);
      if s[0] == d then [[]] + rest else [[s[0]] + rest[0]] + rest[1..]
  }

  /** A text without the delimiter is a single piece. */
  lemma {:induction false} SplitNoDelimiter(s: string, d: char)
    requires d !in s
    ensures Split(s, d) == [s]
  {
    if s != [] {
      SplitNoDelimiter(s[1..], d);
      assert [s[0]] + s[1..] == s;
    }
  }

  /** The first piece ends at the first delimiter. */
  lemma {:induction false} SplitAtDelimiter(a: string, d: char, b: string)
    requires d !in a
    ensures Split(a + [d] + b, d) == [a] + Split(b, d)
  {
    if a == [] {
      assert a + [d] + b == [d] + b;
      assert ([d] + b)[1..] == b;
    } else {
      var s := a + [d] + b;
      assert s[1..] == a[1..] + [d] + b;
      SplitAtDelimiter(a[1..], d, b);
      assert [a[0]] + a[1..] == a;
    }
  }
}
