/** Fixed-width positional records: a record is a list of fields written one after
    another, each padded towards its nominal width, then a space trailer up to 450
    characters. Padding is `Math.max(0, width - length)`, so a field longer than its
    width is written whole and pushes everything after it to the right. */
module Layout {
  import opened Text

  const RECORD_LENGTH: nat := 450
  const TRAILER_FILL: char := ' '

  /** How a field reaches its width: not at all (the content is taken as it is), or by
      filling on the left or on the right with a given character. */
  datatype Align = Fixed | PadLeft(fill: char) | PadRight(fill: char)

  datatype Field = Field(content: string, width: nat, align: Align)

  /** The text a field contributes to the record. */
  function Render(f: Field): (r: string)
    ensures |r| == if f.align.Fixed? || f.width <= |f.content| then |f.content| else f.width
  {
    match f.align
    case Fixed => f.content
    case PadLeft(c) => LeftPad(f.content, f.width, c)
    case PadRight(c) => RightPad(f.content, f.width, c)
  }

  /** The field takes exactly its nominal width: a fixed field has exactly that many
      characters, a padded one at most that many. */
  predicate Fits(f: Field)
  {
    if f.align.Fixed? then |f.content| == f.width else |f.content| <= f.width
  }

  /** The first k fields written one after another, as `data = data.concat(…)` does. */
  function Written(fs: seq<Field>, k: nat): (w: string)
    requires k <= |fs|
  {
    if k == 0 then [] else Written(fs, k - 1) + Render(fs[k - 1])
  }

  /** The number of characters the first k fields actually take. */
  function Span(fs: seq<Field>, k: nat): (n: nat)
    requires k <= |fs|
  {
    if k == 0 then 0 else Span(fs, k - 1) + |Render(fs[k - 1])|
  }

  /** The nominal offset of field k: the sum of the nominal widths before it. */
  function Offset(fs: seq<Field>, k: nat): (n: nat)
    requires k <= |fs|
  {
    if k == 0 then 0 else Offset(fs, k - 1) + fs[k - 1].width
  }

  /** All the fields written. */
  function Concat(fs: seq<Field>): (body: string)
  {
    Written(fs, |fs|)
  }

  /** The record: the fields, then spaces up to RECORD_LENGTH (none if already longer). */
  function Frame(fs: seq<Field>): (r: string)
  {
    var body := Concat(fs);
    body + Fill(TRAILER_FILL, Max0(RECORD_LENGTH - |body|))
  }

  lemma {:induction false} WrittenLength(fs: seq<Field>, k: nat)
    requires k <= |fs|
    ensures |Written(fs, k)| == Span(fs, k)
  {
    if k > 0 {
      WrittenLength(fs, k - 1);
    }
  }

  /** What the first j fields write is a prefix of what the first k write. */
  lemma {:induction false} WrittenPrefix(fs: seq<Field>, j: nat, k: nat)
    requires j <= k <= |fs|
    ensures Written(fs, j) <= Written(fs, k)
    decreases k - j
  {
    if j < k {
      WrittenPrefix(fs, j, k - 1);
    }
  }

  /** Fields that all fit take exactly their nominal widths. */
  lemma {:induction false} FittingSpan(fs: seq<Field>, k: nat)
    requires k <= |fs|
    requires forall i :: 0 <= i < k ==> Fits(fs[i])
    ensures Span(fs, k) == Offset(fs, k)
  {
    if k > 0 {
      FittingSpan(fs, k - 1);
    }
  }

  lemma SliceOfPrefix(a: string, b: string, c: string)
    requires a + b <= c
    ensures |a| + |b| <= |c| && c[|a|..|a| + |b|] == b
  {
    assert c[|a|..|a| + |b|] == (a + b)[|a|..];
  }

  /** In the fields' text, field k starts where the fields before it end. */
  lemma ConcatFieldAt(fs: seq<Field>, k: nat)
    requires k < |fs|
    ensures Span(fs, k) + |Render(fs[k])| <= |Concat(fs)|
    ensures Concat(fs)[Span(fs, k)..Span(fs, k) + |Render(fs[k])|] == Render(fs[k])
  {
    WrittenLength(fs, k);
    WrittenPrefix(fs, k + 1, |fs|);
    SliceOfPrefix(Written(fs, k), Render(fs[k]), Concat(fs));
  }

  /** The trailer only follows the fields: any stretch of the fields' text is unchanged
      in the record. */
  lemma FrameSlice(fs: seq<Field>, i: nat, j: nat)
    requires i <= j <= |Concat(fs)|
    ensures j <= |Frame(fs)| && Frame(fs)[i..j] == Concat(fs)[i..j]
  {
    var body := Concat(fs);
    assert Frame(fs)[..|body|] == body;
    assert Frame(fs)[i..j] == Frame(fs)[..|body|][i..j];
  }

  /** Field k stands at its nominal offset when every field before it fits; the field
      itself may be longer than its width. */
  lemma FieldAt(fs: seq<Field>, k: nat)
    requires k < |fs|
    requires forall i :: 0 <= i < k ==> Fits(fs[i])
    ensures Offset(fs, k) + |Render(fs[k])| <= |Frame(fs)|
    ensures Frame(fs)[Offset(fs, k)..Offset(fs, k) + |Render(fs[k])|] == Render(fs[k])
  {
    FittingSpan(fs, k);
    ConcatFieldAt(fs, k);
    var body := Concat(fs);
    var o, e := Offset(fs, k), Offset(fs, k) + |Render(fs[k])|;
    assert Frame(fs)[o..e] == body[o..e];
  }

  /** The record is 450 characters or, when the fields take more, exactly as long as
      the fields; the trailer is spaces. */
  lemma FrameLength(fs: seq<Field>)
    ensures |Frame(fs)| == if Span(fs, |fs|) < RECORD_LENGTH then RECORD_LENGTH else Span(fs, |fs|)
    ensures Frame(fs)[..Span(fs, |fs|)] == Concat(fs)
    ensures forall i :: Span(fs, |fs|) <= i < |Frame(fs)| ==> Frame(fs)[i] == TRAILER_FILL
  {
    WrittenLength(fs, |fs|);
  }
}
