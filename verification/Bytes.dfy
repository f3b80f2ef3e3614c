/** Newline-separated bytes, as the receipt file and the runtime socket use them. */
module Bytes {

  type Byte = b: int | 0 <= b < 256
  const NEWLINE: Byte := 10

  function FirstNewline(text: seq<Byte>): (end: nat)
    ensures end <= |text|
    ensures NEWLINE !in text[..end]
    ensures end < |text| ==> text[end] == NEWLINE
  {
    if text == [] || text[0] == NEWLINE then 0
    else
      var end := 1 + FirstNewline(text[1..]);
      assert text[..end] == [text[0]] + text[1..][..end - 1];
      end
  }

  /** `split("\n")`: always at least one piece. */
  function Split(text: seq<Byte>): (pieces: seq<seq<Byte>>)
    ensures pieces != []
    decreases |text|
  {
    var end := FirstNewline(text);
    if end == |text| then [text] else [text[..end]] + Split(text[end + 1..])
  }

  lemma SplitFirst(first: seq<Byte>, rest: seq<Byte>)
    requires NEWLINE !in first
    ensures Split(first) == [first]
    ensures Split(first + [NEWLINE] + rest) == [first] + Split(rest)
  {
    FirstNewlineAfter(first, []);
    assert first + [] == first;
    FirstNewlineAfter(first, [NEWLINE] + rest);
    assert first + [NEWLINE] + rest == first + ([NEWLINE] + rest);
  }

  /** A newline joins the pieces of two texts. */
  lemma {:induction false} SplitJoin(a: seq<Byte>, b: seq<Byte>)
    ensures Split(a + [NEWLINE] + b) == Split(a) + Split(b)
    decreases |a|
  {
    var end := FirstNewline(a);
    if end == |a| {
      SplitFirst(a, b);
      assert Split(a) == [a];
    } else {
      var first, rest := a[..end], a[end + 1..];
      CutAt(a, b, end);
      SplitFirst(first, rest + [NEWLINE] + b);
      SplitJoin(rest, b);
      PieceFirst(first, Split(rest), Split(b));
    }
  }

  lemma CutAt(a: seq<Byte>, b: seq<Byte>, end: nat)
    requires end < |a| && a[end] == NEWLINE
    ensures a + [NEWLINE] + b == a[..end] + [NEWLINE] + (a[end + 1..] + [NEWLINE] + b)
  {
  }

  lemma PieceFirst(first: seq<Byte>, a: seq<seq<Byte>>, b: seq<seq<Byte>>)
    ensures [first] + (a + b) == [first] + a + b
  {
  }

  lemma {:induction false} FirstNewlineAfter(first: seq<Byte>, rest: seq<Byte>)
    requires NEWLINE !in first
    requires rest != [] ==> rest[0] == NEWLINE
    ensures FirstNewline(first + rest) == |first|
  {
    if first == [] {
      assert first + rest == rest;
    } else {
      assert (first + rest)[1..] == first[1..] + rest;
      FirstNewlineAfter(first[1..], rest);
    }
  }
}
