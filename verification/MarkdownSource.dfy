/** `markdownSource`: token positions count normalised line ends, the literal text
    keeps its own; an offset map goes from one to the other. */
module MarkdownSource {

  /** Whether a CRLF pair starts at `i`. */
  predicate Pair(s: string, i: nat) { i + 1 < |s| && s[i] == '\r' && s[i + 1] == '\n' }

  /** `replace(/\r\n?/g, "\n")`. */
  function Normal(s: string): string {
    if s == [] then []
    else if s[0] == '\r' then "\n" + Normal(if Pair(s, 0) then s[2..] else s[1..])
    else [s[0]] + Normal(s[1..])
  }

  /** Where each character of the normalised rest of `s` starts, and its end. */
  function Offsets(s: string, from: nat): (offsets: seq<nat>)
    requires from <= |s|
    ensures offsets != [] && offsets[0] == from
    ensures forall k :: 0 <= k < |offsets| ==> from <= offsets[k] <= |s|
    ensures offsets[|offsets| - 1] == |s|
    decreases |s| - from
  {
    if from == |s| then [|s|] else [from] + Offsets(s, After(s, from))
  }

  function After(s: string, i: nat): (j: nat)
    requires i < |s|
    ensures i < j <= |s|
  {
    if Pair(s, i) then i + 2 else i + 1
  }

  function Identity(n: nat): seq<nat> { seq(n + 1, i => i) }

  /** `markdownSource`, with the map that `original` closes over. */
  datatype Source = Source(source: string, text: string, offsets: seq<nat>)
  {
    predicate Valid() {
      && |offsets| == |text| + 1
      && (forall k :: 0 <= k < |offsets| ==> offsets[k] <= |source|)
      && (forall i, j :: 0 <= i <= j < |offsets| ==> offsets[i] <= offsets[j])
    }

    function Original(start: nat, end: nat): string
      requires Valid() && start <= end <= |text|
    {
      source[offsets[start]..offsets[end]]
    }
  }

  // ---------------------------------------------------------------- the map

  lemma {:induction false} OffsetsAscend(s: string, from: nat)
    requires from <= |s|
    ensures forall i, j :: 0 <= i < j < |Offsets(s, from)| ==> Offsets(s, from)[i] < Offsets(s, from)[j]
    decreases |s| - from
  {
    if from < |s| { OffsetsAscend(s, After(s, from)); }
  }

  /** No offset falls between a carriage return and its line feed. */
  lemma {:induction false} OffsetsKeepPairs(s: string, from: nat, k: nat)
    requires from <= |s| && k < |Offsets(s, from)|
    requires from > 0 ==> !Pair(s, from - 1)
    ensures Offsets(s, from)[k] > 0 ==> !Pair(s, Offsets(s, from)[k] - 1)
    decreases |s| - from
  {
    if from < |s| && k > 0 { OffsetsKeepPairs(s, After(s, from), k - 1); }
  }

  /** The stretch of `s` between two positions, normalised. */
  function Stretch(s: string, from: nat, to: nat): string
    requires from <= to <= |s|
  {
    Normal(s[from..to])
  }

  lemma StretchStep(s: string, from: nat, to: nat)
    requires from < |s| && After(s, from) <= to <= |s|
    ensures Stretch(s, from, to) == [if s[from] == '\r' then '\n' else s[from]] + Stretch(s, After(s, from), to)
  {
    var slice := s[from..to];
    assert slice[1..] == s[from + 1..to];
    if Pair(s, from) { assert slice[2..] == s[from + 2..to]; }
  }

  lemma ConsPrefix(c: char, t: string, n: nat)
    requires 0 < n <= |t| + 1
    ensures ([c] + t)[..n] == [c] + t[..n - 1]
  {
  }

  lemma ConsSuffix(c: char, t: string, n: nat)
    requires 0 < n <= |t| + 1
    ensures ([c] + t)[n..] == t[n - 1..]
  {
  }

  lemma {:induction false} OffsetsAlign(s: string, from: nat)
    requires from <= |s|
    ensures |Offsets(s, from)| == |Stretch(s, from, |s|)| + 1
    decreases |s| - from
  {
    if from < |s| {
      OffsetsAlign(s, After(s, from));
      StretchStep(s, from, |s|);
    }
  }

  lemma {:induction false} PrefixNormalises(s: string, from: nat, b: nat)
    requires from <= |s| && b < |Offsets(s, from)|
    ensures b <= |Stretch(s, from, |s|)|
    ensures Stretch(s, from, Offsets(s, from)[b]) == Stretch(s, from, |s|)[..b]
    decreases |s| - from
  {
    OffsetsAlign(s, from);
    if from < |s| && b > 0 {
      var next, to := After(s, from), Offsets(s, from)[b];
      assert to == Offsets(s, next)[b - 1];
      StretchStep(s, from, |s|);
      StretchStep(s, from, to);
      PrefixNormalises(s, next, b - 1);
      ConsPrefix(if s[from] == '\r' then '\n' else s[from], Stretch(s, next, |s|), b);
    }
  }

  lemma {:induction false} OffsetsSuffix(s: string, from: nat, a: nat)
    requires from <= |s| && a < |Offsets(s, from)|
    ensures Offsets(s, from)[a..] == Offsets(s, Offsets(s, from)[a])
    decreases |s| - from
  {
    if from < |s| && a > 0 {
      OffsetsSuffix(s, After(s, from), a - 1);
      assert Offsets(s, from)[a..] == Offsets(s, After(s, from))[a - 1..];
    }
  }

  lemma {:induction false} SuffixNormalises(s: string, from: nat, a: nat)
    requires from <= |s| && a < |Offsets(s, from)|
    ensures a <= |Stretch(s, from, |s|)|
    ensures Stretch(s, Offsets(s, from)[a], |s|) == Stretch(s, from, |s|)[a..]
    decreases |s| - from
  {
    OffsetsAlign(s, from);
    if from < |s| && a > 0 {
      var next := After(s, from);
      StretchStep(s, from, |s|);
      SuffixNormalises(s, next, a - 1);
      ConsSuffix(if s[from] == '\r' then '\n' else s[from], Stretch(s, next, |s|), a);
    }
  }

  /** Normalising the literal slice gives the slice of the normalised text. */
  lemma SliceNormalises(s: string, a: nat, b: nat)
    requires a <= b < |Offsets(s, 0)|
    ensures |Stretch(s, 0, |s|)| + 1 == |Offsets(s, 0)| && Offsets(s, 0)[a] <= Offsets(s, 0)[b]
    ensures Stretch(s, Offsets(s, 0)[a], Offsets(s, 0)[b]) == Stretch(s, 0, |s|)[a..b]
  {
    var offsets := Offsets(s, 0);
    OffsetsAlign(s, 0);
    SuffixNormalises(s, 0, a);
    OffsetsSuffix(s, 0, a);
    assert offsets[b] == offsets[a..][b - a];
    PrefixNormalises(s, offsets[a], b - a);
    SubSlice(Stretch(s, 0, |s|), a, b);
  }

  lemma SubSlice(t: string, a: nat, b: nat)
    requires a <= b <= |t|
    ensures t[a..][..b - a] == t[a..b]
  {
  }

  lemma WholeStretch(s: string)
    ensures Stretch(s, 0, |s|) == Normal(s)
  {
    assert s[0..|s|] == s;
  }

  // ---------------------------------------------------------------- main results

  predicate Exact(m: Source) {
    m.Valid() && m.text == Normal(m.source)
      && m.offsets == if '\r' in m.source then Offsets(m.source, 0) else Identity(|m.source|)
  }

  lemma {:induction false} NormalOfPlain(s: string)
    requires '\r' !in s
    ensures Normal(s) == s
  {
    if s != [] { NormalOfPlain(s[1..]); }
  }

  /** The whole map gives the source back. */
  lemma WholeIsSource(m: Source)
    requires Exact(m)
    ensures m.Original(0, |m.text|) == m.source
  {
  }

  /** Adjacent slices concatenate. */
  lemma SlicesConcatenate(m: Source, a: nat, b: nat, c: nat)
    requires Exact(m) && a <= b <= c <= |m.text|
    ensures m.Original(a, b) + m.Original(b, c) == m.Original(a, c)
  {
    Cut(m.source, m.offsets[a], m.offsets[b], m.offsets[c]);
  }

  lemma Cut(s: string, x: nat, y: nat, z: nat)
    requires x <= y <= z <= |s|
    ensures s[x..y] + s[y..z] == s[x..z]
  {
  }

  /** A literal slice is exactly what its token positions say, line ends aside, and
      never begins or ends inside a CRLF pair. */
  lemma OriginalIsExact(m: Source, a: nat, b: nat)
    requires Exact(m) && a <= b <= |m.text|
    ensures Normal(m.Original(a, b)) == m.text[a..b]
    ensures m.offsets[a] > 0 ==> !Pair(m.source, m.offsets[a] - 1)
    ensures m.offsets[b] > 0 ==> !Pair(m.source, m.offsets[b] - 1)
  {
    if '\r' in m.source {
      WholeStretch(m.source);
      SliceNormalises(m.source, a, b);
      OffsetsKeepPairs(m.source, 0, a);
      OffsetsKeepPairs(m.source, 0, b);
    } else {
      PlainIsExact(m.source, a, b);
    }
  }

  lemma PlainIsExact(s: string, a: nat, b: nat)
    requires '\r' !in s && a <= b <= |s|
    ensures Normal(s) == s && Normal(s[a..b]) == s[a..b]
    ensures forall i: nat :: !Pair(s, i)
  {
    NormalOfPlain(s);
    assert forall i :: 0 <= i < |s| ==> s[i] != '\r';
    NormalOfPlain(s[a..b]);
  }

  /** Splicing: a source cut at token positions and put together again is itself. */
  lemma {:induction false} SplicesToSource(m: Source, cuts: seq<nat>)
    requires Exact(m) && cuts != [] && cuts[0] == 0 && cuts[|cuts| - 1] == |m.text|
    requires forall i, j :: 0 <= i <= j < |cuts| ==> cuts[i] <= cuts[j]
    ensures Splice(m, cuts) == m.source
  {
    SpliceIsSlice(m, cuts);
    WholeIsSource(m);
  }

  function Splice(m: Source, cuts: seq<nat>): string
    requires m.Valid() && cuts != [] && cuts[|cuts| - 1] <= |m.text|
    requires forall i, j :: 0 <= i <= j < |cuts| ==> cuts[i] <= cuts[j]
  {
    if |cuts| == 1 then [] else m.Original(cuts[0], cuts[1]) + Splice(m, cuts[1..])
  }

  lemma {:induction false} SpliceIsSlice(m: Source, cuts: seq<nat>)
    requires Exact(m) && cuts != [] && cuts[|cuts| - 1] <= |m.text|
    requires forall i, j :: 0 <= i <= j < |cuts| ==> cuts[i] <= cuts[j]
    ensures Splice(m, cuts) == m.Original(cuts[0], cuts[|cuts| - 1])
  {
    if |cuts| > 1 {
      SpliceIsSlice(m, cuts[1..]);
      SlicesConcatenate(m, cuts[0], cuts[1], cuts[|cuts| - 1]);
    }
  }

  /** The loop that fills the map, from `index` on. */
  function Filled(s: string, index: nat, offsets: seq<nat>): seq<nat>
    requires index <= |s|
    decreases |s| - index
  {
    if index == |s| then offsets + [|s|] else Filled(s, After(s, index), offsets + [index])
  }

  lemma {:induction false} FilledIsOffsets(s: string, index: nat, offsets: seq<nat>)
    requires index <= |s|
    ensures Filled(s, index, offsets) == offsets + Offsets(s, index)
    decreases |s| - index
  {
    if index < |s| {
      FilledIsOffsets(s, After(s, index), offsets + [index]);
      Regroups(offsets, [index], Offsets(s, After(s, index)));
    }
  }

  lemma Regroups(a: seq<nat>, b: seq<nat>, c: seq<nat>)
    ensures (a + b) + c == a + (b + c)
  {
  }

  method FillOffsets(source: string) returns (offsets: seq<nat>)
    ensures offsets == Offsets(source, 0)
  {
    offsets := [];
    var index := 0;
    while index < |source|
      invariant index <= |source| && Filled(source, index, offsets) == Filled(source, 0, [])
    {
      offsets := offsets + [index];
      if source[index] == '\r' && index + 1 < |source| && source[index + 1] == '\n' { index := index + 1; }
      index := index + 1;
    }
    offsets := offsets + [|source|];
    FilledIsOffsets(source, 0, []);
  }

  method Build(source: string) returns (m: Source)
    ensures m.source == source && Exact(m)
  {
    if '\r' !in source {
      NormalOfPlain(source);
      return Source(source, source, Identity(|source|));
    }
    var offsets := FillOffsets(source);
    OffsetsAlign(source, 0);
    OffsetsAscend(source, 0);
    WholeStretch(source);
    m := Source(source, Normal(source), offsets);
  }
}
