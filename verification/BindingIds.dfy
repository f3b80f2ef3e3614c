/** `resourceBindingId` and `bindingResourceRef`: a resource as an opaque, canonical
    id.  Three codings are stacked: JSON strings (RFC 8259, section 7), UTF-8, and
    base64url without padding (RFC 4648, section 5).

    Texts are sequences of UTF-16 code units, as JavaScript has them. */
module BindingIds {
  import opened Common
  import opened Bytes

  type Unit = u: int | 0 <= u < 0x10000
  type Sextet = s: int | 0 <= s < 64

  // ---------------------------------------------------------------- base64url

  function Sextets(b: seq<Byte>): seq<Sextet> {
    if b == [] then []
    else if |b| == 1 then [b[0] / 4, b[0] % 4 * 16]
    else if |b| == 2 then [b[0] / 4, b[0] % 4 * 16 + b[1] / 16, b[1] % 16 * 4]
    else Quad(b[0], b[1], b[2]) + Sextets(b[3..])
  }

  /** As `Buffer.from` reads it: spare bits and a single spare symbol are dropped. */
  function Octets(s: seq<Sextet>): seq<Byte> {
    if |s| <= 1 then []
    else if |s| == 2 then [Join(s[0], 4, s[1] / 16)]
    else if |s| == 3 then [Join(s[0], 4, s[1] / 16), Join(s[1] % 16, 16, s[2] / 4)]
    else [Join(s[0], 4, s[1] / 16), Join(s[1] % 16, 16, s[2] / 4), Join(s[2] % 4, 64, s[3])] + Octets(s[4..])
  }

  /** High bits moved up by `factor`, and low bits. */
  function Join(high: int, factor: int, low: int): Byte
    requires 0 <= low < factor && 0 <= high
    requires (factor == 4 && high < 64) || (factor == 16 && high < 16) || (factor == 64 && high < 4)
  {
    high * factor + low
  }

  /** Three bytes as four sextets. */
  function Quad(x: Byte, y: Byte, z: Byte): seq<Sextet> {
    [x / 4, x % 4 * 16 + y / 16, y % 16 * 4 + z / 64, z % 64]
  }

  lemma QuadBytes(x: Byte, y: Byte, z: Byte)
    ensures var q := Quad(x, y, z);
      Join(q[0], 4, q[1] / 16) == x && Join(q[1] % 16, 16, q[2] / 4) == y && Join(q[2] % 4, 64, q[3]) == z
  {
  }

  lemma FourAhead(q: seq<Sextet>, rest: seq<Sextet>)
    requires |q| == 4
    ensures (q + rest)[4..] == rest && (q + rest)[..4] == q
    ensures forall i :: 0 <= i < 4 ==> (q + rest)[i] == q[i]
  {
  }

  /** The three bytes that four sextets stand for. */
  function Triple(q: seq<Sextet>): seq<Byte>
    requires |q| == 4
  {
    [Join(q[0], 4, q[1] / 16), Join(q[1] % 16, 16, q[2] / 4), Join(q[2] % 4, 64, q[3])]
  }

  lemma QuadReads(q: seq<Sextet>, rest: seq<Sextet>)
    requires |q| == 4
    ensures Octets(q + rest) == Triple(q) + Octets(rest)
  {
    var s := q + rest;
    FourAhead(q, rest);
    assert s[0] == q[0] && s[1] == q[1] && s[2] == q[2] && s[3] == q[3];
    assert Octets(s) == Triple(q) + Octets(rest);
  }

  lemma ThreeAhead(b: seq<Byte>)
    requires |b| >= 3
    ensures [b[0], b[1], b[2]] + b[3..] == b
  {
  }

  lemma {:induction false} OctetsOfSextets(b: seq<Byte>)
    ensures Octets(Sextets(b)) == b
    decreases |b|
  {
    if |b| >= 3 {
      OctetsOfSextets(b[3..]);
      QuadReads(Quad(b[0], b[1], b[2]), Sextets(b[3..]));
      QuadBytes(b[0], b[1], b[2]);
      ThreeAhead(b);
    }
  }

  /** The alphabet of base64url. */
  function Symbol(s: Sextet): (c: Unit) {
    if s < 26 then 65 + s else if s < 52 then 71 + s else if s < 62 then s - 4 else if s == 62 then 45 else 95
  }

  predicate InAlphabet(c: Unit) { 65 <= c <= 90 || 97 <= c <= 122 || 48 <= c <= 57 || c == 45 || c == 95 }

  function Value(c: Unit): (s: Sextet)
    requires InAlphabet(c)
    ensures Symbol(s) == c
  {
    if 65 <= c <= 90 then c - 65 else if 97 <= c <= 122 then c - 71
    else if 48 <= c <= 57 then c + 4 else if c == 45 then 62 else 63
  }

  function Symbols(s: seq<Sextet>): seq<Unit> { seq(|s|, i requires 0 <= i < |s| => Symbol(s[i])) }

  function Values(text: seq<Unit>): seq<Sextet>
    requires forall i :: 0 <= i < |text| ==> InAlphabet(text[i])
  {
    seq(|text|, i requires 0 <= i < |text| => Value(text[i]))
  }

  lemma ValuesOfSymbols(s: seq<Sextet>)
    ensures forall i :: 0 <= i < |s| ==> InAlphabet(Symbols(s)[i])
    ensures Values(Symbols(s)) == s
  {
    forall i | 0 <= i < |s| ensures InAlphabet(Symbols(s)[i]) && Value(Symbols(s)[i]) == s[i] {}
  }

  // ---------------------------------------------------------------- UTF-8

  predicate High(u: Unit) { 0xD800 <= u < 0xDC00 }
  predicate Low(u: Unit) { 0xDC00 <= u < 0xE000 }

  /** A text without lone surrogates. */
  predicate Paired(t: seq<Unit>) {
    t == [] ||
    (if High(t[0]) then |t| >= 2 && Low(t[1]) && Paired(t[2..]) else !Low(t[0]) && Paired(t[1..]))
  }

  /** The code point of a surrogate pair. */
  function Point(high: int, low: int): (p: int)
    requires 0xD800 <= high < 0xDC00 && 0xDC00 <= low < 0xE000
    ensures 0x10000 <= p <= 0x10FFFF
    ensures (p - 0x10000) / 1024 == high - 0xD800 && (p - 0x10000) % 1024 == low - 0xDC00
  {
    0x10000 + (high - 0xD800) * 1024 + (low - 0xDC00)
  }

  /** The bytes of a pair, and those of any other unit. */
  function PairOctets(high: Unit, low: Unit): seq<Byte>
    requires High(high) && Low(low)
  {
    var p := Point(high, low);
    [0xF0 + p / 262144, 0x80 + p / 4096 % 64, 0x80 + p / 64 % 64, 0x80 + p % 64]
  }

  function UnitOctets(u: Unit): seq<Byte> {
    if u < 0x80 then [u]
    else if u < 0x800 then [0xC0 + u / 64, 0x80 + u % 64]
    else [0xE0 + u / 4096, 0x80 + u / 64 % 64, 0x80 + u % 64]
  }

  function Utf8(t: seq<Unit>): seq<Byte>
    requires Paired(t)
  {
    if t == [] then []
    else if High(t[0]) then PairOctets(t[0], t[1]) + Utf8(t[2..])
    else UnitOctets(t[0]) + Utf8(t[1..])
  }

  function Bits(a: int, b: int, c: int, d: int): int { a * 262144 + b * 4096 + c * 64 + d }

  predicate Follower(b: Byte) { 0x80 <= b < 0xC0 }

  function Prepend(head: seq<Unit>, tail: Option<seq<Unit>>): Option<seq<Unit>> {
    if tail.Some? then Some(head + tail.value) else None
  }

  /** A character that was read, and the number of its bytes. */
  datatype Read = Read(head: seq<Unit>, size: nat)

  /** The first character of `b`, if it is well formed. */
  function FirstRead(b: seq<Byte>): (r: Option<Read>)
    requires b != []
    ensures r.Some? ==> 0 < r.value.size <= |b|
  {
    if b[0] < 0x80 then Some(Read([b[0]], 1))
    else if 0xC2 <= b[0] < 0xE0 && |b| >= 2 && Follower(b[1]) then
      Some(Read([Bits(0, 0, b[0] - 0xC0, b[1] - 0x80)], 2))
    else if 0xE0 <= b[0] < 0xF0 && |b| >= 3 && Follower(b[1]) && Follower(b[2]) then
      var u := Bits(0, b[0] - 0xE0, b[1] - 0x80, b[2] - 0x80);
      if u < 0x800 || 0xD800 <= u < 0xE000 then None else Some(Read([u], 3))
    else if 0xF0 <= b[0] < 0xF5 && |b| >= 4 && Follower(b[1]) && Follower(b[2]) && Follower(b[3]) then
      var point := Bits(b[0] - 0xF0, b[1] - 0x80, b[2] - 0x80, b[3] - 0x80);
      if point < 0x10000 || point > 0x10FFFF then None
      else Some(Read([0xD800 + (point - 0x10000) / 1024, 0xDC00 + (point - 0x10000) % 1024], 4))
    else None
  }

  /** Strict decoding.  The source decodes ill-formed bytes to replacement characters,
      and its final comparison then rejects the id. */
  function FromUtf8(b: seq<Byte>): Option<seq<Unit>> {
    if b == [] then Some([])
    else
      var first := FirstRead(b);
      if first.None? then None else Prepend(first.value.head, FromUtf8(b[first.value.size..]))
  }

  lemma PairDecodes(high: Unit, low: Unit, rest: seq<Byte>)
    requires High(high) && Low(low)
    ensures FromUtf8(PairOctets(high, low) + rest) == Prepend([high, low], FromUtf8(rest))
  {
    PointBytes(Point(high, low));
    assert (PairOctets(high, low) + rest)[4..] == rest;
  }

  lemma UnitDecodes(u: Unit, rest: seq<Byte>)
    requires !High(u) && !Low(u)
    ensures FromUtf8(UnitOctets(u) + rest) == Prepend([u], FromUtf8(rest))
  {
    assert (UnitOctets(u) + rest)[|UnitOctets(u)|..] == rest;
    if u >= 0x800 { UnitBytes(u); }
  }

  lemma {:induction false} FromUtf8OfUtf8(t: seq<Unit>)
    requires Paired(t)
    ensures FromUtf8(Utf8(t)) == Some(t)
    decreases |t|
  {
    if t == [] {
    } else if High(t[0]) {
      var rest := t[2..];
      FromUtf8OfUtf8(rest);
      PairDecodes(t[0], t[1], Utf8(rest));
      assert t == [t[0], t[1]] + rest;
    } else {
      var rest := t[1..];
      FromUtf8OfUtf8(rest);
      UnitDecodes(t[0], Utf8(rest));
      assert t == [t[0]] + rest;
    }
  }

  lemma PointBytes(point: int)
    requires 0x10000 <= point <= 0x10FFFF
    ensures 0 <= point / 262144 <= 4
    ensures Bits(point / 262144, point / 4096 % 64, point / 64 % 64, point % 64) == point
  {
  }

  lemma UnitBytes(u: Unit)
    ensures Bits(0, u / 4096, u / 64 % 64, u % 64) == u
  {
  }

  lemma {:induction false} PairedConcat(a: seq<Unit>, b: seq<Unit>)
    requires Paired(a) && Paired(b)
    ensures Paired(a + b)
    decreases |a|
  {
    if a == [] {
      assert a + b == b;
    } else if High(a[0]) {
      assert (a + b)[2..] == a[2..] + b;
      PairedConcat(a[2..], b);
    } else {
      assert (a + b)[1..] == a[1..] + b;
      PairedConcat(a[1..], b);
    }
  }

  // ---------------------------------------------------------------- JSON strings

  const QUOTE: Unit := 34
  const BACKSLASH: Unit := 92

  function Hex(d: int): Unit
    requires 0 <= d < 16
  {
    if d < 10 then 48 + d else 87 + d
  }

  function HexValue(c: Unit): Option<int> {
    if 48 <= c <= 57 then Some(c - 48)
    else if 97 <= c <= 102 then Some(c - 87)
    else if 65 <= c <= 70 then Some(c - 55)
    else None
  }

  /** The letter after the backslash of a short escape. */
  function Short(u: Unit): Option<Unit> {
    if u == 34 || u == 92 then Some(u)
    else if u == 8 then Some(98) else if u == 12 then Some(102) else if u == 10 then Some(110)
    else if u == 13 then Some(114) else if u == 9 then Some(116)
    else None
  }

  function Long(u: Unit): seq<Unit> {
    [BACKSLASH, 117, Hex(u / 4096), Hex(u / 256 % 16), Hex(u / 16 % 16), Hex(u % 16)]
  }

  /** What one unit is written as, when it is not half of a pair. */
  function EscapeOne(u: Unit): seq<Unit> {
    if Short(u).Some? then [BACKSLASH, Short(u).value]
    else if u < 32 || High(u) || Low(u) then Long(u)
    else [u]
  }

  /** `JSON.stringify` on one text: controls and lone surrogates are escaped. */
  function Escape(t: seq<Unit>): seq<Unit> {
    if t == [] then []
    else if High(t[0]) && |t| >= 2 && Low(t[1]) then [t[0], t[1]] + Escape(t[2..])
    else
      EscapeOne(t[0]) + Escape(t[1..])
  }

  function Unescaped(c: Unit): Option<Unit> {
    if c == 34 || c == 92 || c == 47 then Some(c)
    else if c == 98 then Some(8) else if c == 102 then Some(12) else if c == 110 then Some(10)
    else if c == 114 then Some(13) else if c == 116 then Some(9)
    else None
  }

  datatype Parsed = Text(value: seq<Unit>, rest: seq<Unit>) | Bad

  function Put(u: Unit, p: Parsed): Parsed { if p.Bad? then Bad else Text([u] + p.value, p.rest) }

  /** The characters of a JSON string up to its closing quote. */
  function Characters(t: seq<Unit>): (p: Parsed)
    ensures p.Text? ==> |p.rest| < |t|
  {
    if t == [] || t[0] < 32 then Bad
    else if t[0] == QUOTE then Text([], t[1..])
    else if t[0] != BACKSLASH then Put(t[0], Characters(t[1..]))
    else if |t| < 2 then Bad
    else if t[1] != 117 then
      if Unescaped(t[1]).None? then Bad else Put(Unescaped(t[1]).value, Characters(t[2..]))
    else if |t| < 6 then Bad
    else
      var a, b, c, d := HexValue(t[2]), HexValue(t[3]), HexValue(t[4]), HexValue(t[5]);
      if a.None? || b.None? || c.None? || d.None? then Bad
      else Put(Word(a.value, b.value, c.value, d.value), Characters(t[6..]))
  }

  function Word(a: int, b: int, c: int, d: int): Unit {
    var w := ((a * 16 + b) * 16 + c) * 16 + d;
    if 0 <= w < 0x10000 then w else 0
  }

  lemma HexRoundTrip(u: Unit)
    ensures HexValue(Hex(u / 4096)) == Some(u / 4096) && HexValue(Hex(u / 256 % 16)) == Some(u / 256 % 16)
    ensures HexValue(Hex(u / 16 % 16)) == Some(u / 16 % 16) && HexValue(Hex(u % 16)) == Some(u % 16)
    ensures Word(u / 4096, u / 256 % 16, u / 16 % 16, u % 16) == u
  {
    assert u / 256 == u / 4096 * 16 + u / 256 % 16;
    assert u / 16 == u / 256 * 16 + u / 16 % 16;
    assert u == u / 16 * 16 + u % 16;
  }

  lemma ShortReads(u: Unit, rest: seq<Unit>)
    requires Short(u).Some?
    ensures Characters([BACKSLASH, Short(u).value] + rest) == Put(u, Characters(rest))
  {
    assert ([BACKSLASH, Short(u).value] + rest)[2..] == rest;
  }

  lemma LongReads(u: Unit, rest: seq<Unit>)
    ensures Characters(Long(u) + rest) == Put(u, Characters(rest))
  {
    HexRoundTrip(u);
    assert (Long(u) + rest)[6..] == rest;
  }

  lemma PlainReads(u: Unit, rest: seq<Unit>)
    requires u >= 32 && u != QUOTE && u != BACKSLASH
    ensures Characters([u] + rest) == Put(u, Characters(rest))
  {
    assert ([u] + rest)[1..] == rest;
  }

  lemma OneReads(u: Unit, rest: seq<Unit>)
    ensures Characters(EscapeOne(u) + rest) == Put(u, Characters(rest))
  {
    if Short(u).Some? {
      ShortReads(u, rest);
    } else if u < 32 || High(u) || Low(u) {
      LongReads(u, rest);
    } else {
      PlainReads(u, rest);
    }
  }

  lemma PairReads(high: Unit, low: Unit, rest: seq<Unit>)
    requires High(high) && Low(low)
    ensures Characters([high, low] + rest) == Put(high, Put(low, Characters(rest)))
  {
    assert ([high, low] + rest)[1..] == [low] + rest;
    assert ([low] + rest)[1..] == rest;
  }

  predicate PairAhead(t: seq<Unit>) { |t| >= 2 && High(t[0]) && Low(t[1]) }

  lemma EscapePairSplits(t: seq<Unit>, end: seq<Unit>)
    requires PairAhead(t)
    ensures Escape(t) + end == [t[0], t[1]] + (Escape(t[2..]) + end)
  {
    Associates([t[0], t[1]], Escape(t[2..]), end);
  }

  lemma EscapeOneSplits(t: seq<Unit>, end: seq<Unit>)
    requires t != [] && !PairAhead(t)
    ensures Escape(t) + end == EscapeOne(t[0]) + (Escape(t[1..]) + end)
  {
    Associates(EscapeOne(t[0]), Escape(t[1..]), end);
  }

  lemma Associates(a: seq<Unit>, b: seq<Unit>, c: seq<Unit>)
    ensures (a + b) + c == a + (b + c)
  {
  }

  lemma PairStep(t: seq<Unit>, end: seq<Unit>, rest: seq<Unit>)
    requires PairAhead(t) && Characters(Escape(t[2..]) + end) == Text(t[2..], rest)
    ensures Characters(Escape(t) + end) == Text(t, rest)
  {
    var tail := Escape(t[2..]) + end;
    EscapePairSplits(t, end);
    PairReads(t[0], t[1], tail);
    TwoAhead(t);
  }

  lemma TwoAhead(t: seq<Unit>)
    requires |t| >= 2
    ensures [t[0]] + ([t[1]] + t[2..]) == t
  {
  }

  lemma OneStep(t: seq<Unit>, end: seq<Unit>, rest: seq<Unit>)
    requires t != [] && !PairAhead(t) && Characters(Escape(t[1..]) + end) == Text(t[1..], rest)
    ensures Characters(Escape(t) + end) == Text(t, rest)
  {
    var tail := Escape(t[1..]) + end;
    EscapeOneSplits(t, end);
    OneReads(t[0], tail);
    OneAhead(t);
  }

  lemma OneAhead(t: seq<Unit>)
    requires t != []
    ensures [t[0]] + t[1..] == t
  {
  }

  lemma {:induction false} CharactersOfEscape(t: seq<Unit>, rest: seq<Unit>)
    ensures Characters(Escape(t) + ([QUOTE] + rest)) == Text(t, rest)
    decreases |t|
  {
    var end := [QUOTE] + rest;
    if t == [] {
      assert Escape(t) + end == end && end[1..] == rest;
    } else if PairAhead(t) {
      CharactersOfEscape(t[2..], rest);
      PairStep(t, end, rest);
    } else {
      CharactersOfEscape(t[1..], rest);
      OneStep(t, end, rest);
    }
  }

  lemma {:induction false} EscapePaired(t: seq<Unit>)
    ensures Paired(Escape(t))
    decreases |t|
  {
    if t == [] {
    } else if High(t[0]) && |t| >= 2 && Low(t[1]) {
      EscapePaired(t[2..]);
      assert Escape(t)[2..] == Escape(t[2..]);
    } else {
      EscapePaired(t[1..]);
      PlainPaired(EscapeOne(t[0]));
      PairedConcat(EscapeOne(t[0]), Escape(t[1..]));
    }
  }

  lemma {:induction false} PlainPaired(t: seq<Unit>)
    requires forall i :: 0 <= i < |t| ==> !High(t[i]) && !Low(t[i])
    ensures Paired(t)
  {
    if t != [] { PlainPaired(t[1..]); }
  }

  // ---------------------------------------------------------------- a pair of strings

  function Quoted(t: seq<Unit>, rest: seq<Unit>): seq<Unit> { [QUOTE] + (Escape(t) + ([QUOTE] + rest)) }

  function PairText(a: seq<Unit>, b: seq<Unit>): seq<Unit> { [91] + Quoted(a, [44] + Quoted(b, [93])) }

  /** White space between JSON tokens. */
  function Skip(t: seq<Unit>): (r: seq<Unit>)
    ensures |r| <= |t|
  {
    if t != [] && (t[0] == 32 || t[0] == 9 || t[0] == 10 || t[0] == 13) then Skip(t[1..]) else t
  }

  /** One punctuation token. */
  function Token(t: seq<Unit>, c: Unit): Option<seq<Unit>> {
    var s := Skip(t);
    if s != [] && s[0] == c then Some(s[1..]) else None
  }

  /** One string token. */
  function StringToken(t: seq<Unit>): Parsed {
    var open := Token(t, QUOTE);
    if open.None? then Bad else Characters(open.value)
  }

  datatype Ref = Ref(endpointId: seq<Unit>, id: seq<Unit>)

  /** `JSON.parse` followed by the tuple schema, lengths aside: an array of exactly
      two strings. */
  function ParsePair(text: seq<Unit>): Option<Ref> {
    var open := Token(text, 91);
    if open.None? then None else
    var a := StringToken(open.value);
    if a.Bad? then None else
    var comma := Token(a.rest, 44);
    if comma.None? then None else
    var b := StringToken(comma.value);
    if b.Bad? then None else
    var close := Token(b.rest, 93);
    if close.None? || Skip(close.value) != [] then None else Some(Ref(a.value, b.value))
  }

  lemma TokenReads(c: Unit, rest: seq<Unit>)
    requires c != 32 && c != 9 && c != 10 && c != 13
    ensures Token([c] + rest, c) == Some(rest)
  {
    assert ([c] + rest)[1..] == rest;
  }

  lemma QuotedReads(t: seq<Unit>, rest: seq<Unit>)
    ensures StringToken(Quoted(t, rest)) == Text(t, rest)
  {
    TokenReads(QUOTE, Escape(t) + ([QUOTE] + rest));
    CharactersOfEscape(t, rest);
  }

  lemma ParseOfPairText(a: seq<Unit>, b: seq<Unit>)
    ensures ParsePair(PairText(a, b)) == Some(Ref(a, b))
  {
    TokenReads(91, Quoted(a, [44] + Quoted(b, [93])));
    QuotedReads(a, [44] + Quoted(b, [93]));
    TokenReads(44, Quoted(b, [93]));
    QuotedReads(b, [93]);
    TokenReads(93, []);
    assert [93] + [] == [93 as Unit];
  }

  lemma QuotedPaired(t: seq<Unit>, rest: seq<Unit>)
    requires Paired(rest)
    ensures Paired(Quoted(t, rest))
  {
    EscapePaired(t);
    PlainPaired([QUOTE]);
    PairedConcat([QUOTE], rest);
    PairedConcat(Escape(t), [QUOTE] + rest);
    PairedConcat([QUOTE], Escape(t) + ([QUOTE] + rest));
  }

  lemma PairTextPaired(a: seq<Unit>, b: seq<Unit>)
    ensures Paired(PairText(a, b))
  {
    PlainPaired([93]);
    QuotedPaired(b, [93]);
    PlainPaired([44]);
    PairedConcat([44], Quoted(b, [93]));
    QuotedPaired(a, [44] + Quoted(b, [93]));
    PlainPaired([91]);
    PairedConcat([91], Quoted(a, [44] + Quoted(b, [93])));
  }

  // ---------------------------------------------------------------- binding ids

  /** `resource:` */
  const PREFIX: seq<Unit> := [114, 101, 115, 111, 117, 114, 99, 101, 58]

  predicate Schema(ref: Ref) { 1 <= |ref.endpointId| <= 200 && 1 <= |ref.id| <= 512 }

  function Payload(ref: Ref): seq<Unit> {
    PairTextPaired(ref.endpointId, ref.id);
    Symbols(Sextets(Utf8(PairText(ref.endpointId, ref.id))))
  }

  /** `resourceBindingId`. */
  function ResourceBindingId(ref: Ref): Option<seq<Unit>> {
    if !Schema(ref) || |PREFIX + Payload(ref)| > 512 then None else Some(PREFIX + Payload(ref))
  }

  /** `^resource:[A-Za-z0-9_-]{1,503}$` */
  predicate WellFormed(id: seq<Unit>) {
    && PREFIX <= id && 1 <= |id| - 9 <= 503
    && (forall i :: 9 <= i < |id| ==> InAlphabet(id[i]))
  }

  function Decoded(id: seq<Unit>): Option<Ref>
    requires WellFormed(id)
  {
    var text := FromUtf8(Octets(Values(id[9..])));
    if text.None? then None else ParsePair(text.value)
  }

  /** `bindingResourceRef`. */
  function BindingResourceRef(id: seq<Unit>, endpointId: seq<Unit>): Option<Ref> {
    if !WellFormed(id) then None
    else
      var ref := Decoded(id);
      if ref.None? || !Schema(ref.value) || ref.value.endpointId != endpointId
        || ResourceBindingId(ref.value) != Some(id)
      then None else ref
  }

  /** Every id that was issued has the shape the reader demands, and decodes to the
      resource it was issued for: the limit of 512 on one side is the limit of 503 on
      the other. */
  lemma BindingRoundTrip(ref: Ref, id: seq<Unit>)
    requires ResourceBindingId(ref) == Some(id)
    ensures WellFormed(id) && BindingResourceRef(id, ref.endpointId) == Some(ref)
  {
    var text := PairText(ref.endpointId, ref.id);
    PairTextPaired(ref.endpointId, ref.id);
    var bytes := Utf8(text);
    var sextets := Sextets(bytes);
    ValuesOfSymbols(sextets);
    FromUtf8OfUtf8(text);
    OctetsOfSextets(bytes);
    ParseOfPairText(ref.endpointId, ref.id);
    assert id[9..] == Symbols(sextets);
    assert text[0] == 91;
    assert bytes[0] == 91;
    forall i | 9 <= i < |id| ensures InAlphabet(id[i]) { assert id[i] == Symbols(sextets)[i - 9]; }
  }

  // ---------------------------------------------------------------- which ids are issued

  /** The bytes that a text takes inside the JSON pair: controls and lone surrogates are
      escaped, a surrogate pair takes four bytes. */
  function Cost(t: seq<Unit>): nat {
    if t == [] then 0
    else if 0xD800 <= t[0] < 0xDC00 && |t| >= 2 && 0xDC00 <= t[1] < 0xE000 then 4 + Cost(t[2..])
    else
      (if t[0] in {8, 9, 10, 12, 13, 34, 92} then 2
       else if t[0] < 32 || 0xD800 <= t[0] < 0xE000 then 6
       else if t[0] < 0x80 then 1
       else if t[0] < 0x800 then 2
       else 3) + Cost(t[1..])
  }

  lemma {:induction false} Utf8Concat(a: seq<Unit>, b: seq<Unit>)
    requires Paired(a) && Paired(b)
    ensures Paired(a + b) && |Utf8(a + b)| == |Utf8(a)| + |Utf8(b)|
    decreases |a|
  {
    PairedConcat(a, b);
    if a == [] {
      assert a + b == b;
    } else if High(a[0]) {
      assert (a + b)[2..] == a[2..] + b;
      Utf8Concat(a[2..], b);
    } else {
      assert (a + b)[1..] == a[1..] + b;
      Utf8Concat(a[1..], b);
    }
  }

  lemma {:induction false} AsciiBytes(t: seq<Unit>)
    requires forall i :: 0 <= i < |t| ==> t[i] < 0x80
    ensures Paired(t) && |Utf8(t)| == |t|
  {
    if t != [] { AsciiBytes(t[1..]); }
  }

  lemma OneBytes(u: Unit)
    ensures Paired(EscapeOne(u))
    ensures |Utf8(EscapeOne(u))| == Cost([u])
  {
    if u < 0x80 || High(u) || Low(u) {
      AsciiBytes(EscapeOne(u));
    } else {
      PlainPaired([u]);
      assert Utf8([u]) == UnitOctets(u) + Utf8([u][1..]);
    }
  }

  lemma {:induction false} EscapeCosts(t: seq<Unit>)
    ensures Paired(Escape(t)) && |Utf8(Escape(t))| == Cost(t)
    decreases |t|
  {
    EscapePaired(t);
    if t == [] {
    } else if PairAhead(t) {
      EscapeCosts(t[2..]);
      assert Escape(t)[2..] == Escape(t[2..]);
    } else {
      EscapeCosts(t[1..]);
      OneBytes(t[0]);
      Utf8Concat(EscapeOne(t[0]), Escape(t[1..]));
    }
  }

  lemma QuotedCosts(t: seq<Unit>, rest: seq<Unit>)
    requires Paired(rest)
    ensures Paired(Quoted(t, rest)) && |Utf8(Quoted(t, rest))| == Cost(t) + 2 + |Utf8(rest)|
  {
    EscapeCosts(t);
    AsciiBytes([QUOTE]);
    Utf8Concat([QUOTE], rest);
    Utf8Concat(Escape(t), [QUOTE] + rest);
    Utf8Concat([QUOTE], Escape(t) + ([QUOTE] + rest));
  }

  lemma PairCosts(a: seq<Unit>, b: seq<Unit>)
    ensures Paired(PairText(a, b)) && |Utf8(PairText(a, b))| == Cost(a) + Cost(b) + 7
  {
    AsciiBytes([93]);
    QuotedCosts(b, [93]);
    AsciiBytes([44]);
    Utf8Concat([44], Quoted(b, [93]));
    QuotedCosts(a, [44] + Quoted(b, [93]));
    AsciiBytes([91]);
    Utf8Concat([91], Quoted(a, [44] + Quoted(b, [93])));
  }

  lemma {:induction false} SextetsCount(b: seq<Byte>)
    ensures |Sextets(b)| == (4 * |b| + 2) / 3
    decreases |b|
  {
    if |b| >= 3 { SextetsCount(b[3..]); }
  }

  /** Exactly when a resource gets an id: both its names have their length, and together
      they take at most 370 bytes inside the JSON pair. */
  lemma IssuedIff(ref: Ref)
    ensures ResourceBindingId(ref).Some? <==>
      && 1 <= |ref.endpointId| <= 200 && 1 <= |ref.id| <= 512
      && Cost(ref.endpointId) + Cost(ref.id) <= 370
  {
    PairCosts(ref.endpointId, ref.id);
    SextetsCount(Utf8(PairText(ref.endpointId, ref.id)));
  }

  /** What the three standards write, in characters: the alphabet of base64url in runs, the
      escapes of JSON, and UTF-8 at each length, for the euro sign and U+1F600 say. */
  lemma KnownCodes(s: Sextet, digit: int)
    ensures s <= 25 ==> Symbol(s) == 'A' as int + s
    ensures 26 <= s <= 51 ==> Symbol(s) == 'a' as int + (s - 26)
    ensures 52 <= s <= 61 ==> Symbol(s) == '0' as int + (s - 52)
    ensures Symbol(62) == '-' as int && Symbol(63) == '_' as int
    ensures 0 <= digit < 10 ==> Hex(digit) == '0' as int + digit
    ensures 10 <= digit < 16 ==> Hex(digit) == 'a' as int + (digit - 10)
    ensures Short('\t' as int) == Some('t' as int) && Short('\n' as int) == Some('n' as int)
    ensures Short('\r' as int) == Some('r' as int) && Short(8) == Some('b' as int) && Short(12) == Some('f' as int)
    ensures Short('"' as int) == Some('"' as int) && Short('\\' as int) == Some('\\' as int)
    ensures Long(0x1F) == ['\\' as int, 'u' as int, '0' as int, '0' as int, '1' as int, 'f' as int]
    ensures Long(0xD83D) == ['\\' as int, 'u' as int, 'd' as int, '8' as int, '3' as int, 'd' as int]
    ensures UnitOctets(0x7F) == [0x7F] && UnitOctets(0x80) == [0xC2, 0x80] && UnitOctets(0x7FF) == [0xDF, 0xBF]
    ensures UnitOctets(0x800) == [0xE0, 0xA0, 0x80] && UnitOctets(0x20AC) == [0xE2, 0x82, 0xAC]
    ensures PairOctets(0xD83D, 0xDE00) == [0xF0, 0x9F, 0x98, 0x80]
    ensures Symbols(Sextets([0x4D, 0x61, 0x6E])) == ['T' as int, 'W' as int, 'F' as int, 'u' as int]
    ensures Symbols(Sextets([0x4D, 0x61])) == ['T' as int, 'W' as int, 'E' as int]
    ensures Symbols(Sextets([0x4D])) == ['T' as int, 'Q' as int]
  {
    assert Sextets([0x4D, 0x61, 0x6E]) == [19, 22, 5, 46] by {
      assert [0x4D as Byte, 0x61, 0x6E][3..] == [];
    }
  }

  // ---------------------------------------------------------------- strict reading

  lemma Restored(a: int, b: int, c: int, d: int)
    requires 0 <= a < 8 && 0 <= b < 64 && 0 <= c < 64 && 0 <= d < 64
    ensures var p := Bits(a, b, c, d); p / 262144 == a && p / 4096 % 64 == b && p / 64 % 64 == c && p % 64 == d
    ensures var p := Bits(a, b, c, d); p / 64 == a * 4096 + b * 64 + c && p / 4096 == a * 64 + b
  {
    var p := Bits(a, b, c, d);
    assert p == 64 * (a * 4096 + b * 64 + c) + d;
    assert a * 4096 + b * 64 + c == 64 * (a * 64 + b) + c;
  }

  lemma TwoBytes(b: seq<Byte>)
    requires |b| >= 2 && 0xC2 <= b[0] < 0xE0 && Follower(b[1])
    ensures var u := Bits(0, 0, b[0] - 0xC0, b[1] - 0x80);
      0x80 <= u < 0x800 && !High(u) && !Low(u) && UnitOctets(u) == b[..2]
  {
    Restored(0, 0, b[0] - 0xC0, b[1] - 0x80);
  }

  lemma ThreeBytes(b: seq<Byte>)
    requires |b| >= 3 && 0xE0 <= b[0] < 0xF0 && Follower(b[1]) && Follower(b[2])
    requires var u := Bits(0, b[0] - 0xE0, b[1] - 0x80, b[2] - 0x80); u >= 0x800 && !(0xD800 <= u < 0xE000)
    ensures var u := Bits(0, b[0] - 0xE0, b[1] - 0x80, b[2] - 0x80);
      0 <= u < 0x10000 && !High(u) && !Low(u) && UnitOctets(u) == b[..3]
  {
    Restored(0, b[0] - 0xE0, b[1] - 0x80, b[2] - 0x80);
  }

  lemma PairOf(p: int)
    requires 0x10000 <= p <= 0x10FFFF
    ensures
      var high, low := 0xD800 + (p - 0x10000) / 1024, 0xDC00 + (p - 0x10000) % 1024;
      0xD800 <= high < 0xDC00 && 0xDC00 <= low < 0xE000 && Point(high, low) == p
  {
  }

  lemma FourBytes(b: seq<Byte>, high: Unit, low: Unit)
    requires |b| >= 4 && 0xF0 <= b[0] < 0xF5 && Follower(b[1]) && Follower(b[2]) && Follower(b[3])
    requires High(high) && Low(low)
    requires Point(high, low) == Bits(b[0] - 0xF0, b[1] - 0x80, b[2] - 0x80, b[3] - 0x80)
    ensures PairOctets(high, low) == b[..4]
  {
    Restored(b[0] - 0xF0, b[1] - 0x80, b[2] - 0x80, b[3] - 0x80);
  }

  lemma Ahead(b: seq<Byte>, n: nat)
    requires n <= |b|
    ensures b == b[..n] + b[n..]
  {
  }

  /** One character more in front of what was read. */
  lemma Prepended(head: seq<Unit>, rest: seq<Unit>, b: seq<Byte>, n: nat)
    requires n <= |b| && Paired(rest) && Utf8(rest) == b[n..]
    requires (|head| == 1 && !High(head[0]) && !Low(head[0]) && b[..n] == UnitOctets(head[0]))
      || (|head| == 2 && High(head[0]) && Low(head[1]) && b[..n] == PairOctets(head[0], head[1]))
    ensures Paired(head + rest) && Utf8(head + rest) == b
  {
    Ahead(b, n);
    assert (head + rest)[|head|..] == rest;
  }

  /** Exactly the well-formed texts are read: bytes are decoded if and only if they encode a
      text without lone surrogates, and then to that text. */
  lemma {:induction false} FromUtf8Iff(b: seq<Byte>, t: seq<Unit>)
    ensures FromUtf8(b) == Some(t) <==> Paired(t) && Utf8(t) == b
  {
    if Paired(t) && Utf8(t) == b { FromUtf8OfUtf8(t); }
    if FromUtf8(b).Some? { Utf8OfFromUtf8(b); }
  }

  lemma FirstReads(b: seq<Byte>)
    requires b != [] && FirstRead(b).Some?
    ensures var Read(head, n) := FirstRead(b).value;
      || (|head| == 1 && !High(head[0]) && !Low(head[0]) && b[..n] == UnitOctets(head[0]))
      || (|head| == 2 && High(head[0]) && Low(head[1]) && b[..n] == PairOctets(head[0], head[1]))
  {
    if b[0] < 0x80 {
    } else if b[0] < 0xE0 {
      TwoBytes(b);
    } else if b[0] < 0xF0 {
      ThreeBytes(b);
    } else {
      var p := Bits(b[0] - 0xF0, b[1] - 0x80, b[2] - 0x80, b[3] - 0x80);
      PairOf(p);
      FourBytes(b, 0xD800 + (p - 0x10000) / 1024, 0xDC00 + (p - 0x10000) % 1024);
    }
  }

  lemma {:induction false} Utf8OfFromUtf8(b: seq<Byte>)
    requires FromUtf8(b).Some?
    ensures Paired(FromUtf8(b).value) && Utf8(FromUtf8(b).value) == b
    decreases |b|
  {
    if b != [] {
      var Read(head, n) := FirstRead(b).value;
      Utf8OfFromUtf8(b[n..]);
      FirstReads(b);
      Prepended(head, FromUtf8(b[n..]).value, b, n);
    }
  }

  /** What may follow a backslash when JSON is read, and what a hexadecimal digit is. */
  lemma KnownReads(c: Unit)
    ensures '0' as int <= c <= '9' as int ==> HexValue(c) == Some(c - '0' as int)
    ensures 'a' as int <= c <= 'f' as int ==> HexValue(c) == Some(10 + c - 'a' as int)
    ensures 'A' as int <= c <= 'F' as int ==> HexValue(c) == Some(10 + c - 'A' as int)
    ensures c < '0' as int || '9' as int < c < 'A' as int || 'F' as int < c < 'a' as int || 'f' as int < c ==>
      HexValue(c).None?
    ensures Unescaped('/' as int) == Some('/' as int) && Unescaped('b' as int) == Some(8)
    ensures Unescaped(c).Some? <==>
      c in {'"' as int, '\\' as int, '/' as int, 'b' as int, 'f' as int, 'n' as int, 'r' as int, 't' as int}
    ensures Characters(['\\' as int, 'n' as int, QUOTE]) == Text([10], [])
  {
    assert [BACKSLASH, 110, QUOTE][2..] == [QUOTE] && [QUOTE][1..] == [];
  }

  /** An accepted id is the one encoding of its resource, within its own endpoint. */
  lemma AcceptedIsCanonical(id: seq<Unit>, endpointId: seq<Unit>, ref: Ref)
    ensures BindingResourceRef(id, endpointId) == Some(ref) <==>
      ResourceBindingId(ref) == Some(id) && ref.endpointId == endpointId
  {
    if ResourceBindingId(ref) == Some(id) { BindingRoundTrip(ref, id); }
  }

  /** No two resources share an id, whatever their endpoints. */
  lemma BindingIsInjective(a: Ref, b: Ref, id: seq<Unit>)
    requires ResourceBindingId(a) == Some(id) && ResourceBindingId(b) == Some(id)
    ensures a == b
  {
    BindingRoundTrip(a, id);
    BindingRoundTrip(b, id);
  }
}
