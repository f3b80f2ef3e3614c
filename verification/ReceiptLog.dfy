/** The append-only receipt file of `InboundReceiptJournal`, byte by byte.

    A file is a header line followed by one line for each saved fact, each line
    ended by a newline byte.  JSON itself is a parameter (`Wire`): what is proved
    holds for every encoding that puts one object on one line. */
module ReceiptLog {
  import opened Common
  import opened Bytes

  datatype Phase = Received | Submitting | Accepted | Handled | Unconfirmed

  type Key = string

  /** `clientUserMessageId` is `gateway-` followed by the key and is left implicit. */
  datatype Receipt = Receipt(
    phase: Phase,
    actorId: Option<string>, conversationId: Option<string>,
    sessionId: Option<string>, hostId: Option<string>, threadId: Option<string>,
    turnId: Option<string>, queuedSubmissionId: Option<string>,
    nativeInput: bool, runtimeInput: bool, recoveredNativeInput: bool)
  {
    /** The shape a restart accepts: terminal input never carries native evidence. */
    predicate WellFormed() {
      runtimeInput ==> !nativeInput && !Truthy(turnId) && !Truthy(queuedSubmissionId)
    }
  }

  datatype Entry = Entry(key: Key, receipt: Receipt)

  /** An encoding of entries as lines. */
  datatype Wire = Wire(
    header: seq<Byte>, isHeader: seq<Byte> -> bool,
    encode: Entry -> seq<Byte>, decode: seq<Byte> -> Option<Entry>)
  {
    predicate OneLine(text: seq<Byte>) {
      text != [] && NEWLINE !in text && !IsSpace(text[|text| - 1])
    }

    /** What JSON text guarantees: an object is one line that ends in `}`. */
    ghost predicate Lawful() {
      && OneLine(header) && isHeader(header)
      && (forall e: Entry :: OneLine(encode(e)) && decode(encode(e)) == Some(e))
    }

    function Line(e: Entry): seq<Byte> { encode(e) + [NEWLINE] }
  }

  predicate IsSpace(b: Byte) { 9 <= b <= 13 || b == 32 }

  // ---------------------------------------------------------------- text

  /** `lastIndexOf(10) + 1`. */
  function AfterLastNewline(text: seq<Byte>): (end: nat)
    ensures end <= |text|
    ensures end > 0 ==> text[end - 1] == NEWLINE
    ensures NEWLINE !in text[end..]
  {
    if text == [] then 0
    else if text[|text| - 1] == NEWLINE then |text|
    else
      var end := AfterLastNewline(text[..|text| - 1]);
      assert text[end..] == text[..|text| - 1][end..] + [text[|text| - 1]];
      end
  }

  function TrimEnd(text: seq<Byte>): seq<Byte> {
    if text != [] && IsSpace(text[|text| - 1]) then TrimEnd(text[..|text| - 1]) else text
  }

  /** Trimming takes away the blanks at the end and nothing else: tabs, line feeds, vertical
      tabs, form feeds, carriage returns and spaces. */
  lemma {:induction false} TrimEndMeans(text: seq<Byte>)
    ensures TrimEnd(text) <= text
    ensures forall i :: |TrimEnd(text)| <= i < |text| ==> text[i] in {0x09, 0x0A, 0x0B, 0x0C, 0x0D, 0x20}
    ensures TrimEnd(text) != [] ==> TrimEnd(text)[|TrimEnd(text)| - 1] !in {0x09, 0x0A, 0x0B, 0x0C, 0x0D, 0x20}
  {
    if text != [] && IsSpace(text[|text| - 1]) { TrimEndMeans(text[..|text| - 1]); }
  }

  // ---------------------------------------------------------------- files

  function Lines(w: Wire, log: seq<Entry>): seq<Byte> {
    if log == [] then [] else w.Line(log[0]) + Lines(w, log[1..])
  }

  /** The file that holds exactly the facts `log`. */
  function Render(w: Wire, log: seq<Entry>): seq<Byte> {
    w.header + [NEWLINE] + Lines(w, log)
  }

  /** The map a log stands for: the last fact about a key wins. */
  function Replay(log: seq<Entry>): map<Key, Receipt> {
    if log == [] then map[]
    else var last := log[|log| - 1]; Replay(log[..|log| - 1])[last.key := last.receipt]
  }

  function DecodeAll(w: Wire, lines: seq<seq<Byte>>): Option<seq<Entry>> {
    if lines == [] then Some([])
    else match w.decode(lines[0])
      case None => None
      case Some(e) =>
        if !e.receipt.WellFormed() then None
        else match DecodeAll(w, lines[1..])
          case None => None
          case Some(rest) => Some([e] + rest)
  }

  /** What the constructor reads from an existing file: the facts of its whole
      lines and the length it keeps; `None` when it refuses the file. */
  function Parse(w: Wire, raw: seq<Byte>): Option<(seq<Entry>, nat)> {
    var end := AfterLastNewline(raw);
    if end == 0 then None
    else
      var lines := Split(TrimEnd(raw[..end]));
      if !w.isHeader(lines[0]) then None
      else match DecodeAll(w, lines[1..])
        case None => None
        case Some(log) => Some((log, end))
  }

  // ---------------------------------------------------------------- proofs

  lemma {:induction false} LinesAppend(w: Wire, log: seq<Entry>, e: Entry)
    ensures Lines(w, log + [e]) == Lines(w, log) + w.Line(e)
  {
    if log == [] {
      assert log + [e] == [e];
      assert Lines(w, [e][1..]) == [];
    } else {
      assert (log + [e])[1..] == log[1..] + [e];
      LinesAppend(w, log[1..], e);
    }
  }

  lemma RenderAppend(w: Wire, log: seq<Entry>, e: Entry)
    ensures Render(w, log + [e]) == Render(w, log) + w.Line(e)
  {
    LinesAppend(w, log, e);
  }

  lemma ReplayAppend(log: seq<Entry>, e: Entry)
    ensures Replay(log + [e]) == Replay(log)[e.key := e.receipt]
  {
    assert (log + [e])[..|log|] == log;
  }

  lemma {:induction false} AfterLastNewlineAt(whole: seq<Byte>, tail: seq<Byte>)
    requires whole != [] && whole[|whole| - 1] == NEWLINE && NEWLINE !in tail
    ensures AfterLastNewline(whole + tail) == |whole|
  {
    if tail == [] {
      assert whole + tail == whole;
    } else {
      assert (whole + tail)[..|whole + tail| - 1] == whole + tail[..|tail| - 1];
      AfterLastNewlineAt(whole, tail[..|tail| - 1]);
    }
  }

  /** The text of a whole file without its last newline. */
  function Unended(w: Wire, first: seq<Byte>, log: seq<Entry>): seq<Byte>
    decreases |log|
  {
    if log == [] then first else first + [NEWLINE] + Unended(w, w.encode(log[0]), log[1..])
  }

  function Encodings(w: Wire, log: seq<Entry>): seq<seq<Byte>> {
    if log == [] then [] else [w.encode(log[0])] + Encodings(w, log[1..])
  }

  lemma {:induction false} UnendedEnds(w: Wire, first: seq<Byte>, log: seq<Entry>)
    ensures Unended(w, first, log) + [NEWLINE] == first + [NEWLINE] + Lines(w, log)
    decreases |log|
  {
    if log != [] {
      var next := w.encode(log[0]);
      UnendedEnds(w, next, log[1..]);
      assert first + [NEWLINE] + Unended(w, next, log[1..]) + [NEWLINE]
          == first + [NEWLINE] + (Unended(w, next, log[1..]) + [NEWLINE]);
      assert Lines(w, log) == next + [NEWLINE] + Lines(w, log[1..]);
    }
  }

  lemma {:induction false} UnendedTrimmed(w: Wire, first: seq<Byte>, log: seq<Entry>)
    requires w.Lawful() && w.OneLine(first)
    ensures var text := Unended(w, first, log); text != [] && !IsSpace(text[|text| - 1])
    decreases |log|
  {
    if log != [] {
      UnendedTrimmed(w, w.encode(log[0]), log[1..]);
    }
  }

  lemma {:induction false} UnendedSplit(w: Wire, first: seq<Byte>, log: seq<Entry>)
    requires w.Lawful() && w.OneLine(first)
    ensures Split(Unended(w, first, log)) == [first] + Encodings(w, log)
    decreases |log|
  {
    if log == [] {
      SplitFirst(first, []);
    } else {
      var next := w.encode(log[0]);
      UnendedSplit(w, next, log[1..]);
      SplitFirst(first, Unended(w, next, log[1..]));
    }
  }

  ghost predicate AllWellFormed(log: seq<Entry>) {
    forall i :: 0 <= i < |log| ==> log[i].receipt.WellFormed()
  }

  lemma {:induction false} DecodeEncodings(w: Wire, log: seq<Entry>)
    requires w.Lawful() && AllWellFormed(log)
    ensures DecodeAll(w, Encodings(w, log)) == Some(log)
  {
    if log != [] {
      assert Encodings(w, log)[1..] == Encodings(w, log[1..]);
      DecodeEncodings(w, log[1..]);
      assert [log[0]] + log[1..] == log;
    }
  }

  /** `text` is a whole file with the facts `log`: its last line is ended, does not end
      in white space, and every line after the header decodes. */
  ghost predicate Holds(w: Wire, text: seq<Byte>, log: seq<Entry>) {
    && |text| >= 2 && text[|text| - 1] == NEWLINE && !IsSpace(text[|text| - 2])
    && Strict(w, text) && DecodeAll(w, Split(text[..|text| - 1])[1..]) == Some(log)
  }

  /** Read without trimming first, every line of the file counts. */
  predicate Strict(w: Wire, text: seq<Byte>)
    requires text != []
  {
    var lines := Split(text[..|text| - 1]);
    w.isHeader(lines[0]) && DecodeAll(w, lines[1..]).Some?
  }

  /** What the journal writes is such a file. */
  lemma RenderHolds(w: Wire, log: seq<Entry>)
    requires w.Lawful() && AllWellFormed(log)
    ensures Holds(w, Render(w, log), log)
  {
    UnendedEnds(w, w.header, log);
    UnendedTrimmed(w, w.header, log);
    UnendedSplit(w, w.header, log);
    var whole, text := Render(w, log), Unended(w, w.header, log);
    assert whole == text + [NEWLINE] && whole[..|whole| - 1] == text;
    assert Split(text)[1..] == Encodings(w, log);
    DecodeEncodings(w, log);
  }

  lemma {:induction false} DecodeAppend(w: Wire, lines: seq<seq<Byte>>, line: seq<Byte>, e: Entry)
    requires w.decode(line) == Some(e) && e.receipt.WellFormed()
    ensures DecodeAll(w, lines + [line]) ==
      match DecodeAll(w, lines) case None => None case Some(log) => Some(log + [e])
  {
    if lines == [] {
      assert lines + [line] == [line] && [line][1..] == [];
      assert [line][0] == line && [e] + [] == [e] && [] + [e] == [e];
    } else {
      assert (lines + [line])[1..] == lines[1..] + [line] && (lines + [line])[0] == lines[0];
      DecodeAppend(w, lines[1..], line, e);
      if w.decode(lines[0]).Some? && DecodeAll(w, lines[1..]).Some? {
        EntryFirst(w.decode(lines[0]).value, DecodeAll(w, lines[1..]).value, e);
      }
    }
  }

  lemma EntryFirst(first: Entry, log: seq<Entry>, e: Entry)
    ensures [first] + (log + [e]) == [first] + log + [e]
  {
  }

  /** The lines of a file with one more line. */
  lemma LinesMore(w: Wire, text: seq<Byte>, e: Entry)
    requires w.Lawful() && text != [] && text[|text| - 1] == NEWLINE
    ensures var more := text + w.Line(e);
      && more[..|more| - 1] == text + w.encode(e)
      && Split(text + w.encode(e)) == Split(text[..|text| - 1]) + [w.encode(e)]
  {
    var more := text + w.Line(e);
    assert more == text + w.encode(e) + [NEWLINE];
    assert text + w.encode(e) == text[..|text| - 1] + [NEWLINE] + w.encode(e);
    SplitJoin(text[..|text| - 1], w.encode(e));
    SplitFirst(w.encode(e), []);
  }

  lemma HoldsAppend(w: Wire, text: seq<Byte>, log: seq<Entry>, e: Entry)
    requires w.Lawful() && Holds(w, text, log) && e.receipt.WellFormed()
    ensures Holds(w, text + w.Line(e), log + [e])
  {
    var lines, more := Split(text[..|text| - 1]), text + w.Line(e);
    LinesMore(w, text, e);
    assert (lines + [w.encode(e)])[1..] == lines[1..] + [w.encode(e)];
    DecodeAppend(w, lines[1..], w.encode(e), e);
    assert more[|more| - 2] == w.encode(e)[|w.encode(e)| - 1];
  }

  /** A file that ends in an unfinished line reads as the file without it. */
  lemma ParseTorn(w: Wire, text: seq<Byte>, log: seq<Entry>, tail: seq<Byte>)
    requires Holds(w, text, log) && NEWLINE !in tail
    ensures Parse(w, text + tail) == Some((log, |text|))
  {
    AfterLastNewlineAt(text, tail);
    assert (text + tail)[..|text|] == text;
    assert TrimEnd(text) == TrimEnd(text[..|text| - 1]) == text[..|text| - 1];
  }

  /** Torn writes.  Whatever prefix of an append survives a crash, the next start
      reads either all earlier facts or those and the new one, and nothing else:
      the new value appears exactly when its whole line survived, every other key
      keeps its value, and the bytes kept are again a whole file. */
  lemma TornAppendRefinesMap(w: Wire, text: seq<Byte>, log: seq<Entry>, e: Entry, survived: nat)
    requires w.Lawful() && Holds(w, text, log) && e.receipt.WellFormed()
    requires survived <= |w.Line(e)|
    ensures var raw := text + w.Line(e)[..survived];
            var r := Parse(w, raw);
            && r.Some?
            && Holds(w, raw[..r.value.1], r.value.0)
            && r.value.0 == (if survived == |w.Line(e)| then log + [e] else log)
            && Replay(r.value.0) == (if survived == |w.Line(e)| then Replay(log)[e.key := e.receipt] else Replay(log))
  {
    var line := w.Line(e);
    if survived == |line| {
      assert line[..survived] == line;
      HoldsAppend(w, text, log, e);
      ReplayAppend(log, e);
      ParseTorn(w, text + line, log + [e], []);
      assert text + line + [] == text + line && (text + line)[..|text + line|] == text + line;
    } else {
      assert line[..survived] == w.encode(e)[..survived];
      ParseTorn(w, text, log, line[..survived]);
      assert (text + line[..survived])[..|text|] == text;
    }
  }

  /** A file that ends in a whole line that does not end in white space is read as it
      stands. */
  lemma ParseEnded(w: Wire, text: seq<Byte>)
    requires |text| >= 2 && text[|text| - 1] == NEWLINE && !IsSpace(text[|text| - 2])
    ensures Parse(w, text).Some? <==> Strict(w, text)
  {
    AfterLastNewlineAt(text, []);
    assert text + [] == text && text[..|text|] == text;
    assert TrimEnd(text) == TrimEnd(text[..|text| - 1]) == text[..|text| - 1];
  }

  lemma StrictMore(w: Wire, text: seq<Byte>, e: Entry)
    requires w.Lawful() && e.receipt.WellFormed() && text != [] && text[|text| - 1] == NEWLINE
    ensures Strict(w, text + w.Line(e)) <==> Strict(w, text)
  {
    var lines := Split(text[..|text| - 1]);
    LinesMore(w, text, e);
    assert (lines + [w.encode(e)])[1..] == lines[1..] + [w.encode(e)] && (lines + [w.encode(e)])[0] == lines[0];
    DecodeAppend(w, lines[1..], w.encode(e), e);
  }

  /** Exactly when a file that was just read can be appended to and read again: when all
      its kept lines decode as they stand.  Blank lines at the end, which a start trims
      away, are broken middle lines after the first append. */
  lemma ReadsAgainIff(w: Wire, raw: seq<Byte>, e: Entry)
    requires w.Lawful() && Parse(w, raw).Some? && e.receipt.WellFormed()
    ensures var kept := raw[..Parse(w, raw).value.1];
      Parse(w, kept + w.Line(e)).Some? <==> Strict(w, kept)
  {
    var kept := raw[..Parse(w, raw).value.1];
    var more := kept + w.Line(e);
    assert more[|more| - 2] == w.encode(e)[|w.encode(e)| - 1];
    StrictMore(w, kept, e);
    ParseEnded(w, more);
  }

  lemma BlankTrimmed(w: Wire, text: seq<Byte>, log: seq<Entry>)
    requires Holds(w, text, log)
    ensures Parse(w, text + [NEWLINE]) == Some((log, |text| + 1))
  {
    var raw := text + [NEWLINE];
    AfterLastNewlineAt(raw, []);
    assert raw + [] == raw && raw[..|raw|] == raw && raw[..|raw| - 1] == text;
    assert TrimEnd(raw) == TrimEnd(text);
    assert TrimEnd(text) == TrimEnd(text[..|text| - 1]) == text[..|text| - 1];
  }

  lemma BlankNotStrict(w: Wire, text: seq<Byte>)
    requires text != [] && text[|text| - 1] == NEWLINE && w.decode([]).None?
    ensures !Strict(w, text + [NEWLINE])
  {
    var body := text[..|text| - 1];
    var lines := Split(body);
    assert (text + [NEWLINE])[..|text|] == text == body + [NEWLINE] + [];
    SplitJoin(body, []);
    SplitFirst([], []);
    assert (lines + [[]])[1..] == lines[1..] + [[]];
    DecodeBlank(w, lines[1..]);
  }

  /** A whole file with a blank line behind it starts, and cannot be read again after
      the next append. */
  lemma TrailingBlankLine(w: Wire, text: seq<Byte>, log: seq<Entry>, e: Entry)
    requires w.Lawful() && Holds(w, text, log) && e.receipt.WellFormed() && w.decode([]).None?
    ensures Parse(w, text + [NEWLINE]) == Some((log, |text| + 1))
    ensures Parse(w, text + [NEWLINE] + w.Line(e)).None?
  {
    var raw := text + [NEWLINE];
    BlankTrimmed(w, text, log);
    BlankNotStrict(w, text);
    assert raw[..|raw|] == raw;
    ReadsAgainIff(w, raw, e);
  }

  lemma {:induction false} DecodeBlank(w: Wire, lines: seq<seq<Byte>>)
    requires w.decode([]).None?
    ensures DecodeAll(w, lines + [[]]).None?
  {
    if lines == [] {
      assert (lines + [[]])[0] == [];
    } else {
      assert (lines + [[]])[1..] == lines[1..] + [[]] && (lines + [[]])[0] == lines[0];
      DecodeBlank(w, lines[1..]);
    }
  }

  /** What a whole file holds is well formed. */
  lemma {:induction false} DecodedWellFormed(w: Wire, lines: seq<seq<Byte>>)
    ensures DecodeAll(w, lines).Some? ==> AllWellFormed(DecodeAll(w, lines).value)
  {
    if lines != [] { DecodedWellFormed(w, lines[1..]); }
  }
}
