/** `JsonLineClient`: one JSON object per line over a socket, many requests in
    flight, each promise settled exactly once.

    Decoding UTF-8 and JSON is a parameter (`Peer.parse`).  A socket is a number;
    a destroyed socket delivers no more data.  Request ids are fresh. */
module JsonLines {
  import opened Common
  import opened Bytes

  type Id = string

  datatype Evidence = NotSent | Unknown

  /** How a promise ends. */
  datatype Outcome = Resolved(result: nat) | Failed(evidence: Evidence)

  datatype Pending = Pending(sent: bool, write: bool)

  /** A promise handed to a caller, with every settlement attempted on it. */
  datatype Issued = Issued(write: bool, calls: seq<Outcome>)

  /** What a line says.  Only text ids can name a request. */
  datatype Reply =
    | Garbage
    | Note(body: nat)
    | Answer(id: Option<Id>, error: bool, result: Option<nat>, versioned: bool)

  datatype Peer = Peer(limit: nat, jsonRpc: bool, parse: seq<Byte> -> Reply)

  datatype Client = Client(
    pending: map<Id, Pending>, timers: set<Id>, issued: map<Id, Issued>, notes: seq<nat>,
    buffer: seq<Byte>, socket: Option<nat>, destroyed: set<nat>, closed: bool)
  {
    predicate Broken() { socket.Some? && socket.value in destroyed }
  }

  // ---------------------------------------------------------------- settling

  function Called(issued: map<Id, Issued>, id: Id, o: Outcome): map<Id, Issued> {
    if id in issued then issued[id := Issued(issued[id].write, issued[id].calls + [o])] else issued
  }

  function Settle(c: Client, id: Id, o: Outcome): Client {
    c.(pending := c.pending - {id}, timers := c.timers - {id}, issued := Called(c.issued, id, o))
  }

  /** The evidence a lost connection leaves about one request. */
  function Lost(item: Pending): Evidence { if item.write && item.sent then Unknown else NotSent }

  function FailSome(issued: map<Id, Issued>, pending: map<Id, Pending>, ids: set<Id>): map<Id, Issued>
    requires ids <= pending.Keys
  {
    map id | id in issued ::
      if id in ids
      then Issued(issued[id].write, issued[id].calls + [Failed(Lost(pending[id]))])
      else issued[id]
  }

  function FailAll(c: Client): Client {
    c.(pending := map[], timers := c.timers - c.pending.Keys,
       issued := FailSome(c.issued, c.pending, c.pending.Keys))
  }

  lemma FailOneMore(issued: map<Id, Issued>, pending: map<Id, Pending>, ids: set<Id>, id: Id)
    requires ids <= pending.Keys && id in pending && id !in ids
    ensures FailSome(issued, pending, ids + {id})
         == Called(FailSome(issued, pending, ids), id, Failed(Lost(pending[id])))
  {
  }

  function Verdict(p: Peer, item: Pending, error: bool, result: Option<nat>, versioned: bool): Outcome {
    if error || result.None? || (p.jsonRpc && !versioned)
    then Failed(if item.write then Unknown else NotSent)
    else Resolved(result.value)
  }

  /** One well-formed line. */
  function Hear(p: Peer, c: Client, reply: Reply): (next: Client)
    ensures next.buffer == c.buffer && next.socket == c.socket
    ensures next.destroyed == c.destroyed && next.closed == c.closed
  {
    match reply
    case Garbage => c
    case Note(body) => c.(notes := c.notes + [body])
    case Answer(id, error, result, versioned) =>
      if id.Some? && id.value in c.pending
      then Settle(c, id.value, Verdict(p, c.pending[id.value], error, result, versioned))
      else c
  }

  function Invalid(c: Client): Client {
    var failed := FailAll(c);
    failed.(destroyed := if c.socket.Some? then c.destroyed + {c.socket.value} else c.destroyed)
  }

  /** One round of the framing loop: it goes on, or it was the last. */
  datatype Round = More(c: Client) | Last(c: Client)

  function OneLine(p: Peer, c: Client): (r: Round)
    ensures r.c.socket == c.socket && r.c.closed == c.closed
    ensures |r.c.buffer| <= |c.buffer| && (r.More? ==> |r.c.buffer| < |c.buffer|)
  {
    var end := FirstNewline(c.buffer);
    if end > p.limit then Last(Invalid(c))
    else if end == |c.buffer| then Last(c)
    else
      var rest := c.(buffer := c.buffer[end + 1..]);
      if end == 0 then More(rest)
      else
        var reply := p.parse(c.buffer[..end]);
        if reply.Garbage? then Last(Invalid(rest)) else More(Hear(p, rest, reply))
  }

  /** The framing loop over whatever the buffer holds. */
  function Drain(p: Peer, c: Client): (next: Client)
    ensures next.socket == c.socket && next.closed == c.closed
    decreases |c.buffer|
  {
    var round := OneLine(p, c);
    if round.Last? then round.c else Drain(p, round.c)
  }

  lemma BufferApart(p: Peer, c: Client, reply: Reply, buffer: seq<Byte>)
    ensures Hear(p, c.(buffer := buffer), reply) == Hear(p, c, reply).(buffer := buffer)
    ensures Invalid(c.(buffer := buffer)) == Invalid(c).(buffer := buffer)
  {
  }

  // ---------------------------------------------------------------- events

  datatype Event =
    | Offer(id: Id, write: bool, on: nat)
    | Data(from: nat, bytes: seq<Byte>)
    | Expire(id: Id)
    | WriteFailed(id: Id)
    | Gone(from: nat)
    | Retire
    | Connected(to: nat)
    | Close

  /** When the platform can raise an event: timers fire once and only while
      armed, a destroyed socket is silent, ids and sockets are new, and a new
      connection is made only while there is none. */
  predicate Enabled(c: Client, e: Event) {
    match e
    case Offer(id, _, on) => id !in c.issued && (c.socket == Some(on) || on in c.destroyed)
    case Data(from, _) => from !in c.destroyed
    case Expire(id) => id in c.timers
    case WriteFailed(id) => id in c.issued
    case Gone(_) => true
    case Retire => true
    case Connected(to) => c.socket.None? && to !in c.destroyed
    case Close => true
  }

  predicate Refused(c: Client, on: nat) { c.closed || on in c.destroyed }

  function Next(p: Peer, c: Client, e: Event): Client {
    match e
    case Offer(id, write, on) =>
      if Refused(c, on) then c
      else c.(pending := c.pending[id := Pending(true, write)], timers := c.timers + {id},
              issued := c.issued[id := Issued(write, [])])
    case Data(from, bytes) =>
      if c.socket != Some(from) then c else Drain(p, c.(buffer := c.buffer + bytes))
    case Expire(id) =>
      if id !in c.pending then c.(timers := c.timers - {id})
      else Settle(c, id, Failed(Lost(c.pending[id])))
    case WriteFailed(id) =>
      if id !in c.pending then c
      else Settle(c, id, Failed(if c.pending[id].write then Unknown else NotSent))
    case Gone(from) =>
      var dead := c.(destroyed := c.destroyed + {from});
      if c.socket != Some(from) then dead else FailAll(dead.(socket := None, buffer := []))
    case Retire =>
      if c.Broken() then FailAll(c.(socket := None, buffer := [])) else c
    case Connected(to) =>
      if c.closed then c.(destroyed := c.destroyed + {to}) else c.(socket := Some(to))
    case Close =>
      var failed := FailAll(c.(closed := true));
      if c.socket.Some? then failed.(destroyed := c.destroyed + {c.socket.value}) else failed
  }

  function Play(p: Peer, c: Client, events: seq<Event>): Client {
    if events == [] then c else Next(p, Play(p, c, events[..|events| - 1]), events[|events| - 1])
  }

  predicate Possible(p: Peer, c: Client, events: seq<Event>) {
    events != [] ==>
      var before := events[..|events| - 1];
      Possible(p, c, before) && Enabled(Play(p, c, before), events[|events| - 1])
  }

  const FRESH := Client(map[], {}, map[], [], [], None, {}, false)

  // ---------------------------------------------------------------- exactly once

  /** A promise in flight was never settled and its bytes were handed to the
      socket; every other promise was settled once, and a failure says honestly
      whether it was a write. */
  predicate Promise(c: Client, id: Id) {
    && (id in c.pending <==> id in c.timers)
    && (id in c.pending ==>
      id in c.issued && c.issued[id].calls == []
      && c.pending[id] == Pending(true, c.issued[id].write))
    && (id in c.issued && id !in c.pending ==>
      |c.issued[id].calls| == 1
      && (c.issued[id].calls[0].Failed? ==>
            c.issued[id].calls[0].evidence == if c.issued[id].write then Unknown else NotSent))
  }

  ghost predicate Honest(c: Client) {
    && (forall id: Id :: Promise(c, id))
    && (c.socket.None? ==> c.buffer == [])
  }

  lemma {:induction false} DrainHonest(p: Peer, c: Client)
    requires forall id: Id :: Promise(c, id)
    ensures forall id: Id :: Promise(Drain(p, c), id)
    decreases |c.buffer|
  {
    var end := FirstNewline(c.buffer);
    if end <= p.limit && end < |c.buffer| {
      var rest := c.(buffer := c.buffer[end + 1..]);
      assert forall id: Id :: Promise(c, id) ==> Promise(rest, id);
      if end == 0 {
        DrainHonest(p, rest);
      } else {
        var reply := p.parse(c.buffer[..end]);
        if reply.Garbage? {
          assert forall id: Id :: Promise(c, id) ==> Promise(Invalid(rest), id);
        } else {
          var heard := Hear(p, rest, reply);
          assert forall id: Id :: Promise(c, id) ==> Promise(heard, id);
          DrainHonest(p, heard);
        }
      }
    } else {
      assert forall id: Id :: Promise(c, id) ==> Promise(Invalid(c), id);
    }
  }

  lemma NextHonest(p: Peer, c: Client, e: Event)
    requires Honest(c) && Enabled(c, e)
    ensures Honest(Next(p, c, e))
  {
    if e.Data? {
      var fed := c.(buffer := c.buffer + e.bytes);
      assert forall id: Id :: Promise(c, id) ==> Promise(fed, id);
      DrainHonest(p, fed);
    } else {
      forall id: Id ensures Promise(Next(p, c, e), id) { NextKeeps(p, c, e, id); }
    }
  }

  lemma NextKeeps(p: Peer, c: Client, e: Event, id: Id)
    requires Promise(c, id) && Enabled(c, e) && !e.Data?
    ensures Promise(Next(p, c, e), id)
  {
  }

  /** Over every run each request is settled at most once, an unsettled request is
      still pending, a failed write whose bytes were handed to the socket is always
      `Unknown`, and anything else that failed is `NotSent`. */
  lemma {:induction false} SettledExactlyOnce(p: Peer, events: seq<Event>, id: Id)
    requires Possible(p, FRESH, events)
    ensures Honest(Play(p, FRESH, events))
    ensures var c := Play(p, FRESH, events);
      id in c.issued ==>
        && |c.issued[id].calls| == (if id in c.pending then 0 else 1)
        && (c.issued[id].write ==> Failed(NotSent) !in c.issued[id].calls)
        && (!c.issued[id].write ==> Failed(Unknown) !in c.issued[id].calls)
  {
    if events != [] {
      var before := events[..|events| - 1];
      SettledExactlyOnce(p, before, id);
      NextHonest(p, Play(p, FRESH, before), events[|events| - 1]);
    }
    assert Promise(Play(p, FRESH, events), id);
  }

  /** Once a promise is settled no later event touches it. */
  lemma SettledForGood(p: Peer, c: Client, e: Event, id: Id)
    requires Honest(c) && Enabled(c, e) && id in c.issued && id !in c.pending
    ensures var next := Next(p, c, e); id in next.issued && next.issued[id] == c.issued[id] && id !in next.pending
  {
    assert Promise(c, id);
    if e.Data? { DrainKeeps(p, c.(buffer := c.buffer + e.bytes), id); }
  }

  lemma {:induction false} DrainKeeps(p: Peer, c: Client, id: Id)
    requires id in c.issued && id !in c.pending
    ensures var next := Drain(p, c); id in next.issued && next.issued[id] == c.issued[id] && id !in next.pending
    decreases |c.buffer|
  {
    var end := FirstNewline(c.buffer);
    if end <= p.limit && end < |c.buffer| {
      var rest := c.(buffer := c.buffer[end + 1..]);
      if end == 0 {
        DrainKeeps(p, rest, id);
      } else if !p.parse(c.buffer[..end]).Garbage? {
        DrainKeeps(p, Hear(p, rest, p.parse(c.buffer[..end])), id);
      }
    }
  }

  // ---------------------------------------------------------------- framing

  /** Equal but for the bytes a rejected connection has left unread. */
  predicate SameView(a: Client, b: Client) {
    a.(buffer := []) == b.(buffer := []) && (!a.Broken() ==> a.buffer == b.buffer)
  }

  /** The socket delivers one chunk, unless it was destroyed. */
  function Feed(p: Peer, c: Client, chunk: seq<Byte>): Client {
    if c.Broken() || c.socket.None? then c else Next(p, c, Data(c.socket.value, chunk))
  }

  function FeedAll(p: Peer, c: Client, chunks: seq<seq<Byte>>): Client
    decreases |chunks|
  {
    if chunks == [] then c else FeedAll(p, Feed(p, c, chunks[0]), chunks[1..])
  }

  function Joined(chunks: seq<seq<Byte>>): seq<Byte> {
    if chunks == [] then [] else chunks[0] + Joined(chunks[1..])
  }

  lemma {:induction false} FirstNewlineExtends(text: seq<Byte>, more: seq<Byte>)
    ensures FirstNewline(text + more) >= FirstNewline(text)
    ensures FirstNewline(text) < |text| ==> FirstNewline(text + more) == FirstNewline(text)
  {
    if text == [] || text[0] == NEWLINE {
      assert text != [] ==> (text + more)[0] == text[0];
    } else {
      assert (text + more)[1..] == text[1..] + more;
      FirstNewlineExtends(text[1..], more);
    }
  }

  /** The first line of the buffer decides the next round of the loop. */
  lemma DrainLine(p: Peer, c: Client, line: seq<Byte>, after: seq<Byte>)
    requires NEWLINE !in line && |line| <= p.limit && c.buffer == line + ([NEWLINE] + after)
    ensures Drain(p, c) ==
      if line == [] then Drain(p, c.(buffer := after))
      else if p.parse(line).Garbage? then Invalid(c.(buffer := after))
      else Drain(p, Hear(p, c.(buffer := after), p.parse(line)))
  {
    FirstNewlineAfter(line, [NEWLINE] + after);
    LineCuts(line, after);
    DrainOnce(p, c, |line|);
  }

  lemma LineCuts(line: seq<Byte>, after: seq<Byte>)
    ensures var all := line + ([NEWLINE] + after); all[..|line|] == line && all[|line| + 1..] == after
  {
  }

  lemma DrainOnce(p: Peer, c: Client, end: nat)
    requires end == FirstNewline(c.buffer) && end <= p.limit && end < |c.buffer|
    ensures
      var rest, reply := c.(buffer := c.buffer[end + 1..]), p.parse(c.buffer[..end]);
      Drain(p, c) == if end == 0 then Drain(p, rest)
                     else if reply.Garbage? then Invalid(rest) else Drain(p, Hear(p, rest, reply))
  {
  }

  lemma {:induction false} DrainAppend(p: Peer, c: Client, more: seq<Byte>)
    requires c.socket.Some? && !c.Broken()
    ensures SameView(Feed(p, Drain(p, c), more), Drain(p, c.(buffer := c.buffer + more)))
    decreases |c.buffer|
  {
    var end := FirstNewline(c.buffer);
    FirstNewlineExtends(c.buffer, more);
    if end <= p.limit && end < |c.buffer| {
      var line, after := c.buffer[..end], c.buffer[end + 1..];
      LineAhead(p, c, line, after, more);
      var rest := c.(buffer := after);
      if line == [] {
        DrainAppend(p, rest, more);
      } else if !p.parse(line).Garbage? {
        DrainAppend(p, Hear(p, rest, p.parse(line)), more);
      }
    }
  }

  /** With a whole line ahead, what follows it does not matter for this line. */
  lemma LineAhead(p: Peer, c: Client, line: seq<Byte>, after: seq<Byte>, more: seq<Byte>)
    requires NEWLINE !in line && |line| <= p.limit && |line| < |c.buffer|
    requires line == c.buffer[..|line|] && after == c.buffer[|line| + 1..] && c.buffer[|line|] == NEWLINE
    ensures
      var rest, all := c.(buffer := after), c.(buffer := c.buffer + more);
      && Drain(p, c) == (if line == [] then Drain(p, rest)
                         else if p.parse(line).Garbage? then Invalid(rest) else Drain(p, Hear(p, rest, p.parse(line))))
      && Drain(p, all) == (if line == [] then Drain(p, rest.(buffer := after + more))
                           else if p.parse(line).Garbage? then Invalid(rest).(buffer := after + more)
                           else Drain(p, Hear(p, rest, p.parse(line)).(buffer := after + more)))
  {
    var all := c.(buffer := c.buffer + more);
    assert c.buffer == line + ([NEWLINE] + after);
    assert all.buffer == line + ([NEWLINE] + (after + more));
    DrainLine(p, c, line, after);
    DrainLine(p, all, line, after + more);
    BufferApart(p, c.(buffer := after), p.parse(line), after + more);
  }

  lemma {:induction false} FeedAllSame(p: Peer, a: Client, b: Client, chunks: seq<seq<Byte>>)
    requires SameView(a, b) && a.Broken()
    ensures SameView(FeedAll(p, a, chunks), b)
  {
    if chunks != [] { FeedAllSame(p, Feed(p, a, chunks[0]), b, chunks[1..]); }
  }

  /** However the stream is cut into chunks, the same frames are delivered, the
      same requests settled with the same outcomes, and the connection is
      rejected at the same frame. */
  lemma {:induction false} ChunkingIsInvisible(p: Peer, c: Client, chunks: seq<seq<Byte>>)
    requires c.socket.Some? && !c.Broken() && Drain(p, c) == c
    ensures SameView(FeedAll(p, c, chunks), Feed(p, c, Joined(chunks)))
    decreases |chunks|
  {
    if chunks == [] {
      assert c.buffer + [] == c.buffer;
    } else {
      var fed := c.(buffer := c.buffer + chunks[0]);
      var first := Drain(p, fed);
      DrainAppend(p, fed, Joined(chunks[1..]));
      assert fed.buffer + Joined(chunks[1..]) == c.buffer + Joined(chunks);
      if first.Broken() {
        FeedAllSame(p, first, Feed(p, c, Joined(chunks)), chunks[1..]);
      } else {
        DrainStops(p, fed);
        ChunkingIsInvisible(p, first, chunks[1..]);
      }
    }
  }

  lemma {:induction false} DrainStops(p: Peer, c: Client)
    requires !Drain(p, c).Broken() && c.socket.Some?
    ensures Drain(p, Drain(p, c)) == Drain(p, c)
    ensures NEWLINE !in Drain(p, c).buffer && |Drain(p, c).buffer| <= p.limit
    decreases |c.buffer|
  {
    var end := FirstNewline(c.buffer);
    if end <= p.limit && end < |c.buffer| {
      var rest := c.(buffer := c.buffer[end + 1..]);
      if end == 0 {
        DrainStops(p, rest);
      } else {
        DrainStops(p, Hear(p, rest, p.parse(c.buffer[..end])));
      }
    } else {
      assert c.buffer[..end] == c.buffer;
    }
  }

  /** What the whole stream means, with no buffer: cut it at every newline and
      take the pieces in order up to the first bad one. */
  function Judge(p: Peer, c: Client, pieces: seq<seq<Byte>>): Client
    requires pieces != []
    decreases |pieces|
  {
    if |pieces[0]| > p.limit then Invalid(c)
    else if |pieces| == 1 then c.(buffer := pieces[0])
    else if pieces[0] == [] then Judge(p, c, pieces[1..])
    else
      var reply := p.parse(pieces[0]);
      if reply.Garbage? then Invalid(c) else Judge(p, Hear(p, c, reply), pieces[1..])
  }

  lemma JudgeNext(p: Peer, c: Client, line: seq<Byte>, pieces: seq<seq<Byte>>)
    requires pieces != [] && |line| <= p.limit
    ensures Judge(p, c, [line] + pieces)
         == if line == [] then Judge(p, c, pieces)
            else if p.parse(line).Garbage? then Invalid(c)
            else Judge(p, Hear(p, c, p.parse(line)), pieces)
  {
    assert ([line] + pieces)[1..] == pieces;
  }

  lemma DrainStopsHere(p: Peer, c: Client)
    requires c.socket.Some? && (FirstNewline(c.buffer) > p.limit || FirstNewline(c.buffer) == |c.buffer|)
    ensures SameView(Drain(p, c), Judge(p, c.(buffer := []), Split(c.buffer)))
  {
    var end := FirstNewline(c.buffer);
    BufferApart(p, c, Garbage, []);
    if end == |c.buffer| { assert c.buffer[..end] == c.buffer; }
    assert Split(c.buffer)[0] == c.buffer[..end];
  }

  /** The incremental receiver computes exactly that. */
  lemma {:induction false} DrainIsSplit(p: Peer, c: Client)
    requires c.socket.Some? && !c.Broken()
    ensures SameView(Drain(p, c), Judge(p, c.(buffer := []), Split(c.buffer)))
    decreases |c.buffer|
  {
    var end := FirstNewline(c.buffer);
    if end > p.limit || end == |c.buffer| {
      DrainStopsHere(p, c);
    } else {
      var line, after := c.buffer[..end], c.buffer[end + 1..];
      assert c.buffer == line + ([NEWLINE] + after);
      DrainLine(p, c, line, after);
      JudgeNext(p, c.(buffer := []), line, Split(after));
      if line == [] {
        DrainIsSplit(p, c.(buffer := after));
      } else {
        BufferApart(p, c, p.parse(line), after);
        BufferApart(p, c, p.parse(line), []);
        if !p.parse(line).Garbage? { DrainIsSplit(p, Hear(p, c.(buffer := after), p.parse(line))); }
      }
    }
  }

  /** What a stream means for one pending request: the first object that names it
      decides, unless a bad piece comes first. */
  datatype Fate = Waiting | Rejected | Told(error: bool, result: Option<nat>, versioned: bool)

  function FateOf(p: Peer, pieces: seq<seq<Byte>>, id: Id): Fate
    requires pieces != []
    decreases |pieces|
  {
    if |pieces[0]| > p.limit then Rejected
    else if |pieces| == 1 then Waiting
    else if pieces[0] == [] then FateOf(p, pieces[1..], id)
    else
      match p.parse(pieces[0])
      case Garbage => Rejected
      case Note(_) => FateOf(p, pieces[1..], id)
      case Answer(of, error, result, versioned) =>
        if of == Some(id) then Told(error, result, versioned) else FateOf(p, pieces[1..], id)
  }

  function Settlement(p: Peer, item: Pending, f: Fate): seq<Outcome> {
    match f
    case Waiting => []
    case Rejected => [Failed(Lost(item))]
    case Told(error, result, versioned) => [Verdict(p, item, error, result, versioned)]
  }

  lemma {:induction false} JudgeKeeps(p: Peer, c: Client, pieces: seq<seq<Byte>>, id: Id)
    requires pieces != [] && id in c.issued && id !in c.pending
    ensures id in Judge(p, c, pieces).issued && Judge(p, c, pieces).issued[id] == c.issued[id]
    decreases |pieces|
  {
    if |pieces[0]| <= p.limit && |pieces| > 1 {
      if pieces[0] == [] {
        JudgeKeeps(p, c, pieces[1..], id);
      } else if !p.parse(pieces[0]).Garbage? {
        JudgeKeeps(p, Hear(p, c, p.parse(pieces[0])), pieces[1..], id);
      }
    }
  }

  lemma HearOthers(p: Peer, c: Client, reply: Reply, id: Id)
    requires id in c.issued && id in c.pending && !(reply.Answer? && reply.id == Some(id))
    ensures var n := Hear(p, c, reply);
      id in n.issued && n.issued[id] == c.issued[id] && id in n.pending && n.pending[id] == c.pending[id]
  {
  }

  lemma HearOwn(p: Peer, c: Client, reply: Reply, id: Id)
    requires id in c.issued && id in c.pending && reply.Answer? && reply.id == Some(id)
    ensures var n := Hear(p, c, reply);
      id in n.issued && id !in n.pending
      && n.issued[id].calls
         == c.issued[id].calls + [Verdict(p, c.pending[id], reply.error, reply.result, reply.versioned)]
  {
  }

  lemma {:induction false} JudgeDecides(p: Peer, c: Client, pieces: seq<seq<Byte>>, id: Id)
    requires pieces != [] && id in c.issued && id in c.pending && c.issued[id].calls == []
    ensures var n := Judge(p, c, pieces);
      id in n.issued && n.issued[id].calls == Settlement(p, c.pending[id], FateOf(p, pieces, id))
    decreases |pieces|
  {
    if |pieces[0]| <= p.limit && |pieces| > 1 {
      if pieces[0] == [] {
        JudgeDecides(p, c, pieces[1..], id);
      } else {
        var reply := p.parse(pieces[0]);
        var heard := Hear(p, c, reply);
        if reply.Answer? && reply.id == Some(id) {
          HearOwn(p, c, reply, id);
          JudgeKeeps(p, heard, pieces[1..], id);
        } else if !reply.Garbage? {
          HearOthers(p, c, reply, id);
          JudgeDecides(p, heard, pieces[1..], id);
        }
      }
    }
  }

  /** An answer resolves with its result exactly when it has no error, has one, and names the
      protocol version when the peer speaks JSON-RPC; any other fails. */
  lemma AnswerMeans(p: Peer, item: Pending, error: bool, result: Option<nat>, versioned: bool)
    ensures
      var o := Verdict(p, item, error, result, versioned);
      && (forall v: nat :: o == Resolved(v) <==> !error && result == Some(v) && (p.jsonRpc ==> versioned))
      && (o.Failed? ==> o == Failed(if item.write then Unknown else NotSent))
  {
  }

  /** A request is settled by the first object of the stream that names it: resolved
      with `v` if and only if that object has no error, has the result `v`, and names the
      protocol version when the peer speaks JSON-RPC; any other such object fails it, and
      so does a bad piece before one.  A failed write is always `Unknown`, anything else
      `NotSent`. */
  lemma StreamDecides(p: Peer, c: Client, chunks: seq<seq<Byte>>, id: Id)
    requires c.socket.Some? && !c.Broken() && Drain(p, c) == c && Promise(c, id) && id in c.pending
    ensures id in FeedAll(p, c, chunks).issued
    ensures
      var calls := FeedAll(p, c, chunks).issued[id].calls;
      var evidence := if c.issued[id].write then Unknown else NotSent;
      match FateOf(p, Split(c.buffer + Joined(chunks)), id)
      case Waiting => calls == []
      case Rejected => calls == [Failed(evidence)]
      case Told(error, result, versioned) =>
        && |calls| == 1
        && (forall v: nat :: calls[0] == Resolved(v) <==> !error && result == Some(v) && (p.jsonRpc ==> versioned))
        && (calls[0].Failed? ==> calls[0] == Failed(evidence))
  {
    var all := c.(buffer := c.buffer + Joined(chunks));
    ChunkingIsInvisible(p, c, chunks);
    DrainIsSplit(p, all);
    JudgeDecides(p, all.(buffer := []), Split(all.buffer), id);
    var fate := FateOf(p, Split(all.buffer), id);
    if fate.Told? { AnswerMeans(p, c.pending[id], fate.error, fate.result, fate.versioned); }
  }

  /** A piece that no peer may send: too long, or a whole line that is not one object. */
  ghost predicate BadAt(p: Peer, pieces: seq<seq<Byte>>, i: int) {
    && 0 <= i < |pieces|
    && (|pieces[i]| > p.limit || (i < |pieces| - 1 && pieces[i] != [] && p.parse(pieces[i]).Garbage?))
  }

  ghost predicate Bad(p: Peer, pieces: seq<seq<Byte>>) { exists i :: BadAt(p, pieces, i) }

  lemma {:induction false} JudgeBreaks(p: Peer, c: Client, pieces: seq<seq<Byte>>)
    requires pieces != [] && c.socket.Some? && !c.Broken()
    ensures Judge(p, c, pieces).Broken() <==> Bad(p, pieces)
    decreases |pieces|
  {
    if BadAt(p, pieces, 0) {
    } else if |pieces| > 1 {
      JudgeBreaks(p, if pieces[0] == [] then c else Hear(p, c, p.parse(pieces[0])), pieces[1..]);
      forall i ensures BadAt(p, pieces, i) <==> BadAt(p, pieces[1..], i - 1) { }
      if i :| BadAt(p, pieces[1..], i) { assert BadAt(p, pieces, i + 1); }
    }
  }

  /** The notifications of a stream up to its first bad piece. */
  function NotesOf(p: Peer, pieces: seq<seq<Byte>>): seq<nat>
    requires pieces != []
    decreases |pieces|
  {
    if |pieces[0]| > p.limit || |pieces| == 1 then []
    else if pieces[0] == [] then NotesOf(p, pieces[1..])
    else
      match p.parse(pieces[0])
      case Garbage => []
      case Note(body) => [body] + NotesOf(p, pieces[1..])
      case Answer(_, _, _, _) => NotesOf(p, pieces[1..])
  }

  lemma {:induction false} JudgeNotes(p: Peer, c: Client, pieces: seq<seq<Byte>>)
    requires pieces != []
    ensures Judge(p, c, pieces).notes == c.notes + NotesOf(p, pieces)
    decreases |pieces|
  {
    if |pieces[0]| <= p.limit && |pieces| > 1 {
      if pieces[0] == [] {
        JudgeNotes(p, c, pieces[1..]);
      } else if !p.parse(pieces[0]).Garbage? {
        JudgeNotes(p, Hear(p, c, p.parse(pieces[0])), pieces[1..]);
      }
    }
  }

  lemma SameBreaks(a: Client, b: Client)
    requires SameView(a, b)
    ensures (a.Broken() <==> b.Broken()) && a.notes == b.notes
  {
    var x, y := a.(buffer := []), b.(buffer := []);
    assert x.socket == y.socket && x.destroyed == y.destroyed && x.notes == y.notes;
  }

  /** However a stream is cut into chunks, its socket is destroyed exactly when a piece is
      bad, and until then every notification is passed on, in order. */
  lemma StreamIsRead(p: Peer, c: Client, chunks: seq<seq<Byte>>)
    requires c.socket.Some? && !c.Broken() && Drain(p, c) == c
    ensures
      var n, pieces := FeedAll(p, c, chunks), Split(c.buffer + Joined(chunks));
      && (n.Broken() <==> Bad(p, pieces))
      && n.notes == c.notes + NotesOf(p, pieces)
  {
    var all := c.(buffer := c.buffer + Joined(chunks));
    var judged := Judge(p, all.(buffer := []), Split(all.buffer));
    ChunkingIsInvisible(p, c, chunks);
    DrainIsSplit(p, all);
    assert Feed(p, c, Joined(chunks)) == Drain(p, all);
    SameBreaks(Drain(p, all), judged);
    SameBreaks(FeedAll(p, c, chunks), Drain(p, all));
    assert FeedAll(p, c, chunks).Broken() == judged.Broken();
    JudgeBreaks(p, all.(buffer := []), Split(all.buffer));
    JudgeNotes(p, all.(buffer := []), Split(all.buffer));
  }

  /** Everything that was pending has failed: a write is unknown once its bytes were handed
      to the socket, and everything else was not sent. */
  ghost predicate AllFailed(c: Client, n: Client) {
    && n.pending == map[] && n.timers !! c.pending.Keys
    && (forall id :: id in c.issued ==> id in n.issued && n.issued[id].write == c.issued[id].write)
    && (forall id :: id in c.issued && id !in c.pending ==> n.issued[id] == c.issued[id])
    && (forall id :: id in c.issued && id in c.pending ==>
          n.issued[id].calls == c.issued[id].calls
            + [Failed(if c.pending[id].write && c.pending[id].sent then Unknown else NotSent)])
  }

  /** What each event of the platform and of the owner does, apart from data. */
  lemma EventMeans(p: Peer, c: Client, e: Event)
    requires !e.Data? && Enabled(c, e)
    ensures
      var n := Next(p, c, e);
      && n.notes == c.notes
      && match e
         case Offer(id, write, on) =>
           if c.closed || on in c.destroyed then n == c
           else
             && n.pending == c.pending[id := Pending(true, write)] && n.timers == c.timers + {id}
             && n.issued == c.issued[id := Issued(write, [])] && n.buffer == c.buffer && n.socket == c.socket
         case Expire(id) =>
           && id !in n.pending && id !in n.timers && n.pending - {id} == c.pending - {id}
           && n.socket == c.socket && n.buffer == c.buffer && n.destroyed == c.destroyed
           && (id in c.pending && id in c.issued ==>
                 n.issued[id].calls == c.issued[id].calls
                   + [Failed(if c.pending[id].write && c.pending[id].sent then Unknown else NotSent)])
         case WriteFailed(id) =>
           && id !in n.pending && n.pending - {id} == c.pending - {id}
           && n.socket == c.socket && n.buffer == c.buffer && n.destroyed == c.destroyed
           && n.issued[id].calls == (if id !in c.pending then c.issued[id].calls
                else c.issued[id].calls + [Failed(if c.pending[id].write then Unknown else NotSent)])
         case Gone(from) =>
           && n.destroyed == c.destroyed + {from} && n.closed == c.closed
           && (if c.socket == Some(from) then n.socket.None? && n.buffer == [] && AllFailed(c, n)
               else n == c.(destroyed := n.destroyed))
         case Retire =>
           if c.socket.Some? && c.socket.value in c.destroyed then
             n.socket.None? && n.buffer == [] && n.destroyed == c.destroyed && AllFailed(c, n)
           else n == c
         case Connected(to) =>
           if c.closed then n == c.(destroyed := c.destroyed + {to}) else n == c.(socket := Some(to))
         case Close =>
           && n.closed && AllFailed(c, n) && n.socket == c.socket
           && n.destroyed == c.destroyed + (if c.socket.Some? then {c.socket.value} else {})
  {
  }

  // ---------------------------------------------------------------- the object

  class JsonLineClient {
    const peer: Peer
    var pending: map<Id, Pending>
    var timers: set<Id>
    var buffer: seq<Byte>
    var socket: Option<nat>
    var closed: bool
    /** What callers and the platform have seen. */
    var issued: map<Id, Issued>
    var notes: seq<nat>
    var destroyed: set<nat>

    function Abs(): Client reads this {
      Client(pending, timers, issued, notes, buffer, socket, destroyed, closed)
    }

    constructor (peer: Peer)
      ensures Abs() == FRESH && this.peer == peer
    {
      this.peer := peer;
      pending, timers, issued, notes, buffer, socket, destroyed, closed :=
        map[], {}, map[], [], [], None, {}, false;
    }

    /** The part of `request` after its last guard: register, then hand the bytes
        to the socket. */
    method Offer(id: Id, write: bool, on: nat) returns (refused: bool)
      requires Enabled(Abs(), Event.Offer(id, write, on))
      modifies `pending, `timers, `issued
      ensures refused == Refused(old(Abs()), on)
      ensures Abs() == Next(peer, old(Abs()), Event.Offer(id, write, on))
    {
      if closed || on in destroyed { return true; }
      pending, timers := pending[id := Pending(false, write)], timers + {id};
      issued := issued[id := Issued(write, [])];
      pending := pending[id := pending[id].(sent := true)];
      return false;
    }

    method Receive(from: nat, data: seq<Byte>)
      requires Enabled(Abs(), Data(from, data))
      modifies `buffer, `pending, `timers, `issued, `notes, `destroyed
      ensures Abs() == Next(peer, old(Abs()), Data(from, data))
    {
      if socket != Some(from) { return; }
      buffer := buffer + data;
      ghost var whole := Abs();
      var more := true;
      while more
        invariant socket == old(socket)
        invariant (if more then Drain(peer, Abs()) else Abs()) == Drain(peer, whole)
        decreases |buffer| + if more then 1 else 0
      {
        more := TakeLine(from);
      }
    }

    /** One round of the framing loop. */
    method TakeLine(from: nat) returns (more: bool)
      requires socket == Some(from)
      modifies `buffer, `pending, `timers, `issued, `notes, `destroyed
      ensures Abs() == OneLine(peer, old(Abs())).c && more == OneLine(peer, old(Abs())).More?
    {
      var end := FirstNewline(buffer);
      if end == |buffer| {
        if |buffer| > peer.limit { Reject(from); }
        return false;
      }
      if end > peer.limit { Reject(from); return false; }
      var line := buffer[..end];
      buffer := buffer[end + 1..];
      if line == [] { return true; }
      var value := peer.parse(line);
      if value.Garbage? { Reject(from); return false; }
      Dispatch(value);
      return true;
    }

    method Dispatch(value: Reply)
      requires !value.Garbage?
      modifies `pending, `timers, `issued, `notes
      ensures Abs() == Hear(peer, old(Abs()), value)
    {
      if value.Note? { notes := notes + [value.body]; return; }
      if value.id.None? || value.id.value !in pending { return; }
      var id := value.id.value;
      var item := pending[id];
      pending, timers := pending - {id}, timers - {id};
      if value.error || value.result.None? || (peer.jsonRpc && !value.versioned) {
        issued := Called(issued, id, Failed(if item.write then Unknown else NotSent));
      } else {
        issued := Called(issued, id, Resolved(value.result.value));
      }
    }

    /** `invalid`. */
    method Reject(from: nat)
      requires socket == Some(from)
      modifies `pending, `timers, `issued, `destroyed
      ensures Abs() == Invalid(old(Abs()))
    {
      RejectAll();
      destroyed := destroyed + {from};
    }

    /** `failAll`: reject what is pending, one promise after the other. */
    method RejectAll()
      modifies `pending, `timers, `issued
      ensures Abs() == FailAll(old(Abs()))
    {
      var rest := pending.Keys;
      while rest != {}
        modifies `timers, `issued
        invariant rest <= pending.Keys
        invariant timers == old(timers) - (pending.Keys - rest)
        invariant issued == FailSome(old(issued), pending, pending.Keys - rest)
        decreases |rest|
      {
        var id :| id in rest;
        FailOneMore(old(issued), pending, pending.Keys - rest, id);
        assert pending.Keys - rest + {id} == pending.Keys - (rest - {id});
        timers := timers - {id};
        issued := Called(issued, id, Failed(Lost(pending[id])));
        rest := rest - {id};
      }
      assert pending.Keys - {} == pending.Keys;
      pending := map[];
    }

    method Expire(id: Id)
      requires Enabled(Abs(), Event.Expire(id)) && Honest(Abs())
      modifies `pending, `timers, `issued
      ensures Abs() == Next(peer, old(Abs()), Event.Expire(id))
    {
      assert Promise(Abs(), id);
      var item := pending[id];
      pending, timers := pending - {id}, timers - {id};
      issued := Called(issued, id, Failed(Lost(item)));
    }

    method WriteFailed(id: Id)
      requires Enabled(Abs(), Event.WriteFailed(id))
      modifies `pending, `timers, `issued
      ensures Abs() == Next(peer, old(Abs()), Event.WriteFailed(id))
    {
      if id in pending {
        var item := pending[id];
        pending, timers := pending - {id}, timers - {id};
        issued := Called(issued, id, Failed(if item.write then Unknown else NotSent));
      }
    }

    /** The `close` event of a socket. */
    method Gone(from: nat)
      modifies `pending, `timers, `issued, `buffer, `socket, `destroyed
      ensures Abs() == Next(peer, old(Abs()), Event.Gone(from))
    {
      destroyed := destroyed + {from};
      if socket == Some(from) {
        socket, buffer := None, [];
        RejectAll();
      }
    }

    /** `connect`, before the new socket is opened: a destroyed socket's calls and
        partial frame are retired. */
    method Retire()
      modifies `pending, `timers, `issued, `buffer, `socket
      ensures Abs() == Next(peer, old(Abs()), Event.Retire)
    {
      if socket.Some? && socket.value in destroyed {
        socket, buffer := None, [];
        RejectAll();
      }
    }

    method Connected(to: nat)
      requires Enabled(Abs(), Event.Connected(to))
      modifies `socket, `destroyed
      ensures Abs() == Next(peer, old(Abs()), Event.Connected(to))
    {
      if closed { destroyed := destroyed + {to}; } else { socket := Some(to); }
    }

    method Close()
      modifies `pending, `timers, `issued, `destroyed, `closed
      ensures Abs() == Next(peer, old(Abs()), Event.Close)
    {
      closed := true;
      RejectAll();
      if socket.Some? { destroyed := destroyed + {socket.value}; }
    }
  }
}
