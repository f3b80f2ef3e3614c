/** The handoff coordinator and the socket client together: `sendOnce` calls an adapter
    whose one write request carries the final guard as its `beforeWrite`, and what the
    client makes of that request is what the coordinator is told.

    A request runs from the last await to the socket write without interruption.  The
    adapter awaits its request; its reads, and the requests of others, are events of the
    network. */
module HandoffWire {
  import opened Common
  import opened Bytes
  import H = Handoff
  import J = JsonLines

  /** How far the write request of a call has come. */
  datatype Ask = Refused | Wire(id: J.Id)

  /** `wires` is history, also over a crash: whose bytes were handed to a socket. */
  datatype Sys = Sys(desk: H.Desk, client: J.Client, asked: map<H.Key, Ask>, wires: map<J.Id, H.Key>)
  {
    ghost predicate Carried(key: H.Key) { exists id :: id in wires && wires[id] == key }
  }

  datatype Event =
    | Call(key: H.Key, intent: H.Intent, current: bool, busy: bool, write: FileWrite)
    | Request(key: H.Key, id: J.Id, on: nat, current: bool, closes: bool)
    | Net(e: J.Event)
    | Answer(key: H.Key, sent: H.Sent, write: FileWrite)
    | Crash

  /** What the adapter can end with: before its request is on the wire, any error; after
      that what the client made of the request, where a result that is not a receipt
      throws `unknown`. */
  predicate Passes(s: Sys, key: H.Key, sent: H.Sent) {
    if key !in s.asked || s.asked[key].Refused? then sent.RuntimeFailure? || sent.OtherFailure?
    else
      && var id := s.asked[key].id;
      && id in s.client.issued && |s.client.issued[id].calls| == 1
      && match s.client.issued[id].calls[0]
         case Failed(evidence) => sent == H.RuntimeFailure(evidence)
         case Resolved(_) => sent.Returned? || sent.Malformed? || sent == H.RuntimeFailure(J.Unknown)
  }

  predicate Enabled(s: Sys, e: Event) {
    match e
    case Call(_, _, _, _, _) => true
    case Request(key, id, on, _, _) =>
      key in s.desk.flights && key !in s.asked && id !in s.wires && J.Enabled(s.client, J.Offer(id, true, on))
    case Net(e) => J.Enabled(s.client, e) && (e.Offer? ==> !e.write && e.id !in s.wires)
    case Answer(key, sent, _) => key in s.desk.flights && Passes(s, key, sent)
    case Crash => true
  }

  /** `request` after its last await: closed, guard, closed again, write. */
  function Requested(p: J.Peer, s: Sys, key: H.Key, id: J.Id, on: nat, current: bool, closes: bool): Sys {
    var asked := s.(asked := s.asked[key := Refused]);
    if J.Refused(s.client, on) || !current then asked
    else
      var passed := asked.(desk := H.Next(s.desk, H.Guard(key)),
                           client := if closes then J.Next(p, s.client, J.Close) else s.client);
      if J.Refused(passed.client, on) then passed
      else passed.(desk := H.Next(passed.desk, H.Offer(key)), client := J.Next(p, passed.client, J.Offer(id, true, on)),
                   asked := s.asked[key := Wire(id)], wires := s.wires[id := key])
  }

  function Next(p: J.Peer, s: Sys, e: Event): Sys {
    if !Enabled(s, e) then s else
    match e
    case Call(key, intent, current, busy, write) =>
      s.(desk := H.Next(s.desk, H.Begin(key, intent, current, busy, write)))
    case Request(key, id, on, current, closes) => Requested(p, s, key, id, on, current, closes)
    case Net(e) => s.(client := J.Next(p, s.client, e))
    case Answer(key, sent, write) => s.(desk := H.Next(s.desk, H.Finish(key, sent, write)), asked := s.asked - {key})
    case Crash => s.(desk := H.Next(s.desk, H.Crash), client := J.FRESH, asked := map[])
  }

  function After(p: J.Peer, events: seq<Event>): Sys {
    if events == [] then Sys(H.EMPTY, J.FRESH, map[], map[])
    else Next(p, After(p, events[..|events| - 1]), events[|events| - 1])
  }

  // ---------------------------------------------------------------- what is kept

  /** A call's request is on record with the client, as a write. */
  predicate Asked(s: Sys, key: H.Key) {
    key in s.asked ==>
      && key in s.desk.flights
      && (s.asked[key].Wire? ==>
        && s.asked[key].id in s.wires && s.wires[s.asked[key].id] == key
        && s.asked[key].id in s.client.issued && s.client.issued[s.asked[key].id].write)
  }

  /** A record tells whether bytes went out. */
  ghost predicate Tells(s: Sys, key: H.Key, records: map<H.Key, H.Row>) {
    key in records ==>
      && (records[key].phase.NotSent? ==> !s.Carried(key))
      && (records[key].phase.Confirmed? ==> s.Carried(key))
  }

  ghost predicate Sound(s: Sys, key: H.Key) {
    && H.Sound(s.desk, key)
    && (s.Carried(key) ==> key in s.desk.guards)
    && (key in s.desk.flights && s.Carried(key) ==> key in s.asked && s.asked[key].Wire?)
    && Asked(s, key) && Tells(s, key, s.desk.data) && Tells(s, key, s.desk.file)
  }

  lemma {:induction false} DrainKeepsKinds(p: J.Peer, c: J.Client, id: J.Id)
    requires id in c.issued
    ensures id in J.Drain(p, c).issued && J.Drain(p, c).issued[id].write == c.issued[id].write
    decreases |c.buffer|
  {
    var end := FirstNewline(c.buffer);
    if end <= p.limit && end < |c.buffer| {
      var rest := c.(buffer := c.buffer[end + 1..]);
      if end == 0 {
        DrainKeepsKinds(p, rest, id);
      } else if !p.parse(c.buffer[..end]).Garbage? {
        DrainKeepsKinds(p, J.Hear(p, rest, p.parse(c.buffer[..end])), id);
      }
    }
  }

  lemma NetKeepsKinds(p: J.Peer, c: J.Client, e: J.Event, id: J.Id)
    requires id in c.issued && J.Enabled(c, e)
    ensures id in J.Next(p, c, e).issued && J.Next(p, c, e).issued[id].write == c.issued[id].write
  {
    if e.Data? { DrainKeepsKinds(p, c.(buffer := c.buffer + e.bytes), id); }
  }

  lemma CarriedMore(s: Sys, n: Sys, id: J.Id, key: H.Key, k: H.Key)
    requires id !in s.wires && n.wires == s.wires[id := key]
    ensures n.Carried(k) <==> s.Carried(k) || k == key
  {
    assert id in n.wires && n.wires[id] == key;
    if s.Carried(k) {
      var other :| other in s.wires && s.wires[other] == k;
      assert other in n.wires && n.wires[other] == k;
    }
  }

  lemma CarriedSame(s: Sys, n: Sys, k: H.Key)
    requires n.wires == s.wires
    ensures n.Carried(k) <==> s.Carried(k)
  {
  }

  /** The write follows the guard in one segment: the desk never refuses the offer. */
  lemma OfferFollowsGuard(p: J.Peer, s: Sys, e: Event)
    requires e.Request? && Enabled(s, e)
    ensures var n := Next(p, s, e);
      n.wires == s.wires || (n.wires == s.wires[e.id := e.key] && e.key in n.desk.guards && e.key in n.desk.offered
                             && e.id in n.client.issued && n.asked == s.asked[e.key := Wire(e.id)])
  {
  }

  lemma RequestKeepsDesk(p: J.Peer, s: Sys, e: Event, k: H.Key)
    requires e.Request? && Enabled(s, e) && H.Sound(s.desk, k)
    ensures H.Sound(Next(p, s, e).desk, k)
    ensures Next(p, s, e).desk.data == s.desk.data && Next(p, s, e).desk.file == s.desk.file
    ensures Next(p, s, e).desk.flights.Keys == s.desk.flights.Keys && s.desk.guards <= Next(p, s, e).desk.guards
  {
    H.StepSound(s.desk, H.Guard(e.key), k);
    H.StepSound(H.Next(s.desk, H.Guard(e.key)), H.Offer(e.key), k);
  }

  lemma RequestKeepsAsked(p: J.Peer, s: Sys, e: Event, k: H.Key)
    requires e.Request? && Enabled(s, e) && Asked(s, k)
    ensures Asked(Next(p, s, e), k)
  {
    if e.closes && k in s.asked && s.asked[k].Wire? { NetKeepsKinds(p, s.client, J.Close, s.asked[k].id); }
  }

  lemma RequestKeeps(p: J.Peer, s: Sys, e: Event, k: H.Key)
    requires e.Request? && Enabled(s, e) && Sound(s, k) && Sound(s, e.key)
    ensures Sound(Next(p, s, e), k)
  {
    var n := Next(p, s, e);
    RequestKeepsDesk(p, s, e, k);
    RequestKeepsAsked(p, s, e, k);
    OfferFollowsGuard(p, s, e);
    if n.wires == s.wires { CarriedSame(s, n, k); } else { CarriedMore(s, n, e.id, e.key, k); }
  }

  lemma AnswerKeeps(p: J.Peer, s: Sys, e: Event, k: H.Key)
    requires e.Answer? && Enabled(s, e) && Sound(s, k)
    ensures Sound(Next(p, s, e), k)
  {
    H.StepSound(s.desk, H.Finish(e.key, e.sent, e.write), k);
    CarriedSame(s, Next(p, s, e), k);
    if e.key == k && k in s.asked && s.asked[k].Wire? { assert s.Carried(k); }
  }

  lemma StepSound(p: J.Peer, s: Sys, e: Event, k: H.Key)
    requires Sound(s, k) && (e.Request? ==> Sound(s, e.key))
    ensures Sound(Next(p, s, e), k)
  {
    if Enabled(s, e) {
      match e
      case Call(key, intent, current, busy, write) =>
        H.StepSound(s.desk, H.Begin(key, intent, current, busy, write), k);
        CarriedSame(s, Next(p, s, e), k);
      case Request(_, _, _, _, _) => RequestKeeps(p, s, e, k);
      case Net(net) =>
        if k in s.asked && s.asked[k].Wire? { NetKeepsKinds(p, s.client, net, s.asked[k].id); }
        CarriedSame(s, Next(p, s, e), k);
      case Answer(_, _, _) => AnswerKeeps(p, s, e, k);
      case Crash =>
        H.StepSound(s.desk, H.Crash, k);
        CarriedSame(s, Next(p, s, e), k);
    }
  }

  lemma StepHonest(p: J.Peer, s: Sys, e: Event)
    requires J.Honest(s.client)
    ensures J.Honest(Next(p, s, e).client)
  {
    if Enabled(s, e) {
      match e
      case Request(key, id, on, current, closes) =>
        J.NextHonest(p, s.client, J.Close);
        var c := if closes then J.Next(p, s.client, J.Close) else s.client;
        if !J.Refused(c, on) { J.NextHonest(p, c, J.Offer(id, true, on)); }
      case Net(net) => J.NextHonest(p, s.client, net);
      case Crash => assert forall id: J.Id :: J.Promise(J.FRESH, id);
      case _ =>
    }
  }

  // ---------------------------------------------------------------- outcome honesty

  lemma {:induction false} RunsAreSound(p: J.Peer, events: seq<Event>)
    ensures J.Honest(After(p, events).client) && forall key :: Sound(After(p, events), key)
  {
    if events != [] {
      var s, e := After(p, events[..|events| - 1]), events[|events| - 1];
      RunsAreSound(p, events[..|events| - 1]);
      StepHonest(p, s, e);
      forall key ensures Sound(After(p, events), key) { StepSound(p, s, e, key); }
    } else {
      assert forall id: J.Id :: J.Promise(J.FRESH, id);
    }
  }

  /** Over all runs of both together, with crashes, broken connections and failing
      saves: a source that is absent or recorded as `not-sent`, in memory or on disk,
      never had bytes handed to a socket, and one recorded as `confirmed` had. */
  lemma RecordsTellTheWire(p: J.Peer, events: seq<Event>, key: H.Key)
    ensures var s := After(p, events);
      && (key !in s.desk.data ==> !s.Carried(key))
      && Tells(s, key, s.desk.data) && Tells(s, key, s.desk.file)
  {
    RunsAreSound(p, events);
    assert Sound(After(p, events), key);
  }

  /** One request of a call is on the wire at most, and when it ends, the client alone
      already rules out `not-sent`: a rejection says `unknown`, whatever the guard
      remembers, and a receipt is believed only after the request was answered. */
  lemma WireDecides(p: J.Peer, events: seq<Event>, e: Event)
    requires var s := After(p, events); e.Answer? && Enabled(s, e) && s.Carried(e.key) && e.write == Committed
    ensures var s, n := After(p, events), Next(p, After(p, events), e);
      && e.key in s.asked && s.asked[e.key].Wire? && s.asked[e.key].id in s.client.issued
      && e.sent != H.RuntimeFailure(J.NotSent)
      && (forall crossed :: !H.Closing(s.desk.flights[e.key].intent, crossed, e.sent).phase.NotSent?)
      && (n.desk.data[e.key].phase.Confirmed? ==>
        |s.client.issued[s.asked[e.key].id].calls| == 1 && s.client.issued[s.asked[e.key].id].calls[0].Resolved?)
      && (s.client.issued[s.asked[e.key].id].calls[0].Failed? ==> n.desk.data[e.key].phase.Unknown?)
  {
    var s := After(p, events);
    RunsAreSound(p, events);
    assert Sound(s, e.key);
    assert J.Promise(s.client, s.asked[e.key].id);
  }

  /** Exactly when a call without bytes on the wire is recorded as `not-sent`: its error
      says so and the final guard was not passed.  A connection that closes during the
      guard is therefore recorded as unknown, although nothing was sent. */
  lemma RefusedIff(p: J.Peer, events: seq<Event>, e: Event)
    requires var s := After(p, events); e.Answer? && Enabled(s, e) && !s.Carried(e.key) && e.write == Committed
    ensures var s, row := After(p, events), Next(p, After(p, events), e).desk.data[e.key];
      && !row.phase.Confirmed?
      && (row.phase.NotSent? <==> e.sent == H.RuntimeFailure(J.NotSent) && e.key !in s.desk.guards)
  {
    var s := After(p, events);
    RunsAreSound(p, events);
    assert Sound(s, e.key);
    H.OutcomeIff(s.desk, e.key, e.sent);
  }
}
