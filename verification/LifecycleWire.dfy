/** The lifecycle coordinator and the socket client together: an operation may make
    several write requests, and each carries the final guard as its `beforeWrite`. */
module LifecycleWire {
  import opened Common
  import opened WriteGate
  import J = JsonLines
  import L = Lifecycle

  /** `wires` is history, also over a crash: whose bytes were handed to a socket. */
  datatype Sys = Sys(desk: L.Desk, client: J.Client, wires: map<J.Id, L.Key>)
  {
    ghost predicate Carried(key: L.Key) { exists id :: id in wires && wires[id] == key }
  }

  datatype Event =
    | Call(key: L.Key, request: L.Request, busy: bool, write: FileWrite)
    | Ask(key: L.Key, id: J.Id, on: nat, current: bool, closes: bool)
    | Net(e: J.Event)
    | Report(key: L.Key, ref: Ref, write: FileWrite)
    | Answer(key: L.Key, done: L.Done, write: FileWrite)
    | Crash

  /** An operation awaits its requests, so it asks only while its call runs. */
  predicate Enabled(s: Sys, e: Event) {
    match e
    case Ask(key, id, on, _, _) => key in s.desk.flights && id !in s.wires && J.Enabled(s.client, J.Offer(id, true, on))
    case Net(e) => J.Enabled(s.client, e) && (e.Offer? ==> !e.write && e.id !in s.wires)
    case _ => true
  }

  /** `request` after its last await: closed, guard, closed again, write. */
  function Asked(p: J.Peer, s: Sys, key: L.Key, id: J.Id, on: nat, current: bool, closes: bool): Sys {
    if J.Refused(s.client, on) || !current then s
    else
      var client := if closes then J.Next(p, s.client, J.Close) else s.client;
      var passed := s.(desk := L.Next(s.desk, L.Guard(key)), client := client);
      if J.Refused(client, on) then passed
      else passed.(client := J.Next(p, client, J.Offer(id, true, on)), wires := s.wires[id := key])
  }

  function Next(p: J.Peer, s: Sys, e: Event): Sys {
    if !Enabled(s, e) then s else
    match e
    case Call(key, request, busy, write) => s.(desk := L.Next(s.desk, L.Begin(key, request, busy, write)))
    case Ask(key, id, on, current, closes) => Asked(p, s, key, id, on, current, closes)
    case Net(e) => s.(client := J.Next(p, s.client, e))
    case Report(key, ref, write) => s.(desk := L.Next(s.desk, L.OnCreated(key, ref, write)))
    case Answer(key, done, write) => s.(desk := L.Next(s.desk, L.Finish(key, done, write)))
    case Crash => s.(desk := L.Next(s.desk, L.Crash), client := J.FRESH)
  }

  function After(p: J.Peer, events: seq<Event>): Sys {
    if events == [] then Sys(L.EMPTY, J.FRESH, map[])
    else Next(p, After(p, events[..|events| - 1]), events[|events| - 1])
  }

  ghost predicate Sound(s: Sys, key: L.Key) {
    L.Sound(s.desk, key) && (s.Carried(key) ==> key in s.desk.guards)
  }

  lemma CarriedMore(s: Sys, n: Sys, id: J.Id, key: L.Key, k: L.Key)
    requires id !in s.wires && n.wires == s.wires[id := key]
    ensures n.Carried(k) ==> s.Carried(k) || k == key
  {
  }

  lemma AskSound(p: J.Peer, s: Sys, e: Event, k: L.Key)
    requires e.Ask? && Enabled(s, e) && Sound(s, k)
    ensures Sound(Next(p, s, e), k)
  {
    var n := Next(p, s, e);
    L.StepSound(s.desk, L.Guard(e.key), k);
    if n.wires != s.wires { CarriedMore(s, n, e.id, e.key, k); }
  }

  lemma StepSound(p: J.Peer, s: Sys, e: Event, k: L.Key)
    requires Sound(s, k)
    ensures Sound(Next(p, s, e), k)
  {
    if Enabled(s, e) {
      match e
      case Call(key, request, busy, write) => L.StepSound(s.desk, L.Begin(key, request, busy, write), k);
      case Ask(_, _, _, _, _) => AskSound(p, s, e, k);
      case Net(_) =>
      case Report(key, ref, write) => L.StepSound(s.desk, L.OnCreated(key, ref, write), k);
      case Answer(key, done, write) => L.StepSound(s.desk, L.Finish(key, done, write), k);
      case Crash => L.StepSound(s.desk, L.Crash, k);
    }
  }

  lemma {:induction false} RunsAreSound(p: J.Peer, events: seq<Event>, key: L.Key)
    ensures Sound(After(p, events), key)
  {
    if events != [] {
      RunsAreSound(p, events[..|events| - 1], key);
      StepSound(p, After(p, events[..|events| - 1]), events[|events| - 1], key);
    }
  }

  /** Over all runs of both together: an operation that is absent or recorded as
      `not-sent`, in memory or on disk, never had bytes handed to a socket, however many
      requests it makes and whatever the adapter reports. */
  lemma RecordsTellTheWire(p: J.Peer, events: seq<Event>, key: L.Key)
    ensures var s := After(p, events);
      && (key !in s.desk.data ==> !s.Carried(key))
      && (key in s.desk.data && s.desk.data[key].phase.NotSent? ==> !s.Carried(key))
      && (key in s.desk.file && s.desk.file[key].phase.NotSent? ==> !s.Carried(key))
  {
    RunsAreSound(p, events, key);
  }

  /** Exactly when an operation that a failing adapter calls `not-sent` is recorded so:
      nothing was created and the final guard was not passed.  Bytes on the wire always
      mean that it was. */
  lemma NotSentIff(p: J.Peer, events: seq<Event>, e: Event)
    requires e.Answer? && e.key in After(p, events).desk.flights && e.write == Committed
    ensures var s, row := After(p, events), Next(p, After(p, events), e).desk.data[e.key];
      && (row.phase.NotSent? <==>
          e.done == L.RuntimeFailure(J.NotSent) && s.desk.flights[e.key].created.None? && e.key !in s.desk.guards)
      && (s.Carried(e.key) ==> !row.phase.NotSent?)
  {
    RunsAreSound(p, events, e.key);
    L.OutcomeIff(After(p, events).desk, e.key, e.done);
  }
}
