/** `RuntimeHandoffJournal` and `RuntimeHandoffCoordinator`: an input is handed to
    a runtime at most once, and the journal never claims more than is known.

    SHA-256 is injective, so a fingerprint is the intent it digests and a source
    key is the source.  `sendOnce` runs in two segments around `adapter.send`;
    in between the adapter may pass the final guard and offer bytes. */
module Handoff {
  import opened Common
  import opened WriteGate
  import JsonLines

  type Key = string
  type Evidence = JsonLines.Evidence

  datatype Place = Place(ref: Ref, incarnation: Option<string>, cwd: Option<string>, machine: Option<string>)
  datatype Intent = Intent(target: Place, text: string)

  datatype Receipt =
    | NativeAccepted(ref: Ref, turnId: string)
    | TerminalWritten(ref: Ref, incarnation: string)
  {
    predicate Matches(target: Place) {
      ref == target.ref && (TerminalWritten? ==> Some(incarnation) == target.incarnation)
    }
  }

  datatype Phase = Writing | Confirmed | NotSent | Unknown

  datatype Row = Row(fingerprint: Intent, ref: Ref, phase: Phase, receipt: Option<Receipt>)
  {
    /** What the record schema refuses to store or load otherwise. */
    predicate Lawful() {
      && (phase.Confirmed? <==> receipt.Some?)
      && (receipt.Some? ==> receipt.value.ref == ref)
    }
  }

  /** How `adapter.send` ended; `Malformed` is an answer the schema refuses. */
  datatype Sent =
    | Returned(receipt: Receipt)
    | Malformed
    | RuntimeFailure(evidence: Evidence)
    | OtherFailure

  datatype Flight = Flight(intent: Intent, crossed: bool)

  datatype Desk = Desk(
    file: map<Key, Row>, data: map<Key, Row>, flights: map<Key, Flight>,
    sends: map<Key, nat>, guards: set<Key>, offered: set<Key>)
  {
    function Sends(key: Key): nat { if key in sends then sends[key] else 0 }
  }

  /** A saved `writing` may lie on either side of the socket write. */
  function Read(data: map<Key, Row>, key: Key): (r: Option<Row>)
    ensures r.Some? ==> !r.value.phase.Writing?
    ensures r.Some? <==> key in data
  {
    if key !in data then None
    else if data[key].phase.Writing? then Some(data[key].(phase := Unknown))
    else Some(data[key])
  }

  function Stored(d: Desk, key: Key, row: Row, w: FileWrite): Desk {
    d.(file := FileAfter(d.file, d.data[key := row], w),
       data := if w.Returned() then d.data[key := row] else d.data)
  }

  function Opening(intent: Intent): Row { Row(intent, intent.target.ref, Writing, None) }

  function Closing(intent: Intent, crossed: bool, sent: Sent): Row {
    var row := Opening(intent);
    match sent
    case Returned(receipt) =>
      if receipt.Matches(intent.target) then row.(phase := Confirmed, receipt := Some(receipt))
      else row.(phase := Unknown)
    case RuntimeFailure(evidence) =>
      row.(phase := if evidence.NotSent? && !crossed then NotSent else Unknown)
    case _ => row.(phase := Unknown)
  }

  // ---------------------------------------------------------------- steps

  datatype Event =
    | Begin(key: Key, intent: Intent, current: bool, busy: bool, write: FileWrite)
    | Guard(key: Key)
    | Offer(key: Key)
    | Finish(key: Key, sent: Sent, write: FileWrite)
    | Crash

  /** The adapter offers bytes only after the final guard passed and only while its call
      runs; that its socket client sees to that is shown in `HandoffWire`. */
  predicate Enabled(d: Desk, e: Event) {
    match e
    case Begin(_, _, _, _, _) => true
    case Guard(key) => key in d.flights
    case Offer(key) => key in d.flights && d.flights[key].crossed
    case Finish(key, _, _) => key in d.flights
    case Crash => true
  }

  /** Whether `sendOnce` goes on to call the adapter. */
  predicate Sends(d: Desk, e: Event) {
    e.Begin? && e.current && e.key !in d.data && !e.busy && e.write.Returned()
  }

  function Next(d: Desk, e: Event): Desk {
    if !Enabled(d, e) then d else
    match e
    case Begin(key, intent, current, busy, write) =>
      if !current || key in d.data || busy then d
      else
        var saved := Stored(d, key, Opening(intent), write);
        if !write.Returned() then saved
        else saved.(flights := saved.flights[key := Flight(intent, false)],
                    sends := saved.sends[key := saved.Sends(key) + 1])
    case Guard(key) =>
      d.(flights := d.flights[key := d.flights[key].(crossed := true)], guards := d.guards + {key})
    case Offer(key) => d.(offered := d.offered + {key})
    case Finish(key, sent, write) =>
      var f := d.flights[key];
      Stored(d.(flights := d.flights - {key}), key, Closing(f.intent, f.crossed, sent), write)
    case Crash => d.(data := d.file, flights := map[])
  }

  /** A run: a step that is not possible changes nothing. */
  function After(start: Desk, events: seq<Event>): Desk {
    if events == [] then start else Next(After(start, events[..|events| - 1]), events[|events| - 1])
  }

  const EMPTY := Desk(map[], map[], map[], map[], {}, {})

  // ---------------------------------------------------------------- honesty

  /** A row claims nothing that did not happen. */
  predicate Truthful(d: Desk, key: Key, row: Row) {
    && row.Lawful()
    && row.ref == row.fingerprint.target.ref
    && (row.phase.NotSent? ==> key !in d.guards)
    && (row.phase.Confirmed? ==> row.receipt.value.Matches(row.fingerprint.target))
  }

  predicate Sound(d: Desk, key: Key) {
    && d.Sends(key) <= 1
    && (key in d.offered ==> key in d.guards)
    && (key in d.guards ==> d.Sends(key) == 1)
    && (d.Sends(key) == 1 ==> key in d.data)
    && (key in d.data ==>
      && key in d.file
      && d.file[key].fingerprint == d.data[key].fingerprint
      && (!d.data[key].phase.Writing? ==> d.file[key] == d.data[key]))
    && (key in d.file ==> Truthful(d, key, d.file[key]))
    && (key in d.data ==> Truthful(d, key, d.data[key]))
    && (key in d.flights ==>
      && d.Sends(key) == 1
      && d.data[key] == d.file[key] == Opening(d.flights[key].intent)
      && (d.flights[key].crossed <==> key in d.guards))
  }

  lemma StepSound(d: Desk, e: Event, key: Key)
    requires Sound(d, key)
    ensures Sound(Next(d, e), key)
  {
    match e
    case Begin(_, _, _, _, _) =>
    case Guard(_) =>
    case Offer(_) =>
    case Finish(k, sent, write) =>
      if Enabled(d, e) && k == key {
        assert Truthful(d, key, Closing(d.flights[key].intent, d.flights[key].crossed, sent));
      }
    case Crash =>
  }

  ghost predicate Consistent(d: Desk) { forall key: Key :: Sound(d, key) }

  lemma StepConsistent(d: Desk, e: Event)
    requires Consistent(d)
    ensures Consistent(Next(d, e))
  {
    forall key: Key ensures Sound(Next(d, e), key) { StepSound(d, e, key); }
  }

  /** Over all runs, with crashes and writes that fail on either side of the
      rename: one `adapter.send` for each source at most; whatever the journal
      answers is truthful; a source once sent is known ever after. */
  lemma {:induction false} SentAtMostOnce(events: seq<Event>, key: Key)
    ensures Sound(After(EMPTY, events), key)
    ensures After(EMPTY, events).Sends(key) <= 1
  {
    if events != [] {
      SentAtMostOnce(events[..|events| - 1], key);
      StepSound(After(EMPTY, events[..|events| - 1]), events[|events| - 1], key);
    }
  }

  /** Outcome honesty as a reader of the journal sees it. */
  lemma JournalIsHonest(events: seq<Event>, key: Key)
    ensures var d := After(EMPTY, events);
      match Read(d.data, key)
      case None => d.Sends(key) == 0 && key !in d.guards && key !in d.offered
      case Some(row) =>
        && (row.phase.NotSent? ==> key !in d.guards && key !in d.offered)
        && (row.phase.Confirmed? ==>
              && row.receipt.Some? && row.receipt.value.ref == row.fingerprint.target.ref
              && (row.receipt.value.TerminalWritten? ==>
                    row.fingerprint.target.incarnation == Some(row.receipt.value.incarnation)))
        && row.ref == row.fingerprint.target.ref
        && (key in d.flights ==> row.phase.Unknown?)
  {
    SentAtMostOnce(events, key);
  }

  /** What a reader is told about a finished handoff never changes, not even over
      a crash, and no source is ever re-bound to another input. */
  lemma AnswerIsStable(d: Desk, e: Event, key: Key)
    requires Sound(d, key) && key in d.data
    ensures key in Next(d, e).data
    ensures !d.data[key].phase.Writing? ==> Next(d, e).data[key] == d.data[key]
    ensures Next(d, e).data[key].fingerprint == d.data[key].fingerprint
  {
  }

  /** What a saved outcome means, in terms of what happened: `confirmed` exactly when
      the adapter returned a receipt of the same target, `not-sent` exactly when it
      said so and the final guard was never passed. */
  lemma OutcomeIff(d: Desk, key: Key, sent: Sent)
    requires Sound(d, key) && key in d.flights
    ensures var row := Next(d, Finish(key, sent, Committed)).data[key];
      && (row.phase.Confirmed? <==>
            && sent.Returned? && sent.receipt.ref == d.flights[key].intent.target.ref
            && (sent.receipt.TerminalWritten? ==>
                  d.flights[key].intent.target.incarnation == Some(sent.receipt.incarnation)))
      && (row.phase.Confirmed? ==> row.receipt == Some(sent.receipt))
      && (row.phase.NotSent? <==> sent.RuntimeFailure? && sent.evidence.NotSent? && key !in d.guards)
      && !row.phase.Writing?
      && row.fingerprint == d.flights[key].intent && row.ref == d.flights[key].intent.target.ref
      && key !in Next(d, Finish(key, sent, Committed)).flights
  {
  }

  /** Exactly when a source is sent: it is current, never heard of before, its resource has
      no other writer, and its `writing` record was saved.  Otherwise nothing is sent and
      memory stays as it was; only a write that reported failure may have left the record
      in the file. */
  lemma SentIff(d: Desk, key: Key, intent: Intent, current: bool, busy: bool, write: FileWrite)
    requires Sound(d, key)
    ensures
      var n := Next(d, Begin(key, intent, current, busy, write));
      var sends := current && key !in d.data && !busy && write.Committed?;
      var row := Row(intent, intent.target.ref, Writing, None);
      && (Sends(d, Begin(key, intent, current, busy, write)) <==> sends)
      && (if sends then
            && n.Sends(key) == 1 && n.flights == d.flights[key := Flight(intent, false)]
            && n.data == d.data[key := row] && n.file == d.data[key := row]
          else
            && n.sends == d.sends && n.flights == d.flights && n.data == d.data
            && (n.file == d.file
                || (current && key !in d.data && !busy && write.LostAfterRename? && n.file == d.data[key := row])))
  {
  }

  /** A new process knows exactly what the file says; what happened has happened. */
  lemma RestartMeans(d: Desk)
    ensures
      var n := Next(d, Crash);
      && n.data == d.file && n.file == d.file && n.flights == map[]
      && n.sends == d.sends && n.guards == d.guards && n.offered == d.offered
  {
  }

  // ---------------------------------------------------------------- the objects

  datatype Answer = Told(row: Row) | Error(evidence: Evidence)

  class RuntimeHandoffCoordinator {
    const gate: RuntimeWriteGate
    /** The journal file and the journal's memory. */
    var file: map<Key, Row>
    var data: map<Key, Row>
    /** Calls of `sendOnce` that wait for the adapter, and their leases. */
    var flights: map<Key, Flight>
    var leases: map<Key, nat>
    ghost var sends: map<Key, nat>
    ghost var guards: set<Key>
    ghost var offered: set<Key>

    ghost function Abs(): Desk reads this { Desk(file, data, flights, sends, guards, offered) }

    ghost predicate Valid() reads this, gate {
      && Consistent(Abs())
      && Exclusive(gate.Abs())
      && leases.Keys == flights.Keys
      && (forall key :: key in leases ==> leases[key] < |gate.leases|)
    }

    /** A restart: the flights are gone, the file is all that is known. */
    constructor Reload(gate: RuntimeWriteGate, file: map<Key, Row>, ghost before: Desk)
      requires Consistent(before) && Exclusive(gate.Abs()) && file == before.file
      ensures this.gate == gate && Valid() && Abs() == Next(before, Crash)
    {
      this.gate := gate;
      this.file, data, flights, leases := file, file, map[], map[];
      sends, guards, offered := before.sends, before.guards, before.offered;
      StepConsistent(before, Crash);
    }

    /** `RuntimeHandoffJournal.write`. */
    method Save(key: Key, row: Row, w: FileWrite) returns (failed: bool)
      requires row.Lawful()
      modifies `file, `data
      ensures failed == !w.Returned()
      ensures file == FileAfter(old(file), old(data)[key := row], w)
      ensures data == if w.Returned() then old(data)[key := row] else old(data)
    {
      var next := data[key := row];
      if w.Replaced() { file := next; }
      if w.Returned() { data := next; }
      failed := !w.Returned();
    }

    /** `lookup`: authorised first, then bound to the same resource and input. */
    method Lookup(key: Key, ref: Ref, fingerprint: Intent, current: bool)
      returns (answer: Option<Answer>)
      requires Valid()
      ensures answer.Some? && answer.value.Told? ==>
        && current && Read(data, key) == Some(answer.value.row)
        && answer.value.row.fingerprint == fingerprint && answer.value.row.ref == ref
      ensures answer.None? <==> current && key !in data
    {
      if !current { return Some(Error(JsonLines.NotSent)); }
      var prior := Read(data, key);
      if prior.None? { return None; }
      if prior.value.fingerprint != fingerprint || prior.value.ref != ref {
        return Some(Error(JsonLines.NotSent));
      }
      return Some(Told(prior.value));
    }

    /** `sendOnce` up to the call of the adapter. */
    method Begin(key: Key, intent: Intent, current: bool, w: FileWrite) returns (answer: Option<Answer>)
      requires Valid()
      modifies this, gate
      ensures Valid()
      ensures var busy := Resource(intent.target.ref) in old(gate.active);
        && Abs() == Next(old(Abs()), Event.Begin(key, intent, current, busy, w))
        && (answer.None? <==> Sends(old(Abs()), Event.Begin(key, intent, current, busy, w)))
        && (answer.None? ==> |gate.leases| > |old(gate.leases)|)
      ensures answer.Some? && answer.value.Told? ==>
        && current && Read(old(data), key) == Some(answer.value.row)
        && answer.value.row.fingerprint == intent
    {
      ghost var busy := Resource(intent.target.ref) in gate.active;
      ghost var e := Event.Begin(key, intent, current, busy, w);
      ghost var before := Abs();
      StepConsistent(before, e);
      var prior := Read(data, key);
      if !current { return Some(Error(JsonLines.NotSent)); }
      if prior.Some? {
        if prior.value.fingerprint != intent { return Some(Error(JsonLines.NotSent)); }
        return Some(Told(prior.value));
      }
      var lease, refused := gate.Acquire(Resource(intent.target.ref));
      if refused { return Some(Error(JsonLines.NotSent)); }
      var failed := Save(key, Opening(intent), w);
      if failed {
        gate.Release(lease);
        assert Abs() == Next(before, e);
        return Some(Error(JsonLines.NotSent));
      }
      flights, leases := flights[key := Flight(intent, false)], leases[key := lease];
      sends := sends[key := before.Sends(key) + 1];
      assert Abs() == Next(before, e);
      return None;
    }

    /** The guard handed to the adapter, when the source is still current. */
    method AssertCurrent(key: Key)
      requires Valid() && key in flights
      modifies `flights, `guards
      ensures Valid() && Abs() == Next(old(Abs()), Event.Guard(key))
    {
      ghost var before := Abs();
      StepConsistent(before, Event.Guard(key));
      flights := flights[key := flights[key].(crossed := true)];
      guards := guards + {key};
    }

    /** `sendOnce` after the adapter answered. */
    method Conclude(key: Key, sent: Sent, w: FileWrite) returns (answer: Answer)
      requires Valid() && key in flights
      modifies this, gate
      ensures Valid() && Abs() == Next(old(Abs()), Finish(key, sent, w))
      ensures gate.Abs() == Released(old(gate.Abs()), old(leases)[key])
      ensures answer == if w.Returned() then Told(data[key]) else Error(JsonLines.Unknown)
    {
      ghost var before := Abs();
      StepConsistent(before, Finish(key, sent, w));
      assert Sound(before, key);
      var row := Settle(flights[key], sent);
      var lease := leases[key];
      flights, leases := flights - {key}, leases - {key};
      var failed := Save(key, row, w);
      gate.Release(lease);
      assert Abs() == Next(before, Finish(key, sent, w));
      answer := if failed then Error(JsonLines.Unknown) else Told(row);
    }

    /** The receipt is believed only if it names the same target; a failure is
        `not-sent` only if the final guard was not passed. */
    static method Settle(flight: Flight, sent: Sent) returns (row: Row)
      ensures row == Closing(flight.intent, flight.crossed, sent) && row.Lawful()
    {
      var initial := Opening(flight.intent);
      row := initial.(phase := Unknown);
      if sent.Returned? {
        if sent.receipt.ref == flight.intent.target.ref
          && (sent.receipt.NativeAccepted? || Some(sent.receipt.incarnation) == flight.intent.target.incarnation)
        {
          row := initial.(phase := Confirmed, receipt := Some(sent.receipt));
        }
      } else if sent.RuntimeFailure? && sent.evidence.NotSent? && !flight.crossed {
        row := initial.(phase := NotSent);
      }
    }
  }
}
