/** `RuntimeLifecycleCoordinator`: create, rename and close a runtime resource at
    most once per source, keeping the topology that already exists.

    `execute` runs in segments around the adapter call; in between the adapter
    may pass the final guard and report a resource it has created. */
module Lifecycle {
  import opened Common
  import opened WriteGate
  import JsonLines

  type Key = string
  type Evidence = JsonLines.Evidence

  /** The parsed action; its digest is injective, so it is its own fingerprint. */
  datatype Request =
    | CreateResource(cwd: string, project: Option<string>, program: string)
    | RenameResource(target: Ref, title: string)
    | CloseResource(target: Ref)
  {
    function GateKey(): Target {
      match this
      case CreateResource(cwd, project, _) => Create(OrElse(project, cwd))
      case RenameResource(target, _) => Resource(target)
      case CloseResource(target) => Resource(target)
    }
  }

  datatype Result = Created(ref: Ref) | Renamed(ref: Ref) | Closed(ref: Ref)
  {
    predicate Answers(r: Request) {
      match r
      case CreateResource(_, _, _) => Created?
      case RenameResource(_, _) => Renamed?
      case CloseResource(_) => Closed?
    }
  }

  datatype Phase = Writing | Confirmed | Partial | NotSent | Unknown

  datatype Row = Row(fingerprint: Request, phase: Phase, created: Option<Ref>, result: Option<Result>)
  {
    /** The refinements of the record schema. */
    predicate Lawful() {
      && (phase.Confirmed? <==> result.Some?)
      && (created.Some? ==> fingerprint.CreateResource?)
      && (phase.Partial? ==> created.Some?)
      && (result.Some? ==> result.value.Answers(fingerprint))
      && (created.Some? && result.Some? && result.value.Created? ==> created.value == result.value.ref)
    }
  }

  /** How the adapter's operation ended, a missing capability included. */
  datatype Done =
    | Returned(ref: Ref)
    | Malformed
    | RuntimeFailure(evidence: Evidence)
    | OtherFailure

  datatype Flight = Flight(request: Request, created: Option<Ref>, crossed: bool)
  {
    function Open(): Row { Row(request, Writing, created, None) }
  }

  datatype Desk = Desk(
    file: map<Key, Row>, data: map<Key, Row>, flights: map<Key, Flight>,
    calls: map<Key, nat>, guards: set<Key>, reported: set<(Key, Ref)>)
  {
    function Calls(key: Key): nat { if key in calls then calls[key] else 0 }
  }

  function Read(data: map<Key, Row>, key: Key): (r: Option<Row>)
    ensures r.Some? ==> !r.value.phase.Writing?
    ensures r.Some? <==> key in data
  {
    if key !in data then None
    else if data[key].phase.Writing? then Some(data[key].(phase := Unknown))
    else Some(data[key])
  }

  function Stored(d: Desk, key: Key, row: Row, w: FileWrite): Desk {
    d.(file := FileAfter(d.file, d.data[key := row], w),
       data := if w.Returned() then d.data[key := row] else d.data)
  }

  function Failure(f: Flight, notSent: bool): Row {
    Row(f.request,
        if f.created.Some? && notSent then Partial else if !f.crossed && notSent then NotSent else Unknown,
        f.created, None)
  }

  function Closing(f: Flight, done: Done): Row {
    match done
    case Returned(ref) =>
      var said := match f.request
        case CreateResource(_, _, _) => if f.created.Some? && f.created.value != ref then None else Some(Created(ref))
        case RenameResource(target, _) => if ref != target then None else Some(Renamed(ref))
        case CloseResource(target) => if ref != target then None else Some(Closed(ref));
      if said.Some? then Row(f.request, Confirmed, f.created, said) else Failure(f, false)
    case RuntimeFailure(evidence) => Failure(f, evidence.NotSent?)
    case _ => Failure(f, false)
  }

  // ---------------------------------------------------------------- steps

  datatype Event =
    | Begin(key: Key, request: Request, busy: bool, write: FileWrite)
    | Guard(key: Key)
    | OnCreated(key: Key, ref: Ref, write: FileWrite)
    | Finish(key: Key, done: Done, write: FileWrite)
    | Crash

  /** The adapter acts only while its call runs, and only `create` reports. */
  predicate Enabled(d: Desk, e: Event) {
    match e
    case Begin(_, _, _, _) => true
    case Guard(key) => key in d.flights
    case OnCreated(key, _, _) => key in d.flights && d.flights[key].request.CreateResource?
    case Finish(key, _, _) => key in d.flights
    case Crash => true
  }

  function Next(d: Desk, e: Event): Desk {
    if !Enabled(d, e) then d else
    match e
    case Begin(key, request, busy, write) =>
      if key in d.data || busy then d
      else
        var f := Flight(request, None, false);
        var saved := Stored(d, key, f.Open(), write);
        if !write.Returned() then saved
        else saved.(flights := saved.flights[key := f], calls := saved.calls[key := saved.Calls(key) + 1])
    case Guard(key) =>
      d.(flights := d.flights[key := d.flights[key].(crossed := true)], guards := d.guards + {key})
    case OnCreated(key, ref, write) =>
      var f := d.flights[key].(created := Some(ref));
      Stored(d.(flights := d.flights[key := f], reported := d.reported + {(key, ref)}), key, f.Open(), write)
    case Finish(key, done, write) =>
      Stored(d.(flights := d.flights - {key}), key, Closing(d.flights[key], done), write)
    case Crash => d.(data := d.file, flights := map[])
  }

  function After(start: Desk, events: seq<Event>): Desk {
    if events == [] then start else Next(After(start, events[..|events| - 1]), events[|events| - 1])
  }

  const EMPTY := Desk(map[], map[], map[], map[], {}, {})

  // ---------------------------------------------------------------- honesty

  predicate Truthful(d: Desk, key: Key, row: Row) {
    && row.Lawful()
    && (row.created.Some? ==> (key, row.created.value) in d.reported)
    && (row.phase.NotSent? ==> key !in d.guards && row.created.None?)
    && (row.phase.Confirmed? && !row.fingerprint.CreateResource? ==>
      row.result.value.ref == row.fingerprint.target)
  }

  /** What the file holds and memory does not is news about the same operation. */
  predicate Follows(was: Row, now: Row) {
    && now.fingerprint == was.fingerprint
    && (!was.phase.Writing? ==> now == was)
    && (was.created.Some? ==> now.created.Some?)
  }

  predicate Sound(d: Desk, key: Key) {
    && d.Calls(key) <= 1
    && (key in d.guards ==> d.Calls(key) == 1)
    && (d.Calls(key) == 1 ==> key in d.data)
    && (key in d.data ==> key in d.file && Follows(d.data[key], d.file[key]) && Truthful(d, key, d.data[key]))
    && (key in d.file ==> Truthful(d, key, d.file[key]))
    && (key in d.flights ==>
      && d.Calls(key) == 1
      && d.data[key].phase.Writing? && d.file[key].phase.Writing?
      && Truthful(d, key, d.flights[key].Open())
      && Follows(d.data[key], d.flights[key].Open()) && Follows(d.file[key], d.flights[key].Open())
      && (d.flights[key].crossed <==> key in d.guards))
  }

  ghost predicate Consistent(d: Desk) { forall key: Key :: Sound(d, key) }

  lemma BeginSound(d: Desk, e: Event, key: Key)
    requires Sound(d, key) && e.Begin?
    ensures Sound(Next(d, e), key)
    ensures key in d.data ==> key in Next(d, e).data && Next(d, e).data[key] == d.data[key]
  {
    if e.key == key && key !in d.data && !e.busy {
      assert key !in d.guards && key !in d.flights && d.Calls(key) == 0;
      assert Truthful(d, key, Flight(e.request, None, false).Open());
    }
  }

  lemma CreatedSound(d: Desk, e: Event, key: Key)
    requires Sound(d, key) && e.OnCreated?
    ensures Sound(Next(d, e), key)
    ensures key in d.data ==> key in Next(d, e).data && Follows(d.data[key], Next(d, e).data[key])
  {
    if Enabled(d, e) && e.key == key {
      var open := d.flights[key].(created := Some(e.ref)).Open();
      assert Follows(d.data[key], open) && Follows(d.file[key], open);
    }
  }

  lemma FinishSound(d: Desk, e: Event, key: Key)
    requires Sound(d, key) && e.Finish?
    ensures Sound(Next(d, e), key)
    ensures key in d.data ==> key in Next(d, e).data && Follows(d.data[key], Next(d, e).data[key])
  {
    if Enabled(d, e) && e.key == key {
      var row := Closing(d.flights[key], e.done);
      assert Truthful(d, key, row) && Follows(d.data[key], row);
    }
  }

  lemma StepSound(d: Desk, e: Event, key: Key)
    requires Sound(d, key)
    ensures Sound(Next(d, e), key)
    ensures key in d.data ==> key in Next(d, e).data && Follows(d.data[key], Next(d, e).data[key])
  {
    match e
    case Begin(_, _, _, _) => BeginSound(d, e, key);
    case Guard(_) =>
    case OnCreated(_, _, _) => CreatedSound(d, e, key);
    case Finish(_, _, _) => FinishSound(d, e, key);
    case Crash =>
  }

  lemma StepConsistent(d: Desk, e: Event)
    requires Consistent(d)
    ensures Consistent(Next(d, e))
  {
    forall key: Key ensures Sound(Next(d, e), key) { StepSound(d, e, key); }
  }

  /** Over all runs: one adapter operation for each source at most, and a source
      once tried is known ever after. */
  lemma {:induction false} OperatedAtMostOnce(events: seq<Event>, key: Key)
    ensures Sound(After(EMPTY, events), key)
    ensures After(EMPTY, events).Calls(key) <= 1
    ensures After(EMPTY, events).Calls(key) == 1 ==> key in After(EMPTY, events).data
  {
    if events != [] {
      OperatedAtMostOnce(events[..|events| - 1], key);
      StepSound(After(EMPTY, events[..|events| - 1]), events[|events| - 1], key);
    }
  }

  /** What a repeated source is told: `not-sent` only if the final guard was never
      passed and nothing was created; `partial` names a resource the adapter
      reported; `confirmed` answers the request and its target. */
  lemma RecordIsHonest(events: seq<Event>, key: Key)
    ensures var d := After(EMPTY, events);
      match Read(d.data, key)
      case None => d.Calls(key) == 0 && key !in d.guards
      case Some(row) =>
        && (row.phase.NotSent? ==> key !in d.guards && row.created.None?)
        && (row.phase.Partial? ==> row.created.Some? && (key, row.created.value) in d.reported)
        && (row.phase.Confirmed? ==>
              && row.result.Some?
              && match row.fingerprint
                 case CreateResource(_, _, _) =>
                   row.result.value.Created? && row.created in {None, Some(row.result.value.ref)}
                 case RenameResource(target, _) => row.result == Some(Renamed(target))
                 case CloseResource(target) => row.result == Some(Closed(target)))
  {
    OperatedAtMostOnce(events, key);
  }

  /** A saved topology outlives every later step, crashes included, and so does a
      finished record; the source stays bound to its first request. */
  lemma {:induction false} RecordOnlyGrows(start: Desk, events: seq<Event>, key: Key)
    requires Sound(start, key) && key in start.data
    ensures Sound(After(start, events), key) && key in After(start, events).data
    ensures Follows(start.data[key], After(start, events).data[key])
    ensures After(start, events).data[key].fingerprint == start.data[key].fingerprint
    ensures !start.data[key].phase.Writing? ==> After(start, events).data[key] == start.data[key]
    ensures start.data[key].created.Some? ==> After(start, events).data[key].created.Some?
  {
    if events != [] {
      RecordOnlyGrows(start, events[..|events| - 1], key);
      StepSound(After(start, events[..|events| - 1]), events[|events| - 1], key);
    }
  }

  /** What a saved outcome means, in terms of what happened.  A result is confirmed only
      for the target that was asked for, and a created resource only under the name that
      was reported before; whatever was reported stays on record. */
  lemma OutcomeIff(d: Desk, key: Key, done: Done)
    requires Sound(d, key) && key in d.flights
    ensures
      var row, f := Next(d, Finish(key, done, Committed)).data[key], d.flights[key];
      var said := done.RuntimeFailure? && done.evidence.NotSent?;
      && row.created == f.created && row.fingerprint == f.request && !row.phase.Writing?
      && (row.phase.Partial? <==> said && f.created.Some?)
      && (row.phase.NotSent? <==> said && f.created.None? && key !in d.guards)
      && (row.phase.Confirmed? <==>
            && done.Returned?
            && match f.request
               case CreateResource(_, _, _) => f.created.None? || f.created.value == done.ref
               case RenameResource(target, _) => done.ref == target
               case CloseResource(target) => done.ref == target)
      && (row.phase.Confirmed? ==> row.result == Some(
            match f.request
            case CreateResource(_, _, _) => Created(done.ref)
            case RenameResource(_, _) => Renamed(done.ref)
            case CloseResource(_) => Closed(done.ref)))
      && (!row.phase.Confirmed? ==> row.result.None?)
      && key !in Next(d, Finish(key, done, Committed)).flights
  {
  }

  /** Exactly when an operation is started: its source was never heard of before, its
      target has no other writer, and its record was saved.  Otherwise only a write that
      reported failure may have left the record in the file. */
  lemma StartedIff(d: Desk, key: Key, request: Request, busy: bool, write: FileWrite)
    requires Sound(d, key)
    ensures
      var n := Next(d, Begin(key, request, busy, write));
      var starts := key !in d.data && !busy && write.Committed?;
      var row := Row(request, Writing, None, None);
      if starts then
        && n.Calls(key) == 1 && n.flights == d.flights[key := Flight(request, None, false)]
        && n.data == d.data[key := row] && n.file == d.data[key := row]
      else
        && n.calls == d.calls && n.flights == d.flights && n.data == d.data
        && (n.file == d.file || (key !in d.data && !busy && write.LostAfterRename? && n.file == d.data[key := row]))
  {
  }

  /** A reported resource is remembered by the call at once and on record when the save
      returned. */
  lemma CreationIsRecorded(d: Desk, key: Key, ref: Ref, write: FileWrite)
    requires Sound(d, key) && key in d.flights && d.flights[key].request.CreateResource?
    ensures
      var n := Next(d, OnCreated(key, ref, write));
      && key in n.flights && n.flights[key] == Flight(d.flights[key].request, Some(ref), d.flights[key].crossed)
      && (key, ref) in n.reported
      && (write.Committed? ==>
            && key in n.data && key in n.file && n.data[key] == n.file[key]
            && n.data[key] == Row(d.flights[key].request, Writing, Some(ref), None))
      && (!write.Committed? ==> n.data == d.data)
      && (write.LostBeforeRename? ==> n.file == d.file)
  {
  }

  /** Which operations exclude each other: two changes of one resource, and two creations
      in one project or, for those without a project, in one directory. */
  lemma ExcludesIff(a: Request, b: Request)
    ensures a.GateKey() == b.GateKey() <==>
      match (a, b)
      case (CreateResource(cwd, project, _), CreateResource(cwd', project', _)) =>
        (if project.Some? then project.value else cwd) == (if project'.Some? then project'.value else cwd')
      case (RenameResource(target, _), RenameResource(target', _)) => target == target'
      case (RenameResource(target, _), CloseResource(target')) => target == target'
      case (CloseResource(target), RenameResource(target', _)) => target == target'
      case (CloseResource(target), CloseResource(target')) => target == target'
      case _ => false
  {
  }

  /** A new process knows exactly what the file says; what happened has happened. */
  lemma RestartMeans(d: Desk)
    ensures
      var n := Next(d, Crash);
      && n.data == d.file && n.file == d.file && n.flights == map[]
      && n.calls == d.calls && n.guards == d.guards && n.reported == d.reported
  {
  }

  // ---------------------------------------------------------------- the object

  datatype Answer = Told(row: Row) | Error(evidence: Evidence)

  class RuntimeLifecycleCoordinator {
    const gate: RuntimeWriteGate
    var file: map<Key, Row>
    var data: map<Key, Row>
    /** Calls of `execute` that wait for the adapter, and their leases. */
    var flights: map<Key, Flight>
    var leases: map<Key, nat>
    ghost var calls: map<Key, nat>
    ghost var guards: set<Key>
    ghost var reported: set<(Key, Ref)>

    ghost function Abs(): Desk reads this { Desk(file, data, flights, calls, guards, reported) }

    ghost predicate Valid() reads this, gate {
      && Consistent(Abs())
      && Exclusive(gate.Abs())
      && leases.Keys == flights.Keys
      && (forall key :: key in leases ==> leases[key] < |gate.leases|)
    }

    constructor Reload(gate: RuntimeWriteGate, file: map<Key, Row>, ghost before: Desk)
      requires Consistent(before) && Exclusive(gate.Abs()) && file == before.file
      ensures this.gate == gate && Valid() && Abs() == Next(before, Crash)
    {
      this.gate := gate;
      this.file, data, flights, leases := file, file, map[], map[];
      calls, guards, reported := before.calls, before.guards, before.reported;
      StepConsistent(before, Crash);
    }

    method Save(key: Key, row: Row, w: FileWrite) returns (failed: bool)
      requires row.Lawful()
      modifies `file, `data
      ensures failed == !w.Returned()
      ensures file == FileAfter(old(file), old(data)[key := row], w)
      ensures data == if w.Returned() then old(data)[key := row] else old(data)
    {
      var next := data[key := row];
      if w.Replaced() { file := next; }
      if w.Returned() { data := next; }
      failed := !w.Returned();
    }

    /** A repeated source is only ever told what is on record. */
    method Recall(key: Key, request: Request) returns (answer: Answer)
      requires key in data
      ensures answer == if data[key].fingerprint == request
                        then Told(Read(data, key).value) else Error(JsonLines.NotSent)
    {
      var row := data[key];
      if row.fingerprint != request { return Error(JsonLines.NotSent); }
      return Told(if row.phase.Writing? then row.(phase := Unknown) else row);
    }

    /** The durable intent, saved before the adapter is called. */
    method Intend(key: Key, request: Request, w: FileWrite) returns (failed: bool)
      requires Consistent(Abs()) && key !in data
      modifies `file, `data, `flights, `calls
      ensures failed == !w.Returned()
      ensures Abs() == Next(old(Abs()), Event.Begin(key, request, false, w)) && Consistent(Abs())
      ensures flights.Keys == old(flights).Keys + if failed then {} else {key}
    {
      ghost var before := Abs();
      StepConsistent(before, Event.Begin(key, request, false, w));
      var flight := Flight(request, None, false);
      failed := Save(key, flight.Open(), w);
      if !failed {
        flights := flights[key := flight];
        calls := calls[key := before.Calls(key) + 1];
      }
      assert Abs() == Next(before, Event.Begin(key, request, false, w));
    }

    /** `execute` up to the adapter's operation; `guard()` has passed. */
    method Begin(key: Key, request: Request, w: FileWrite) returns (answer: Option<Answer>)
      requires Valid()
      modifies this, gate
      ensures Valid()
      ensures Abs() == Next(old(Abs()), Event.Begin(key, request, request.GateKey() in old(gate.active), w))
      ensures answer.None? <==> key !in old(data) && request.GateKey() !in old(gate.active) && w.Returned()
      ensures answer.Some? && answer.value.Told? ==>
        Read(old(data), key) == Some(answer.value.row) && answer.value.row.fingerprint == request
    {
      if key in data {
        var told := Recall(key, request);
        return Some(told);
      }
      var lease, refused := gate.Acquire(request.GateKey());
      if refused { return Some(Error(JsonLines.NotSent)); }
      var failed := Intend(key, request, w);
      if failed {
        gate.Release(lease);
        return Some(Error(JsonLines.NotSent));
      }
      leases := leases[key := lease];
      return None;
    }

    method AssertCurrent(key: Key)
      requires Valid() && key in flights
      modifies `flights, `guards
      ensures Valid() && Abs() == Next(old(Abs()), Event.Guard(key))
    {
      StepConsistent(Abs(), Event.Guard(key));
      flights := flights[key := flights[key].(crossed := true)];
      guards := guards + {key};
    }

    /** The `onCreated` callback: memory keeps the resource even if the save fails. */
    method OnCreated(key: Key, ref: Ref, w: FileWrite) returns (failed: bool)
      requires Valid() && Enabled(Abs(), Event.OnCreated(key, ref, w))
      modifies `flights, `reported, `file, `data
      ensures Valid() && Abs() == Next(old(Abs()), Event.OnCreated(key, ref, w))
      ensures !failed ==> key in file && file[key].created == Some(ref)
    {
      ghost var before := Abs();
      StepConsistent(before, Event.OnCreated(key, ref, w));
      assert Sound(before, key);
      var flight := flights[key].(created := Some(ref));
      flights := flights[key := flight];
      reported := reported + {(key, ref)};
      failed := Save(key, flight.Open(), w);
      assert Abs() == Next(before, Event.OnCreated(key, ref, w));
    }

    /** `execute` after the adapter's operation. */
    method Conclude(key: Key, done: Done, w: FileWrite) returns (answer: Answer)
      requires Valid() && key in flights
      modifies this, gate
      ensures Valid() && Abs() == Next(old(Abs()), Finish(key, done, w))
      ensures gate.Abs() == Released(old(gate.Abs()), old(leases)[key])
      ensures answer == if w.Returned() then Told(data[key]) else Error(JsonLines.Unknown)
    {
      ghost var before := Abs();
      StepConsistent(before, Finish(key, done, w));
      assert Sound(before, key);
      var row := Settle(flights[key], done);
      var lease := leases[key];
      flights, leases := flights - {key}, leases - {key};
      var failed := Save(key, row, w);
      gate.Release(lease);
      assert Abs() == Next(before, Finish(key, done, w));
      answer := if failed then Error(JsonLines.Unknown) else Told(row);
    }

    /** The row that `execute` reassigns: a confirmation first, then the schema's
        verdict on it, then the failure's phase. */
    static method Settle(f: Flight, done: Done) returns (row: Row)
      requires f.Open().Lawful()
      ensures row == Closing(f, done) && row.Lawful()
    {
      row := f.Open();
      var failed := !done.Returned?;
      if done.Returned? {
        match f.request {
          case CreateResource(_, _, _) =>
            row := row.(phase := Confirmed, result := Some(Created(done.ref)));
          case RenameResource(target, _) =>
            failed := done.ref != target;
            row := if failed then row else row.(phase := Confirmed, result := Some(Renamed(done.ref)));
          case CloseResource(target) =>
            failed := done.ref != target;
            row := if failed then row else row.(phase := Confirmed, result := Some(Closed(done.ref)));
        }
        failed := failed || !row.Lawful();
      }
      if failed {
        var notSent := done.RuntimeFailure? && done.evidence.NotSent?;
        row := Row(f.request, Unknown, row.created, None);
        if row.created.Some? && notSent {
          row := row.(phase := Partial);
        } else if !f.crossed && notSent {
          row := row.(phase := NotSent);
        }
      }
    }
  }
}
