/** `SessionControlQueue`, which serializes controls per session without holding a
    lock, and `SessionControlJournal`, which never repeats an unknown control. */
module SessionControl {
  import opened Common

  type Key = string

  // ---------------------------------------------------------------- the queue

  datatype Phase = Waiting | Running | Done

  /** One call of `run`: it waits for the promise that was the tail when it came. */
  datatype Job = Job(key: Key, after: Option<nat>, phase: Phase)

  datatype Lanes = Lanes(jobs: seq<Job>, tails: map<Key, nat>)

  datatype Turn = Run(key: Key) | Start(job: nat) | Settle(job: nat) | Clear(job: nat)

  /** Promises: an action starts once its predecessor settled, well or not; the
      `finally` of a call comes some time after it settled. */
  predicate Ready(l: Lanes, t: Turn) {
    match t
    case Run(_) => true
    case Start(j) =>
      && j < |l.jobs| && l.jobs[j].phase.Waiting?
      && (l.jobs[j].after.Some? ==> l.jobs[j].after.value < |l.jobs| && l.jobs[l.jobs[j].after.value].phase.Done?)
    case Settle(j) => j < |l.jobs| && l.jobs[j].phase.Running?
    case Clear(j) => j < |l.jobs| && l.jobs[j].phase.Done?
  }

  function Turned(l: Lanes, t: Turn): Lanes {
    if !Ready(l, t) then l else
    match t
    case Run(key) =>
      var after := if key in l.tails then Some(l.tails[key]) else None;
      Lanes(l.jobs + [Job(key, after, Waiting)], l.tails[key := |l.jobs|])
    case Start(j) => l.(jobs := l.jobs[j := l.jobs[j].(phase := Running)])
    case Settle(j) => l.(jobs := l.jobs[j := l.jobs[j].(phase := Done)])
    case Clear(j) =>
      var key := l.jobs[j].key;
      if key in l.tails && l.tails[key] == j then l.(tails := l.tails - {key}) else l
  }

  function Turns(turns: seq<Turn>): Lanes {
    if turns == [] then Lanes([], map[]) else Turned(Turns(turns[..|turns| - 1]), turns[|turns| - 1])
  }

  /** The earlier call `i` does not disturb the later call `j` of the same key. */
  predicate Apart(l: Lanes, i: int, j: int) {
    0 <= i < j < |l.jobs| && l.jobs[i].key == l.jobs[j].key ==>
      && (!l.jobs[j].phase.Waiting? ==> l.jobs[i].phase.Done?)
      && (match l.jobs[j].after
          case None => l.jobs[i].phase.Done?
          case Some(p) => i <= p < j)
  }

  ghost predicate Ordered(l: Lanes) {
    && (forall i, j :: Apart(l, i, j))
    && (forall j :: 0 <= j < |l.jobs| && l.jobs[j].after.Some? ==>
      l.jobs[j].after.value < j && l.jobs[l.jobs[j].after.value].key == l.jobs[j].key)
    && (forall key :: key in l.tails ==> l.tails[key] < |l.jobs| && l.jobs[l.tails[key]].key == key)
    && (forall i :: 0 <= i < |l.jobs| ==>
      if l.jobs[i].key in l.tails then i <= l.tails[l.jobs[i].key] else l.jobs[i].phase.Done?)
  }

  lemma StartOrdered(l: Lanes, j: nat)
    requires Ordered(l) && Ready(l, Start(j))
    ensures Ordered(Turned(l, Start(j)))
  {
    var next := Turned(l, Start(j));
    forall i, k ensures Apart(next, i, k) {
      assert Apart(l, i, k);
      if k == j && 0 <= i < k && l.jobs[i].key == l.jobs[k].key && l.jobs[j].after.Some? {
        assert Apart(l, i, l.jobs[j].after.value);
      }
    }
  }

  lemma RunOrdered(l: Lanes, key: Key)
    requires Ordered(l)
    ensures Ordered(Turned(l, Run(key)))
  {
    var next := Turned(l, Run(key));
    forall i, k ensures Apart(next, i, k) { assert Apart(l, i, k); }
  }

  lemma SettleOrdered(l: Lanes, j: nat)
    requires Ordered(l) && Ready(l, Settle(j))
    ensures Ordered(Turned(l, Settle(j)))
  {
    var next := Turned(l, Settle(j));
    forall i, k ensures Apart(next, i, k) { assert Apart(l, i, k); }
  }

  lemma ClearOrdered(l: Lanes, j: nat)
    requires Ordered(l) && Ready(l, Clear(j))
    ensures Ordered(Turned(l, Clear(j)))
  {
    var next := Turned(l, Clear(j));
    forall i, k ensures Apart(next, i, k) { assert Apart(l, i, k); }
    forall i | 0 <= i < |l.jobs| && l.jobs[i].key == l.jobs[j].key && next.tails != l.tails
      ensures l.jobs[i].phase.Done?
    {
      assert Apart(l, i, j);
    }
  }

  lemma TurnOrdered(l: Lanes, t: Turn)
    requires Ordered(l)
    ensures Ordered(Turned(l, t))
  {
    if Ready(l, t) {
      match t
      case Run(key) => RunOrdered(l, key);
      case Start(j) => StartOrdered(l, j);
      case Settle(j) => SettleOrdered(l, j);
      case Clear(j) => ClearOrdered(l, j);
    }
  }

  /** First in, first out, one at a time: when a call's action has started, every
      earlier call of the same key has settled; so no two actions of a key overlap,
      even though the map forgets a key as soon as it is idle. */
  lemma {:induction false} ControlsNeverOverlap(turns: seq<Turn>, i: nat, j: nat)
    requires i < j < |Turns(turns).jobs|
    requires Turns(turns).jobs[i].key == Turns(turns).jobs[j].key && !Turns(turns).jobs[j].phase.Waiting?
    ensures Turns(turns).jobs[i].phase.Done?
  {
    AlwaysOrdered(turns);
    assert Apart(Turns(turns), i, j);
  }

  lemma {:induction false} AlwaysOrdered(turns: seq<Turn>)
    ensures Ordered(Turns(turns))
  {
    if turns != [] {
      AlwaysOrdered(turns[..|turns| - 1]);
      TurnOrdered(Turns(turns[..|turns| - 1]), turns[|turns| - 1]);
    }
  }

  /** What a step does: a new call waits for the tail it found and becomes the tail;
      starting and settling move one call forward; the `finally` of a call forgets its
      key exactly when no later call of that key has come. */
  lemma TurnMoves(l: Lanes, t: Turn)
    requires Ordered(l) && Ready(l, t)
    ensures
      var n := Turned(l, t);
      match t
      case Run(key) =>
        && |n.jobs| == |l.jobs| + 1 && n.jobs[..|l.jobs|] == l.jobs
        && n.jobs[|l.jobs|].key == key && n.jobs[|l.jobs|].phase.Waiting?
        && n.jobs[|l.jobs|].after == (if key in l.tails then Some(l.tails[key]) else None)
        && key in n.tails && n.tails[key] == |l.jobs| && n.tails - {key} == l.tails - {key}
      case Start(j) =>
        && n.tails == l.tails && |n.jobs| == |l.jobs| && n.jobs[j] == Job(l.jobs[j].key, l.jobs[j].after, Running)
        && forall i :: 0 <= i < |l.jobs| && i != j ==> n.jobs[i] == l.jobs[i]
      case Settle(j) =>
        && n.tails == l.tails && |n.jobs| == |l.jobs| && n.jobs[j] == Job(l.jobs[j].key, l.jobs[j].after, Done)
        && forall i :: 0 <= i < |l.jobs| && i != j ==> n.jobs[i] == l.jobs[i]
      case Clear(j) =>
        && n.jobs == l.jobs && n.tails - {l.jobs[j].key} == l.tails - {l.jobs[j].key}
        && (l.jobs[j].key in n.tails <==> l.jobs[j].key in l.tails && l.tails[l.jobs[j].key] > j)
  {
  }

  /** A call may come at any time, and a queue never locks itself: as long as a call has not settled, it or an earlier
      call of its key can start or settle, and does. */
  lemma {:induction false} NeverStuck(turns: seq<Turn>, j: nat) returns (t: Turn)
    requires j < |Turns(turns).jobs| && !Turns(turns).jobs[j].phase.Done?
    ensures (t.Start? || t.Settle?) && t.job <= j && Turns(turns).jobs[t.job].key == Turns(turns).jobs[j].key
    ensures Ready(Turns(turns), t) && forall key :: Ready(Turns(turns), Run(key))
    ensures t.Start? ==> Turned(Turns(turns), t).jobs[t.job].phase.Running?
    ensures t.Settle? ==> Turned(Turns(turns), t).jobs[t.job].phase.Done?
  {
    AlwaysOrdered(turns);
    var job := Turns(turns).jobs[j];
    if job.phase.Running? {
      t := Settle(j);
    } else if job.after.Some? && !Turns(turns).jobs[job.after.value].phase.Done? {
      t := NeverStuck(turns, job.after.value);
    } else {
      t := Start(j);
    }
  }

  class SessionControlQueue {
    var tails: map<Key, nat>
    /** The promises handed out so far. */
    var jobs: seq<Job>

    function Abs(): Lanes reads this { Lanes(jobs, tails) }

    constructor ()
      ensures Abs() == Turns([]) && Ordered(Abs())
    {
      tails, jobs := map[], [];
    }

    /** `run` up to its await. */
    method Enter(key: Key) returns (job: nat)
      requires Ordered(Abs())
      modifies this
      ensures Abs() == Turned(old(Abs()), Run(key)) && Ordered(Abs()) && job == |old(jobs)|
    {
      TurnOrdered(Abs(), Run(key));
      var previous := if key in tails then Some(tails[key]) else None;
      job := |jobs|;
      jobs, tails := jobs + [Job(key, previous, Waiting)], tails[key := job];
    }

    /** `run`'s `finally`. */
    method Leave(job: nat)
      requires Ordered(Abs()) && Ready(Abs(), Clear(job))
      modifies `tails
      ensures Abs() == Turned(old(Abs()), Clear(job)) && Ordered(Abs())
    {
      TurnOrdered(Abs(), Clear(job));
      var key := jobs[job].key;
      if key in tails && tails[key] == job { tails := tails - {key}; }
    }
  }

  // ---------------------------------------------------------------- the journal

  /** SHA-256 of the key and the message id is injective. */
  datatype Id = Id(key: Key, messageId: string)

  datatype Receipt = Sending | Accepted(result: nat) | Uncertain

  datatype End = Ok(result: nat) | NotSubmitted | Other

  datatype Try = Try(write: FileWrite, readable: bool)

  datatype Book = Book(receipts: map<Id, Receipt>, disk: map<Id, Receipt>, stuck: bool)

  /** `save`: after a failed write memory is whatever the file says. */
  function Saved(b: Book, t: Try): Book {
    if b.stuck then b
    else
      var wrote := b.(disk := FileAfter(b.disk, b.receipts, t.write));
      if t.write.Returned() then wrote
      else if t.readable then wrote.(receipts := wrote.disk)
      else wrote.(stuck := true)
  }

  /** The catch block of `submit`. */
  function Caught(b: Book, id: Id, notSubmitted: bool, t: Try): Book {
    if b.stuck || (id in b.receipts && b.receipts[id].Accepted?) then b
    else if notSubmitted then Saved(b.(receipts := b.receipts - {id}), t)
    else Saved(b.(receipts := b.receipts[id := Uncertain]), t)
  }

  function Ended(b: Book, id: Id, end: End, t1: Try, t2: Try): Book {
    match end
    case Ok(result) =>
      var saved := Saved(b.(receipts := b.receipts[id := Accepted(result)]), t1);
      if b.stuck || !t1.write.Returned() then Caught(saved, id, false, t2) else saved
    case NotSubmitted => Caught(b, id, true, t2)
    case Other => Caught(b, id, false, t2)
  }

  datatype Sys = Sys(book: Book, flying: set<Id>, standing: map<Id, nat>)
  {
    function Standing(id: Id): nat { if id in standing then standing[id] else 0 }
  }

  datatype Event =
    | Submit(id: Id, t: Try)
    | Ends(id: Id, end: End, t1: Try, t2: Try)
    | Crash

  function Next(s: Sys, e: Event): Sys {
    match e
    case Submit(id, t) =>
      if s.book.stuck || id in s.book.receipts then s
      else
        var sending := Saved(s.book.(receipts := s.book.receipts[id := Sending]), t);
        if !t.write.Returned() then s.(book := sending)
        else Sys(sending, s.flying + {id}, s.standing[id := s.Standing(id) + 1])
    case Ends(id, end, t1, t2) =>
      if id !in s.flying then s
      else Sys(Ended(s.book, id, end, t1, t2), s.flying - {id},
               if end.NotSubmitted? && !s.book.stuck then s.standing[id := 0] else s.standing)
    case Crash => s.(book := Book(s.book.disk, s.book.disk, false), flying := {})
  }

  function After(events: seq<Event>): Sys {
    if events == [] then Sys(Book(map[], map[], false), {}, map[])
    else Next(After(events[..|events| - 1]), events[|events| - 1])
  }

  ghost predicate Sane(s: Sys, id: Id) {
    && (!s.book.stuck ==> s.book.receipts == s.book.disk)
    && s.Standing(id) <= 1
    && (s.Standing(id) == 1 ==> id in s.book.disk)
    && (id in s.flying ==> s.Standing(id) == 1 && s.book.disk[id].Sending?)
  }

  lemma StepSane(s: Sys, e: Event, id: Id)
    requires Sane(s, id)
    ensures Sane(Next(s, e), id)
    ensures
      (!s.book.stuck && id in s.book.disk && s.book.disk[id].Accepted? && (e.Ends? ==>
        e.id != id || id !in s.flying)) ==>
      id in Next(s, e).book.disk && Next(s, e).book.disk[id] == s.book.disk[id]
  {
  }

  /** Over all runs an action whose outcome is not known to be "not submitted" is
      performed once at most for a message, and while it stands no later submit can
      act; an accepted result is never replaced. */
  lemma {:induction false} ActedAtMostOnce(events: seq<Event>, id: Id)
    ensures Sane(After(events), id)
    ensures After(events).Standing(id) == 1 && !After(events).book.stuck ==> id in After(events).book.receipts
  {
    if events != [] {
      ActedAtMostOnce(events[..|events| - 1], id);
      StepSane(After(events[..|events| - 1]), events[|events| - 1], id);
    }
  }

  lemma AcceptedForGood(events: seq<Event>, e: Event, id: Id)
    requires var b := After(events).book; id in b.disk && b.disk[id].Accepted?
    ensures var b := Next(After(events), e).book; id in b.disk && b.disk[id] == After(events).book.disk[id]
  {
    ActedAtMostOnce(events, id);
    StepSane(After(events), e, id);
  }

  // ---------------------------------------------------------------- what is recorded

  /** A save that returned makes the file say what memory says; after one that failed
      memory says what the file says, or nothing is told or done any more. */
  lemma SaveMeans(b: Book, t: Try)
    requires !b.stuck
    ensures
      var n := Saved(b, t);
      && n.disk == (if t.write.LostBeforeRename? then b.disk else b.receipts)
      && (n.stuck <==> !t.write.Committed? && !t.readable)
      && (!n.stuck ==> n.receipts == n.disk)
  {
  }

  /** An action starts only for a message that nothing is recorded about, after its
      `sending` record was saved; a record that may be on file is never forgotten. */
  lemma SubmitMeans(s: Sys, id: Id, t: Try)
    requires Sane(s, id)
    ensures
      var n := Next(s, Submit(id, t));
      && (id in n.flying && id !in s.flying <==> !s.book.stuck && id !in s.book.receipts && t.write.Committed?)
      && (s.book.stuck || id in s.book.receipts ==> n == s)
      && (!s.book.stuck && id !in s.book.receipts ==>
            && n.book.disk == (if t.write.LostBeforeRename? then s.book.disk else s.book.disk[id := Sending])
            && (n.book.stuck <==> !t.write.Committed? && !t.readable)
            && (!n.book.stuck ==> n.book.receipts == n.book.disk))
  {
  }

  /** How an action that ended is recorded, when the writes return: its result, nothing
      at all when it was not submitted, and otherwise that nobody knows.  An acceptance
      that reached the file stays although its write reported failure. */
  lemma EndIsRecorded(s: Sys, id: Id, end: End, t1: Try, t2: Try)
    requires Sane(s, id) && !s.book.stuck && id in s.flying
    ensures
      var b := Next(s, Ends(id, end, t1, t2)).book;
      && id !in Next(s, Ends(id, end, t1, t2)).flying
      && (forall o :: o != id ==> (o in b.disk <==> o in s.book.disk) && (o in b.disk ==> b.disk[o] == s.book.disk[o]))
      && (end.Ok? && t1.write.Replaced() ==> id in b.disk && b.disk[id] == Accepted(end.result))
      && (end.Ok? && t1.write.LostBeforeRename? && t1.readable && t2.write.Replaced() ==>
            id in b.disk && b.disk[id] == Uncertain)
      && (end.NotSubmitted? && t2.write.Replaced() ==> id !in b.disk)
      && (end.Other? && t2.write.Replaced() ==> id in b.disk && b.disk[id] == Uncertain)
      && (t2.write.LostBeforeRename? && !end.Ok? ==> b.disk == s.book.disk)
  {
  }

  /** A new process knows exactly what the file says, and runs nothing. */
  lemma RestartMeans(s: Sys)
    ensures
      var n := Next(s, Crash);
      && n.book.receipts == s.book.disk && n.book.disk == s.book.disk && !n.book.stuck && n.flying == {}
    ensures !After([]).book.stuck && After([]).book.receipts == map[] && After([]).book.disk == map[]
  {
  }

  /** The results that actions brought in a run, as history. */
  function Results(events: seq<Event>): set<(Id, nat)> {
    if events == [] then {}
    else
      var before, e := events[..|events| - 1], events[|events| - 1];
      Results(before)
        + if e.Ends? && e.end.Ok? && e.id in After(before).flying then {(e.id, e.end.result)} else {}
  }

  /** Memory or file holds this result. */
  predicate Tells(b: Book, id: Id, result: nat) {
    (id in b.receipts && b.receipts[id] == Accepted(result)) || (id in b.disk && b.disk[id] == Accepted(result))
  }

  lemma CaughtTells(b: Book, id: Id, notSubmitted: bool, t: Try, o: Id, result: nat)
    requires Tells(Caught(b, id, notSubmitted, t), o, result)
    ensures Tells(b, o, result)
  {
  }

  lemma EndedTells(b: Book, id: Id, end: End, t1: Try, t2: Try, o: Id, result: nat)
    requires Tells(Ended(b, id, end, t1, t2), o, result)
    ensures Tells(b, o, result) || (o == id && end == Ok(result))
  {
    if end.Ok? {
      var saved := Saved(b.(receipts := b.receipts[id := Accepted(end.result)]), t1);
      if b.stuck || !t1.write.Returned() { CaughtTells(saved, id, false, t2, o, result); }
    } else {
      CaughtTells(b, id, end.NotSubmitted?, t2, o, result);
    }
  }

  lemma NextTells(s: Sys, e: Event, id: Id, result: nat)
    requires Tells(Next(s, e).book, id, result)
    ensures Tells(s.book, id, result) || (e.Ends? && e.id == id && id in s.flying && e.end == Ok(result))
  {
    if e.Ends? && e.id in s.flying { EndedTells(s.book, e.id, e.end, e.t1, e.t2, id, result); }
  }

  /** Over all runs a result that is told, now or after a restart, is the one that the
      action of this very message brought. */
  lemma {:induction false} AcceptedIsTheResult(events: seq<Event>, id: Id, result: nat)
    requires
      var b := After(events).book;
      (id in b.receipts && b.receipts[id] == Accepted(result)) || (id in b.disk && b.disk[id] == Accepted(result))
    ensures (id, result) in Results(events)
  {
    if events != [] {
      var before, e := events[..|events| - 1], events[|events| - 1];
      NextTells(After(before), e, id, result);
      if Tells(After(before).book, id, result) { AcceptedIsTheResult(before, id, result); }
    }
  }

  class SessionControlJournal {
    var receipts: map<Id, Receipt>
    var disk: map<Id, Receipt>
    var stuck: bool

    function Abs(): Book reads this { Book(receipts, disk, stuck) }

    constructor Load(file: map<Id, Receipt>)
      ensures Abs() == Book(file, file, false)
    {
      receipts, disk, stuck := file, file, false;
    }

    method Save(t: Try) returns (threw: bool)
      modifies this
      ensures Abs() == Saved(old(Abs()), t) && threw == (old(stuck) || !t.write.Returned())
    {
      if stuck { return true; }
      disk := FileAfter(disk, receipts, t.write);
      if t.write.Returned() { return false; }
      if t.readable { receipts := disk; } else { stuck := true; }
      return true;
    }

    /** `submit` up to its action: a stored result, a refusal, or permission to act. */
    method Submit(id: Id, t: Try) returns (known: Option<nat>, act: bool)
      modifies this
      ensures Abs() == Next(Sys(old(Abs()), {}, map[]), Event.Submit(id, t)).book
      ensures act <==> !old(stuck) && id !in old(receipts) && t.write.Returned()
      ensures known.Some? <==> !old(stuck) && id in old(receipts) && old(receipts)[id].Accepted?
      ensures known.Some? ==> known.value == old(receipts)[id].result
    {
      if stuck { return None, false; }
      if id in receipts {
        var receipt := receipts[id];
        return if receipt.Accepted? then Some(receipt.result) else None, false;
      }
      receipts := receipts[id := Sending];
      var threw := Save(t);
      return None, !threw;
    }

    /** `submit` once its action ended. */
    method Conclude(id: Id, end: End, t1: Try, t2: Try)
      modifies this
      ensures Abs() == Ended(old(Abs()), id, end, t1, t2)
    {
      var notSubmitted := end.NotSubmitted?;
      if end.Ok? {
        receipts := receipts[id := Accepted(end.result)];
        var threw := Save(t1);
        if !threw { return; }
      }
      if stuck || (id in receipts && receipts[id].Accepted?) { return; }
      if notSubmitted {
        receipts := receipts - {id};
      } else {
        receipts := receipts[id := Uncertain];
      }
      var threw := Save(t2);
    }
  }
}
