/** `NativeQueueCoordinator`: a submission journal over a native queue that the
    gateway does not own.

    Receipts are mutable objects: a `Ref` names one, `heap` holds what it says and
    `table` which object stands for an id.  SHA-256 is injective, so an id is the
    tuple it digests.  The JSON text of a receipt is its value. */
module NativeQueue {
  import opened Common

  datatype Id = Id(accountId: string, conversationId: string, actorId: string, messageId: string)
  datatype Lane = Lane(backend: string, hostId: string, threadId: string)
  datatype Ref = Ref(id: Id, epoch: nat)

  datatype Status = Submitting | Queued | Starting | Running | Completed | Uncertain | Cancelled | Rejected
  {
    predicate Unsettled() { !Completed? && !Cancelled? && !Rejected? }
  }

  datatype Reason = Refusal | Unacknowledged | Located | Absent | Unreadable | Undelivered

  datatype Receipt = Receipt(
    lane: Lane, status: Status, queuedId: Option<string>, turnId: Option<string>,
    delivered: bool, deliveryUnconfirmed: bool, verified: bool, reason: Option<Reason>, updatedAt: nat)
  {
    /** Evidence that outranks any later classification of the request. */
    predicate Evidence() { Truthy(turnId) || (status.Queued? && Truthy(queuedId)) }
  }

  /** An attempted save: what the write did, and whether the file could be read
      again afterwards. */
  datatype Try = Try(write: FileWrite, readable: bool)

  datatype Queue = Queue(
    heap: map<Ref, Receipt>, table: map<Id, Ref>, disk: map<Id, Receipt>, stuck: bool, epoch: nat)
  {
    predicate Stands(r: Ref) { r.id in table && table[r.id] == r }
  }

  datatype Result = Result(q: Queue, threw: bool)

  // ---------------------------------------------------------------- saving

  /** Every object is older than the epoch and every id stands for an object. */
  ghost predicate Shape(q: Queue) {
    && (forall r :: r in q.heap ==> r.epoch < q.epoch)
    && (forall id :: id in q.table ==> q.table[id].id == id && q.table[id] in q.heap)
  }

  /** Memory says exactly what the file says. */
  ghost predicate Mirror(q: Queue) {
    && q.table.Keys == q.disk.Keys
    && (forall id :: id in q.table ==> q.table[id] in q.heap && q.heap[q.table[id]] == q.disk[id])
  }

  ghost predicate Sound(q: Queue) { Shape(q) && (!q.stuck ==> Mirror(q)) }

  function Values(q: Queue): map<Id, Receipt> {
    map id | id in q.table && q.table[id] in q.heap :: q.heap[q.table[id]]
  }

  /** After a failed save: take what the file says, keep the identity of every
      object that stands for an id, drop ids the file does not have. */
  function Reloaded(q: Queue): Queue {
    q.(table := map id | id in q.disk :: Owner(q, id), epoch := q.epoch + 1,
       heap := map r | r in q.heap.Keys + (set id | id in q.disk :: Owner(q, id)) && (r in q.heap || Owned(q, r)) ::
         if Owned(q, r) then q.disk[r.id] else q.heap[r])
  }

  /** The object that stands for `id` after a reload. */
  function Owner(q: Queue, id: Id): Ref { if id in q.table then q.table[id] else Ref(id, q.epoch) }

  predicate Owned(q: Queue, r: Ref) { r.id in q.disk && r == Owner(q, r.id) }

  function Saved(q: Queue, t: Try): Result {
    if q.stuck then Result(q, true)
    else
      var wrote := q.(disk := FileAfter(q.disk, Values(q), t.write));
      if t.write.Returned() then Result(wrote, false)
      else if t.readable then Result(Reloaded(wrote), true)
      else Result(wrote.(stuck := true), true)
  }

  /** `update`: `to` is the receipt with the changed fields assigned. */
  function Updated(q: Queue, r: Ref, to: Receipt, now: nat, t: Try): Result {
    if q.stuck || !q.Stands(r) || r !in q.heap then Result(q, true)
    else if to == q.heap[r] then Result(q, false)
    else Saved(q.(heap := q.heap[r := to.(updatedAt := now)]), t)
  }

  // ---------------------------------------------------------------- enqueue

  /** How `addQueuedSubmission` ended. */
  datatype End = Item(queueId: string) | NotSubmitted | Refused | Ambiguous

  /** Whether `enqueue` goes past the receipt that is already there. */
  predicate Admits(q: Queue, id: Id, lane: Lane) {
    && !q.stuck
    && (id in q.table && q.table[id] in q.heap ==>
      q.heap[q.table[id]].lane == lane && q.heap[q.table[id]].status.Rejected?)
  }

  /** `enqueue`'s table with the new object in it, before it is saved. */
  function WithIntent(q: Queue, id: Id, lane: Lane, now: nat): Queue {
    var receipt := Receipt(lane, Submitting, None, None, false, false, false, None, now);
    q.(heap := q.heap[Ref(id, q.epoch) := receipt], table := q.table[id := Ref(id, q.epoch)], epoch := q.epoch + 1)
  }

  /** The durable intent. */
  function Intended(q: Queue, id: Id, lane: Lane, now: nat, t: Try): Result {
    Saved(WithIntent(q, id, lane, now), t)
  }

  function Accepted(q: Queue, r: Ref, turn: string, now: nat, t: Try): Result {
    if r !in q.heap then Result(q, true)
    else Updated(q, r, q.heap[r].(status := Running, turnId := Some(turn)), now, t)
  }

  /** The catch block of `enqueue`. */
  function Caught(q: Queue, r: Ref, end: End, now: nat, t: Try): Queue {
    if q.stuck || r !in q.heap || q.heap[r].Evidence() then q
    else if end.NotSubmitted? then Saved(q.(table := q.table - {r.id}), t).q
    else if end.Refused? then
      Updated(q, r, q.heap[r].(status := Rejected, reason := Some(Refusal)), now, t).q
    else
      Updated(q, r, q.heap[r].(status := Uncertain, reason := Some(Unacknowledged)), now, t).q
  }

  /** The end of `enqueue`.  A failing update of an acknowledged item is caught as
      well. */
  function Ended(q: Queue, r: Ref, end: End, now: nat, t1: Try, t2: Try): Queue {
    if !end.Item? || r !in q.heap then Caught(q, r, end, now, t2)
    else
      var to := q.heap[r].(status := if Truthy(q.heap[r].turnId) then Running else Queued,
                           queuedId := Some(end.queueId), reason := None);
      var update := Updated(q, r, to, now, t1);
      if update.threw then Caught(update.q, r, Ambiguous, now, t2) else update.q
  }

  /** Whether the end of an attempt proves that nothing was submitted. */
  predicate Withdrawn(q: Queue, r: Ref, end: End) {
    !q.stuck && r in q.heap && !q.heap[r].Evidence() && (end.NotSubmitted? || end.Refused?)
  }

  // ---------------------------------------------------------------- reconcile

  /** What a pass has found out about one receipt. */
  datatype Look = Unlooked | Missing | Decided

  /** One reconciliation pass over one thread: the receipts as it last knew them. */
  datatype Pass = Pass(versions: map<Ref, Receipt>, looks: map<Ref, Look>, failed: bool)

  datatype Found = Unconfirmed | InProgress | Finished

  datatype Evidence =
    | InQueue(item: Option<string>)
    | InHistory(turn: string, found: Found)
    | Nowhere
    | Failure

  /** What an observation makes of a receipt. */
  function Observed(was: Receipt, e: Evidence): Receipt {
    match e
    case InQueue(item) =>
      if item.None? then was else was.(status := Queued, queuedId := item, reason := None)
    case InHistory(turn, Unconfirmed) =>
      was.(turnId := Some(turn), status := Uncertain, reason := Some(Located))
    case InHistory(turn, found) =>
      was.(turnId := Some(turn), status := if found.InProgress? then Running else Completed,
           verified := true, reason := None)
    case Nowhere => was.(status := Uncertain, reason := Some(Absent))
    case Failure => if was.delivered then was else was.(reason := Some(Unreadable))
  }

  /** The order of a pass: the queue first, then history, then absence from both;
      a failed pass may only note that it failed. */
  predicate Due(p: Pass, r: Ref, e: Evidence) {
    && r in p.versions && r in p.looks
    && (match e
        case InQueue(_) => !p.failed && p.looks[r].Unlooked?
        case InHistory(_, _) => !p.failed && p.looks[r].Missing?
        case Nowhere => !p.failed && p.looks[r].Missing?
        case Failure => p.failed)
  }

  /** The pass's own `update`: it writes only what nobody else has changed. */
  function Compared(q: Queue, p: Pass, r: Ref, e: Evidence, now: nat, t: Try): (Queue, Pass)
    requires Due(p, r, e)
  {
    var look := if e == InQueue(None) then Missing else Decided;
    var looked := if e.Failure? then p else p.(looks := p.looks[r := look]);
    if r !in q.heap || q.heap[r] != p.versions[r] || e == InQueue(None) then (q, looked)
    else
      var update := Updated(q, r, Observed(q.heap[r], e), now, t);
      if update.threw || r !in update.q.heap then (update.q, p.(failed := true))
      else (update.q, looked.(versions := looked.versions[r := update.q.heap[r]]))
  }

  // ---------------------------------------------------------------- the system

  datatype Sys = Sys(
    q: Queue, flights: map<Id, Ref>, passes: map<nat, Pass>, dispatching: set<Lane>,
    standing: map<Id, nat>)
  {
    function Standing(id: Id): nat { if id in standing then standing[id] else 0 }
  }

  datatype Event =
    | Enqueue(id: Id, lane: Lane, current: bool, now: nat, t: Try)
    | OnAccepted(id: Id, turn: string, now: nat, t: Try)
    | EnqueueEnds(id: Id, end: End, now: nat, t1: Try, t2: Try)
    | PassBegins(pass: nat, members: set<Ref>)
    | PassSees(pass: nat, r: Ref, evidence: Evidence, now: nat, t: Try)
    | PassSkips(pass: nat, r: Ref)
    | PassBreaks(pass: nat)
    | DispatchEnters(lane: Lane)
    | DispatchLeaves(lane: Lane)
    | Starts(r: Ref, now: nat, t: Try)
    | Started(r: Ref, turn: string, now: nat, t: Try)
    | Executed(r: Ref, delivered: bool, now: nat, t: Try)
    | Busy(r: Ref, now: nat, t: Try)
    | Abandoned(r: Ref, now: nat, t: Try)
    | Cancels(r: Ref, now: nat, t: Try)
    | Crash

  predicate InDispatch(s: Sys, r: Ref) { r in s.q.heap && s.q.heap[r].lane in s.dispatching }

  predicate Enabled(s: Sys, e: Event) {
    match e
    case Enqueue(_, _, _, _, _) => true
    case OnAccepted(id, _, _, _) => id in s.flights
    case EnqueueEnds(id, _, _, _, _) => id in s.flights
    case PassBegins(pass, members) =>
      && pass !in s.passes && !s.q.stuck
      && (forall r :: r in members ==> r in s.q.heap && s.q.Stands(r) && s.q.heap[r].status.Unsettled())
    case PassSees(pass, r, evidence, _, _) => pass in s.passes && Due(s.passes[pass], r, evidence)
    case PassSkips(pass, r) =>
      && pass in s.passes && Due(s.passes[pass], r, InQueue(None)) && InDispatch(s, r)
      && (s.q.heap[r].status.Starting? || s.q.heap[r].status.Running?)
    case PassBreaks(pass) => pass in s.passes
    case DispatchEnters(lane) => lane !in s.dispatching && !s.q.stuck
    case DispatchLeaves(lane) => lane in s.dispatching
    case Starts(r, _, _) => InDispatch(s, r)
    case Started(r, _, _, _) => InDispatch(s, r)
    case Executed(r, _, _, _) => InDispatch(s, r)
    case Busy(r, _, _) => InDispatch(s, r)
    case Abandoned(r, _, _) => InDispatch(s, r)
    case Cancels(r, _, _) => r in s.q.heap
    case Crash => true
  }

  /** The receipt that `dispatch` and `cancel` write, or the one that is there. */
  function Rewritten(was: Receipt, e: Event): Receipt {
    match e
    case Starts(_, _, _) => if was.status.Queued? then was.(status := Starting) else was
    case Started(_, turn, _, _) => was.(status := Running, turnId := Some(turn))
    case Executed(_, delivered, _, _) =>
      was.(status := Completed, reason := None,
           delivered := was.delivered || delivered, verified := was.verified || !delivered)
    case Busy(_, _, _) =>
      if was.status.Starting? && !Truthy(was.turnId) then was.(status := Queued, reason := None) else was
    case Abandoned(_, _, _) =>
      if (was.status.Starting? || was.status.Running?) && !was.delivered
      then was.(status := Uncertain, reason := Some(Undelivered),
                deliveryUnconfirmed := was.deliveryUnconfirmed || Truthy(was.turnId))
      else was
    case Cancels(_, _, _) => was.(status := Cancelled, reason := None)
    case _ => was
  }

  predicate Rewrites(e: Event) {
    e.Starts? || e.Started? || e.Executed? || e.Busy? || e.Abandoned? || e.Cancels?
  }

  function Next(s: Sys, e: Event): Sys {
    if !Enabled(s, e) then s
    else if Rewrites(e) then
      s.(q := Updated(s.q, e.r, Rewritten(s.q.heap[e.r], e), e.now, e.t).q)
    else match e
      case Enqueue(id, lane, current, now, t) =>
        if !Admits(s.q, id, lane) || !current then s
        else
          var intent := Intended(s.q, id, lane, now, t);
          if intent.threw then s.(q := intent.q)
          else s.(q := intent.q, flights := s.flights[id := Ref(id, s.q.epoch)],
                  standing := s.standing[id := s.Standing(id) + 1])
      case OnAccepted(id, turn, now, t) => s.(q := Accepted(s.q, s.flights[id], turn, now, t).q)
      case EnqueueEnds(id, end, now, t1, t2) =>
        s.(q := Ended(s.q, s.flights[id], end, now, t1, t2), flights := s.flights - {id},
           standing := if Withdrawn(s.q, s.flights[id], end) then s.standing[id := 0] else s.standing)
      case PassBegins(pass, members) =>
        s.(passes := s.passes[pass := Pass(map r | r in members :: s.q.heap[r],
                                           map r | r in members :: Unlooked, false)])
      case PassSees(pass, r, evidence, now, t) =>
        var seen := Compared(s.q, s.passes[pass], r, evidence, now, t);
        s.(q := seen.0, passes := s.passes[pass := seen.1])
      case PassSkips(pass, r) =>
        var p := s.passes[pass];
        s.(passes := s.passes[pass := p.(looks := p.looks[r := Decided])])
      case PassBreaks(pass) => s.(passes := s.passes[pass := s.passes[pass].(failed := true)])
      case DispatchEnters(lane) => s.(dispatching := s.dispatching + {lane})
      case DispatchLeaves(lane) => s.(dispatching := s.dispatching - {lane})
      case _ => s.(q := Restarted(s.q), flights := map[], passes := map[], dispatching := {})
  }

  /** A new process reads the file into added objects. */
  function Restarted(q: Queue): Queue {
    Reloaded(Queue(map[], map[], q.disk, false, q.epoch))
  }

  function After(start: Sys, events: seq<Event>): Sys {
    if events == [] then start else Next(After(start, events[..|events| - 1]), events[|events| - 1])
  }

  const EMPTY := Sys(Queue(map[], map[], map[], false, 0), map[], map[], {}, map[])

  // ---------------------------------------------------------------- one write

  /** From `q` to `q2` nothing moved but the object `r` and the id it stands for. */
  ghost predicate Moved(q: Queue, q2: Queue, r: Ref) {
    && q2.epoch >= q.epoch
    && (q.stuck ==> q2.stuck)
    && (forall ref :: ref in q.heap ==> ref in q2.heap && (ref != r ==> q2.heap[ref] == q.heap[ref]))
    && (forall id :: id != r.id ==> (id in q.disk <==> id in q2.disk))
    && (forall id :: id != r.id && id in q.disk ==> q2.disk[id] == q.disk[id])
    && (!q2.stuck ==> forall id :: id != r.id && id in q.table ==> id in q2.table && q2.table[id] == q.table[id])
  }

  /** What a reload leaves: one object for each saved id, which says what the file
      says; every other object says what it said. */
  ghost predicate Reread(q: Queue, n: Queue) {
    && n.disk == q.disk && n.stuck == q.stuck && n.epoch == q.epoch + 1
    && (forall id :: id in n.table <==> id in q.disk)
    && (forall id :: id in n.table ==> n.table[id] == Owner(q, id) && n.table[id] in n.heap)
    && (forall r :: r in q.heap ==> r in n.heap)
    && (forall r :: r in n.heap && Owned(q, r) ==> n.heap[r] == q.disk[r.id])
    && (forall r :: r in n.heap && !Owned(q, r) ==> r in q.heap && n.heap[r] == q.heap[r])
  }

  lemma ReloadReads(q: Queue)
    requires Shape(q)
    ensures Reread(q, Reloaded(q))
  {
    forall id | id in q.disk ensures Owner(q, id) in Reloaded(q).heap {
      assert Owner(q, id).id == id && Owned(q, Owner(q, id));
      assert Owner(q, id) in (set i | i in q.disk :: Owner(q, i));
    }
  }

  lemma RereadMirrors(q: Queue, n: Queue)
    requires Shape(q) && Reread(q, n)
    ensures Shape(n) && Mirror(n)
    ensures forall ref :: ref in q.heap ==>
      n.heap[ref] == if q.Stands(ref) && ref.id in q.disk then q.disk[ref.id] else q.heap[ref]
  {
    forall id | id in n.table ensures n.table[id].id == id && n.heap[n.table[id]] == q.disk[id] {
      assert Owned(q, Owner(q, id));
    }
    forall ref | ref in q.heap ensures Owned(q, ref) <==> (q.Stands(ref) && ref.id in q.disk) { }
  }

  lemma ReloadedMirrors(q: Queue)
    requires Shape(q)
    ensures Shape(Reloaded(q)) && Mirror(Reloaded(q))
    ensures forall ref :: ref in q.heap ==> ref in Reloaded(q).heap
    ensures forall ref :: ref in q.heap ==>
      Reloaded(q).heap[ref] == if q.Stands(ref) && ref.id in q.disk then q.disk[ref.id] else q.heap[ref]
  {
    ReloadReads(q);
    RereadMirrors(q, Reloaded(q));
  }

  /** A state about to be saved: it differs from the sound `q0` at `r` only. */
  ghost predicate Edited(q0: Queue, q: Queue, r: Ref) {
    && Sound(q0) && !q0.stuck && !q.stuck && Shape(q) && q.epoch >= q0.epoch && q.disk == q0.disk
    && (forall ref :: ref in q0.heap ==> ref in q.heap && (ref != r ==> q.heap[ref] == q0.heap[ref]))
    && (forall id :: id != r.id ==> (id in q.table <==> id in q0.table))
    && (forall id :: id != r.id && id in q.table ==> q.table[id] == q0.table[id])
    && (r.id in q.table ==> q.table[r.id] == r)
  }

  /** What a save of `q` leaves of `r` itself: the edit or the saved value. */
  ghost predicate Landed(q: Queue, q2: Queue, r: Ref, returned: bool) {
    && r in q.heap && r in q2.heap
    && (r.id in q.disk || returned ==> r.id in q2.disk)
    && (returned ==> q2.disk[r.id] == q.heap[r])
    && (r.id in q2.disk && !q2.stuck ==> q2.Stands(r))
    && (q2.heap[r] == q.heap[r] || (r.id in q.disk && q2.heap[r] == q.disk[r.id]))
    && (r.id in q2.disk ==> q2.disk[r.id] == q.heap[r] || (r.id in q.disk && q2.disk[r.id] == q.disk[r.id]))
  }

  lemma RereadMoves(q0: Queue, q: Queue, n: Queue, r: Ref)
    requires Edited(q0, q.(disk := q0.disk), r) && Shape(q) && Reread(q, n)
    requires forall id :: id != r.id ==> (id in q.disk <==> id in q0.disk)
    requires forall id :: id != r.id && id in q.disk ==> q.disk[id] == q0.disk[id]
    ensures Moved(q0, n, r)
  {
    RereadMirrors(q, n);
    forall ref | ref in q0.heap && ref != r ensures n.heap[ref] == q0.heap[ref] {
      if q.Stands(ref) && ref.id in q.disk {
        assert q0.table[ref.id] == ref && q0.heap[ref] == q0.disk[ref.id];
      }
    }
  }

  lemma ReloadMoves(q0: Queue, q: Queue, r: Ref)
    requires Edited(q0, q.(disk := q0.disk), r)
    requires forall id :: id != r.id ==> (id in q.disk <==> id in q0.disk)
    requires forall id :: id != r.id && id in q.disk ==> q.disk[id] == q0.disk[id]
    ensures Sound(Reloaded(q)) && Moved(q0, Reloaded(q), r)
  {
    assert Shape(q);
    ReloadReads(q);
    ReloadedMirrors(q);
    RereadMoves(q0, q, Reloaded(q), r);
  }

  lemma ValuesMove(q0: Queue, q: Queue, r: Ref)
    requires Edited(q0, q, r)
    ensures Values(q).Keys == q.table.Keys
    ensures forall id :: id != r.id ==> (id in Values(q) <==> id in q0.disk)
    ensures forall id :: id != r.id && id in q0.disk ==> Values(q)[id] == q0.disk[id]
    ensures r.id in q.table ==> Values(q)[r.id] == q.heap[r]
  {
  }

  lemma WriteMoves(q0: Queue, q: Queue, r: Ref, w: FileWrite, stuck: bool)
    requires Edited(q0, q, r)
    requires w.Returned() || stuck
    ensures var wrote := q.(disk := FileAfter(q.disk, Values(q), w), stuck := stuck);
      Moved(q0, wrote, r) && Shape(wrote)
  {
    ValuesMove(q0, q, r);
  }

  lemma SavedMoves(q0: Queue, q: Queue, r: Ref, t: Try)
    requires Edited(q0, q, r)
    ensures Sound(Saved(q, t).q) && Moved(q0, Saved(q, t).q, r)
  {
    if t.write.Returned() || !t.readable {
      WriteMoves(q0, q, r, t.write, !t.write.Returned());
    } else {
      ValuesMove(q0, q, r);
      ReloadMoves(q0, q.(disk := FileAfter(q.disk, Values(q), t.write)), r);
    }
  }

  lemma SavedLands(q0: Queue, q: Queue, r: Ref, t: Try)
    requires Edited(q0, q, r) && r.id in q.table
    ensures Landed(q, Saved(q, t).q, r, t.write.Returned())
  {
    ValuesMove(q0, q, r);
    if !t.write.Returned() && t.readable {
      ReloadedMirrors(q.(disk := FileAfter(q.disk, Values(q), t.write)));
    }
  }

  lemma UpdatedMoves(q: Queue, r: Ref, to: Receipt, now: nat, t: Try)
    requires Sound(q)
    ensures var q2 := Updated(q, r, to, now, t).q;
      && Sound(q2) && Moved(q, q2, r)
      && (r.id in q.disk <==> r.id in q2.disk)
      && (r.id in q.disk ==>
        q2.disk[r.id] == q.disk[r.id] || (q.Stands(r) && q2.disk[r.id] == to.(updatedAt := now)))
      && (r in q.heap ==> r in q2.heap && (q2.heap[r] == q.heap[r] || q2.heap[r] == to.(updatedAt := now)))
      && (q.Stands(r) && !q2.stuck ==> q2.Stands(r))
  {
    if !q.stuck && q.Stands(r) && r in q.heap && to != q.heap[r] {
      var edited := q.(heap := q.heap[r := to.(updatedAt := now)]);
      assert Edited(q, edited, r);
      SavedMoves(q, edited, r, t);
      SavedLands(q, edited, r, t);
    }
  }

  // ---------------------------------------------------------------- at most once

  /** One native add at most is not known to have been refused; its receipt is on
      disk, is not `rejected`, and while it is in flight its object keeps its id. */
  ghost predicate Sane(s: Sys, id: Id) {
    && s.Standing(id) <= 1
    && (s.Standing(id) == 1 ==> id in s.q.disk && !s.q.disk[id].status.Rejected?)
    && (id in s.flights ==>
      && s.Standing(id) == 1
      && s.flights[id].id == id && s.flights[id] in s.q.heap
      && (!s.q.stuck ==> s.q.Stands(s.flights[id])))
  }

  /** A write that leaves `Sane` alone: it keeps the id on disk and its object, and
      does not reject it. */
  ghost predicate Harmless(q: Queue, q2: Queue, r: Ref) {
    && Moved(q, q2, r)
    && (r.id in q.disk ==> r.id in q2.disk && (q2.disk[r.id].status.Rejected? ==> q.disk[r.id].status.Rejected?))
    && (r.id in q.table && !q2.stuck ==> r.id in q2.table && q2.table[r.id] == q.table[r.id])
    && (r in q.heap ==> r in q2.heap)
  }

  lemma HarmlessSane(s: Sys, q2: Queue, r: Ref, id: Id)
    requires Sound(s.q) && Sane(s, id) && Harmless(s.q, q2, r)
    ensures Sane(s.(q := q2), id)
  {
  }

  lemma UpdateHarmless(q: Queue, r: Ref, to: Receipt, now: nat, t: Try)
    requires Sound(q)
    requires r in q.heap && to.status.Rejected? ==> q.heap[r].status.Rejected?
    ensures Sound(Updated(q, r, to, now, t).q) && Harmless(q, Updated(q, r, to, now, t).q, r)
  {
    UpdatedMoves(q, r, to, now, t);
  }

  lemma IntentEdits(q: Queue, id: Id, lane: Lane, now: nat)
    requires Sound(q) && !q.stuck
    ensures Edited(q, WithIntent(q, id, lane, now), Ref(id, q.epoch))
  {
  }

  lemma IntendedMoves(q: Queue, id: Id, lane: Lane, now: nat, t: Try)
    requires Sound(q) && !q.stuck
    ensures Sound(Intended(q, id, lane, now, t).q) && Moved(q, Intended(q, id, lane, now, t).q, Ref(id, q.epoch))
    ensures Landed(WithIntent(q, id, lane, now), Intended(q, id, lane, now, t).q, Ref(id, q.epoch), t.write.Returned())
  {
    IntentEdits(q, id, lane, now);
    SavedMoves(q, WithIntent(q, id, lane, now), Ref(id, q.epoch), t);
    SavedLands(q, WithIntent(q, id, lane, now), Ref(id, q.epoch), t);
  }

  lemma CaughtMoves(q: Queue, r: Ref, end: End, now: nat, t: Try)
    requires Sound(q) && (q.stuck || q.Stands(r)) && r in q.heap
    ensures var q2 := Caught(q, r, end, now, t); Sound(q2) && Moved(q, q2, r)
    ensures !Withdrawn(q, r, end) ==> Harmless(q, Caught(q, r, end, now, t), r)
  {
    if !q.stuck && !q.heap[r].Evidence() {
      if end.NotSubmitted? {
        var edited := q.(table := q.table - {r.id});
        assert Edited(q, edited, r);
        SavedMoves(q, edited, r, t);
      } else if end.Refused? {
        UpdatedMoves(q, r, q.heap[r].(status := Rejected, reason := Some(Refusal)), now, t);
      } else {
        UpdateHarmless(q, r, q.heap[r].(status := Uncertain, reason := Some(Unacknowledged)), now, t);
      }
    }
  }

  lemma HarmlessTwice(q: Queue, q2: Queue, q3: Queue, r: Ref)
    requires Harmless(q, q2, r) && Harmless(q2, q3, r)
    ensures Harmless(q, q3, r)
  {
    assert forall id :: id != r.id ==> (id in q.disk <==> id in q3.disk);
    if !q3.stuck {
      forall id | id != r.id && id in q.table ensures id in q3.table && q3.table[id] == q.table[id] {
        assert id in q2.table;
      }
    }
  }

  lemma EndedMoves(q: Queue, r: Ref, end: End, now: nat, t1: Try, t2: Try)
    requires Sound(q) && (q.stuck || q.Stands(r)) && r in q.heap
    ensures var q2 := Ended(q, r, end, now, t1, t2); Sound(q2) && Moved(q, q2, r)
    ensures !Withdrawn(q, r, end) ==> Harmless(q, Ended(q, r, end, now, t1, t2), r)
  {
    if !end.Item? {
      CaughtMoves(q, r, end, now, t2);
    } else {
      var to := q.heap[r].(status := if Truthy(q.heap[r].turnId) then Running else Queued,
                           queuedId := Some(end.queueId), reason := None);
      UpdateHarmless(q, r, to, now, t1);
      UpdatedMoves(q, r, to, now, t1);
      var update := Updated(q, r, to, now, t1);
      if update.threw {
        CaughtMoves(update.q, r, Ambiguous, now, t2);
        HarmlessTwice(q, update.q, Caught(update.q, r, Ambiguous, now, t2), r);
      }
    }
  }

  /** What a step does to the queue: `Harmless` writes of one object, or one of the
      three steps that are about an attempt. */
  lemma StepHarmless(s: Sys, e: Event)
    requires Sound(s.q) && Enabled(s, e)
    requires !e.Enqueue? && !e.EnqueueEnds? && !e.Crash?
    requires e.OnAccepted? ==> s.flights[e.id] in s.q.heap
    ensures Sound(Next(s, e).q)
    ensures Next(s, e).flights == s.flights && Next(s, e).standing == s.standing
    ensures Next(s, e).q == s.q || exists r :: Harmless(s.q, Next(s, e).q, r)
  {
    if Rewrites(e) {
      UpdateHarmless(s.q, e.r, Rewritten(s.q.heap[e.r], e), e.now, e.t);
    } else if e.OnAccepted? {
      var r := s.flights[e.id];
      UpdateHarmless(s.q, r, s.q.heap[r].(status := Running, turnId := Some(e.turn)), e.now, e.t);
    } else if e.PassSees? && e.r in s.q.heap {
      UpdateHarmless(s.q, e.r, Observed(s.q.heap[e.r], e.evidence), e.now, e.t);
    }
  }

  lemma EnqueueSane(s: Sys, e: Event, id: Id)
    requires Sound(s.q) && Sane(s, id) && Enabled(s, e) && e.Enqueue?
    ensures Sound(Next(s, e).q) && Sane(Next(s, e), id)
  {
    if Admits(s.q, e.id, e.lane) && e.current {
      IntendedMoves(s.q, e.id, e.lane, e.now, e.t);
    }
  }

  lemma EndSane(s: Sys, e: Event, id: Id)
    requires Sound(s.q) && Sane(s, id) && Enabled(s, e) && e.EnqueueEnds? && Sane(s, e.id)
    ensures Sound(Next(s, e).q) && Sane(Next(s, e), id)
  {
    EndedMoves(s.q, s.flights[e.id], e.end, e.now, e.t1, e.t2);
  }

  lemma RestartMirrors(q: Queue)
    ensures Sound(Restarted(q)) && Restarted(q).disk == q.disk && !Restarted(q).stuck
  {
    ReloadedMirrors(Queue(map[], map[], q.disk, false, q.epoch));
  }

  lemma StepSane(s: Sys, e: Event, id: Id)
    requires Sound(s.q) && Sane(s, id)
    requires e.OnAccepted? || e.EnqueueEnds? ==> Sane(s, e.id)
    ensures Sound(Next(s, e).q) && Sane(Next(s, e), id)
  {
    if !Enabled(s, e) {
    } else if e.Enqueue? {
      EnqueueSane(s, e, id);
    } else if e.EnqueueEnds? {
      EndSane(s, e, id);
    } else if e.Crash? {
      RestartMirrors(s.q);
    } else {
      StepHarmless(s, e);
      if Next(s, e).q != s.q {
        var r :| Harmless(s.q, Next(s, e).q, r);
        HarmlessSane(s, Next(s, e).q, r, id);
      }
      var now := s.(q := Next(s, e).q);
      assert Sane(now, id) && now.flights == Next(s, e).flights && now.standing == Next(s, e).standing;
      assert now.Standing(id) == Next(s, e).Standing(id);
    }
  }

  ghost predicate Reached(s: Sys) { Sound(s.q) && forall id: Id :: Sane(s, id) }

  lemma StepReached(s: Sys, e: Event)
    requires Reached(s)
    ensures Reached(Next(s, e))
  {
    StepSane(s, e, Id("", "", "", ""));
    forall id: Id ensures Sane(Next(s, e), id) { StepSane(s, e, id); }
  }

  /** Over all runs, with saves that fail on either side of the rename, reloads that
      fail, reconciliation, dispatch, cancellation and crashes in between: at most
      one native add for an id is not known to have been refused. */
  lemma {:induction false} AddedAtMostOnce(events: seq<Event>, id: Id)
    ensures Reached(After(EMPTY, events))
    ensures After(EMPTY, events).Standing(id) <= 1
  {
    if events != [] {
      AddedAtMostOnce(events[..|events| - 1], id);
      StepReached(After(EMPTY, events[..|events| - 1]), events[|events| - 1]);
    }
    assert Sane(After(EMPTY, events), id);
  }

  /** While an attempt stands nothing admits another, in this process or the next. */
  lemma StandingBlocks(events: seq<Event>, id: Id, lane: Lane)
    requires After(EMPTY, events).Standing(id) == 1
    ensures !Admits(After(EMPTY, events).q, id, lane)
  {
    AddedAtMostOnce(events, id);
    assert Sane(After(EMPTY, events), id);
  }

  // ---------------------------------------------------------------- a pass loses

  /** A receipt that a pass has yet to decide was unsettled when it last looked. */
  ghost predicate Cautious(p: Pass) {
    forall r :: r in p.versions && r in p.looks && !p.looks[r].Decided? ==> p.versions[r].status.Unsettled()
  }

  ghost predicate AllCautious(s: Sys) { forall n :: n in s.passes ==> Cautious(s.passes[n]) }

  lemma StepCautious(s: Sys, e: Event)
    requires AllCautious(s)
    ensures AllCautious(Next(s, e))
  {
    if Enabled(s, e) && e.PassSees? {
      var p := Compared(s.q, s.passes[e.pass], e.r, e.evidence, e.now, e.t).1;
      assert Cautious(s.passes[e.pass]);
      assert Cautious(p);
    }
  }

  lemma {:induction false} PassesAreCautious(events: seq<Event>)
    ensures AllCautious(After(EMPTY, events))
  {
    if events != [] {
      PassesAreCautious(events[..|events| - 1]);
      StepCautious(After(EMPTY, events[..|events| - 1]), events[|events| - 1]);
    }
  }

  /** If anyone else changed the receipt since the pass last saw it, the pass's step
      changes nothing at all. */
  lemma LosingStepIsNoOp(s: Sys, e: Event)
    requires Enabled(s, e) && e.PassSees? && e.r in s.q.heap
    requires s.q.heap[e.r] != s.passes[e.pass].versions[e.r]
    ensures Next(s, e).q == s.q
  {
  }

  /** What a pass may do to a receipt: only if it was exactly as the pass knew it,
      and never to take a settled receipt out of its state. */
  predicate MayTurn(e: Evidence, was: Receipt, now: Receipt) {
    && (now.status != was.status ==> was.status.Unsettled() && !now.status.Cancelled? && !now.status.Rejected?)
    && (e.Nowhere? && now.status != was.status ==> now.status.Uncertain?)
    && (e.Failure? ==> now.status == was.status)
  }

  lemma ComparedTurns(q: Queue, p: Pass, r: Ref, e: Evidence, now: nat, t: Try, ref: Ref)
    requires Due(p, r, e) && Sound(q) && Cautious(p) && ref in q.heap
    ensures var q2 := Compared(q, p, r, e, now, t).0;
      && ref in q2.heap
      && (q2.heap[ref] != q.heap[ref] ==> ref == r && q.heap[ref] == p.versions[ref])
      && MayTurn(e, q.heap[ref], q2.heap[ref])
      && (ref.id in q.disk ==> ref.id in q2.disk && MayTurn(e, q.disk[ref.id], q2.disk[ref.id]))
  {
    if r in q.heap && q.heap[r] == p.versions[r] && e != InQueue(None) {
      var to := Observed(q.heap[r], e);
      UpdatedMoves(q, r, to, now, t);
      assert p.versions[r].status.Unsettled() || e.Failure?;
      assert MayTurn(e, q.heap[r], to.(updatedAt := now));
      assert Compared(q, p, r, e, now, t).0 == Updated(q, r, to, now, t).q;
      assert q.Stands(r) && !q.stuck ==> q.disk[r.id] == q.heap[r];
    }
  }

  /** In every reachable state a pass touches only the receipt it looks at, and only
      if it is exactly as the pass knew it.  It never moves the status of a
      completed, cancelled or rejected receipt, in memory or on disk; it cancels and
      rejects nothing; and absence from queue and history makes a receipt uncertain
      at most. */
  lemma PassNeverReopens(events: seq<Event>, e: Event, ref: Ref)
    requires var s := After(EMPTY, events); Enabled(s, e) && e.PassSees? && ref in s.q.heap
    ensures var s, next := After(EMPTY, events), Next(After(EMPTY, events), e);
      && ref in next.q.heap
      && (next.q.heap[ref] != s.q.heap[ref] ==>
        ref == e.r && s.q.heap[ref] == s.passes[e.pass].versions[ref])
      && MayTurn(e.evidence, s.q.heap[ref], next.q.heap[ref])
      && (ref.id in s.q.disk ==>
        ref.id in next.q.disk && MayTurn(e.evidence, s.q.disk[ref.id], next.q.disk[ref.id]))
  {
    var s := After(EMPTY, events);
    AddedAtMostOnce(events, ref.id);
    PassesAreCautious(events);
    assert Cautious(s.passes[e.pass]);
    ComparedTurns(s.q, s.passes[e.pass], e.r, e.evidence, e.now, e.t, ref);
  }

  /** A refused or undelivered submission may be tried again under the same id. */
  lemma RefusedMayRetry(q: Queue, r: Ref, end: End, now: nat, t1: Try, t2: Try)
    requires Sound(q) && q.Stands(r) && r in q.heap && Withdrawn(q, r, end) && t2.write.Returned()
    ensures Admits(Ended(q, r, end, now, t1, t2), r.id, q.heap[r].lane)
  {
  }

  // ---------------------------------------------------------------- what backs a receipt

  /** What has been learnt about an id: a turn or a queued item that was reported for
      it, a pass that saw that turn finished, an execution that ended, its delivered
      result, a cancellation, a refusal. */
  datatype Ground =
    | TurnReported(id: Id, turn: string)
    | ItemReported(id: Id, item: string)
    | SeenFinished(id: Id, turn: string)
    | ExecutionEnded(id: Id)
    | ResultDelivered(id: Id)
    | CancelRan(id: Id)
    | AddRefused(id: Id)

  function GroundsOf(s: Sys, e: Event): set<Ground> {
    if !Enabled(s, e) then {}
    else match e
      case OnAccepted(id, turn, _, _) => {TurnReported(id, turn)}
      case EnqueueEnds(id, Item(item), _, _, _) => {ItemReported(id, item)}
      case EnqueueEnds(id, Refused, _, _, _) => {AddRefused(id)}
      case PassSees(_, r, InQueue(Some(item)), _, _) => {ItemReported(r.id, item)}
      case PassSees(_, r, InHistory(turn, found), _, _) =>
        {TurnReported(r.id, turn)} + if found.Finished? then {SeenFinished(r.id, turn)} else {}
      case Started(r, turn, _, _) => {TurnReported(r.id, turn)}
      case Executed(r, delivered, _, _) =>
        {ExecutionEnded(r.id)} + if delivered then {ResultDelivered(r.id)} else {}
      case Cancels(r, _, _) => {CancelRan(r.id)}
      case _ => {}
  }

  /** Everything learnt in a run, as history. */
  function Grounds(events: seq<Event>): set<Ground> {
    if events == [] then {}
    else
      var before := events[..|events| - 1];
      Grounds(before) + GroundsOf(After(EMPTY, before), events[|events| - 1])
  }

  /** The receipt of `id` claims nothing that was not learnt. */
  predicate Backed(g: set<Ground>, id: Id, r: Receipt) {
    && (r.turnId.Some? ==> TurnReported(id, r.turnId.value) in g)
    && (r.queuedId.Some? ==> ItemReported(id, r.queuedId.value) in g)
    && (r.delivered ==> ResultDelivered(id) in g)
    && (match r.status
        case Completed =>
          ExecutionEnded(id) in g || (r.turnId.Some? && SeenFinished(id, r.turnId.value) in g)
        case Running => r.turnId.Some?
        case Queued => r.queuedId.Some?
        case Starting => r.queuedId.Some?
        case Cancelled => CancelRan(id) in g
        case Rejected => AddRefused(id) in g
        case _ => true)
  }

  ghost predicate AllBacked(g: set<Ground>, q: Queue) {
    && (forall ref :: ref in q.heap ==> Backed(g, ref.id, q.heap[ref]))
    && (forall id :: id in q.disk ==> Backed(g, id, q.disk[id]))
  }

  lemma BackedByMore(g: set<Ground>, more: set<Ground>, q: Queue)
    requires AllBacked(g, q) && g <= more
    ensures AllBacked(more, q)
  {
  }

  lemma ReloadedBacked(g: set<Ground>, q: Queue)
    requires Shape(q) && AllBacked(g, q)
    ensures AllBacked(g, Reloaded(q))
  {
    ReloadReads(q);
    forall ref | ref in Reloaded(q).heap ensures Backed(g, ref.id, Reloaded(q).heap[ref]) { }
  }

  lemma SavedBacked(g: set<Ground>, q: Queue, t: Try)
    requires Shape(q) && AllBacked(g, q)
    ensures AllBacked(g, Saved(q, t).q)
  {
    var wrote := q.(disk := FileAfter(q.disk, Values(q), t.write));
    assert AllBacked(g, wrote);
    if !t.write.Returned() && t.readable { ReloadedBacked(g, wrote); }
  }

  lemma UpdatedBacked(g: set<Ground>, q: Queue, r: Ref, to: Receipt, now: nat, t: Try)
    requires Shape(q) && AllBacked(g, q) && Backed(g, r.id, to)
    ensures AllBacked(g, Updated(q, r, to, now, t).q)
  {
    if !q.stuck && q.Stands(r) && r in q.heap && to != q.heap[r] {
      SavedBacked(g, q.(heap := q.heap[r := to.(updatedAt := now)]), t);
    }
  }

  lemma CaughtBacked(g: set<Ground>, q: Queue, r: Ref, end: End, now: nat, t: Try)
    requires Shape(q) && AllBacked(g, q) && (end.Refused? ==> AddRefused(r.id) in g)
    ensures AllBacked(g, Caught(q, r, end, now, t))
  {
    if !q.stuck && r in q.heap && !q.heap[r].Evidence() {
      if end.NotSubmitted? {
        SavedBacked(g, q.(table := q.table - {r.id}), t);
      } else if end.Refused? {
        UpdatedBacked(g, q, r, q.heap[r].(status := Rejected, reason := Some(Refusal)), now, t);
      } else {
        UpdatedBacked(g, q, r, q.heap[r].(status := Uncertain, reason := Some(Unacknowledged)), now, t);
      }
    }
  }

  lemma EndedBacked(g: set<Ground>, q: Queue, r: Ref, end: End, now: nat, t1: Try, t2: Try)
    requires Sound(q) && AllBacked(g, q)
    requires end.Refused? ==> AddRefused(r.id) in g
    requires end.Item? ==> ItemReported(r.id, end.queueId) in g
    ensures AllBacked(g, Ended(q, r, end, now, t1, t2))
  {
    if !end.Item? || r !in q.heap {
      CaughtBacked(g, q, r, end, now, t2);
    } else {
      var to := q.heap[r].(status := if Truthy(q.heap[r].turnId) then Running else Queued,
                           queuedId := Some(end.queueId), reason := None);
      UpdatedBacked(g, q, r, to, now, t1);
      UpdatedMoves(q, r, to, now, t1);
      CaughtBacked(g, Updated(q, r, to, now, t1).q, r, Ambiguous, now, t2);
    }
  }

  lemma StepBacked(g: set<Ground>, s: Sys, e: Event)
    requires Reached(s) && AllBacked(g, s.q) && GroundsOf(s, e) <= g
    ensures AllBacked(g, Next(s, e).q)
  {
    if Enabled(s, e) {
      if Rewrites(e) {
        RewrittenBacked(g, s, e);
        UpdatedBacked(g, s.q, e.r, Rewritten(s.q.heap[e.r], e), e.now, e.t);
      } else if e.Enqueue? {
        if Admits(s.q, e.id, e.lane) && e.current { SavedBacked(g, WithIntent(s.q, e.id, e.lane, e.now), e.t); }
      } else if e.OnAccepted? {
        assert Sane(s, e.id);
        var r := s.flights[e.id];
        UpdatedBacked(g, s.q, r, s.q.heap[r].(status := Running, turnId := Some(e.turn)), e.now, e.t);
      } else if e.EnqueueEnds? {
        assert Sane(s, e.id);
        EndedBacked(g, s.q, s.flights[e.id], e.end, e.now, e.t1, e.t2);
      } else if e.PassSees? {
        SeenBacked(g, s, e);
      } else if e.Crash? {
        ReloadedBacked(g, Queue(map[], map[], s.q.disk, false, s.q.epoch));
      }
    }
  }

  lemma SeenBacked(g: set<Ground>, s: Sys, e: Event)
    requires Reached(s) && AllBacked(g, s.q) && Enabled(s, e) && e.PassSees? && GroundsOf(s, e) <= g
    ensures AllBacked(g, Next(s, e).q)
  {
    PassWrites(s, e);
    if Next(s, e).q != s.q {
      ObservedBacked(g, s.q.heap[e.r], e.r, e.evidence);
      UpdatedBacked(g, s.q, e.r, Observed(s.q.heap[e.r], e.evidence), e.now, e.t);
    }
  }

  lemma ObservedBacked(g: set<Ground>, was: Receipt, r: Ref, e: Evidence)
    requires Backed(g, r.id, was)
    requires e.InQueue? && e.item.Some? ==> ItemReported(r.id, e.item.value) in g
    requires e.InHistory? ==> TurnReported(r.id, e.turn) in g
    requires e.InHistory? && e.found.Finished? ==> SeenFinished(r.id, e.turn) in g
    ensures Backed(g, r.id, Observed(was, e))
  {
  }

  lemma RewrittenBacked(g: set<Ground>, s: Sys, e: Event)
    requires Enabled(s, e) && Rewrites(e) && Backed(g, e.r.id, s.q.heap[e.r]) && GroundsOf(s, e) <= g
    ensures Backed(g, e.r.id, Rewritten(s.q.heap[e.r], e))
  {
  }

  lemma {:induction false} EveryReceiptBacked(events: seq<Event>)
    ensures AllBacked(Grounds(events), After(EMPTY, events).q)
  {
    if events != [] {
      var before := events[..|events| - 1];
      EveryReceiptBacked(before);
      AddedAtMostOnce(before, Id("", "", "", ""));
      BackedByMore(Grounds(before), Grounds(events), After(EMPTY, before).q);
      StepBacked(Grounds(events), After(EMPTY, before), events[|events| - 1]);
    }
  }

  /** Over all runs a receipt, in memory or on disk, claims only what was learnt about
      its own id.  It is `completed` only if an execution of it ended or a pass saw the
      very turn it names finished; its turn and its queued item were reported for it; it
      is `delivered` only if its result was; it is `cancelled` or `rejected` only if a
      cancellation ran or the owner refused it; and `running` and `queued` name a turn
      and an item. */
  lemma CompletedIsBacked(events: seq<Event>, ref: Ref, r: Receipt)
    requires var q := After(EMPTY, events).q;
      (ref in q.heap && q.heap[ref] == r) || (ref.id in q.disk && q.disk[ref.id] == r)
    ensures r.status.Completed? ==>
      ExecutionEnded(ref.id) in Grounds(events)
        || (r.turnId.Some? && SeenFinished(ref.id, r.turnId.value) in Grounds(events))
    ensures r.turnId.Some? ==> TurnReported(ref.id, r.turnId.value) in Grounds(events)
    ensures r.queuedId.Some? ==> ItemReported(ref.id, r.queuedId.value) in Grounds(events)
    ensures r.delivered ==> ResultDelivered(ref.id) in Grounds(events)
    ensures r.status.Cancelled? ==> CancelRan(ref.id) in Grounds(events)
    ensures r.status.Rejected? ==> AddRefused(ref.id) in Grounds(events)
    ensures (r.status.Running? ==> r.turnId.Some?) && (r.status.Queued? || r.status.Starting? ==> r.queuedId.Some?)
  {
    EveryReceiptBacked(events);
    assert AllBacked(Grounds(events), After(EMPTY, events).q);
  }

  /** What an observation says about a receipt: `running` if and only if the turn is in
      progress, `completed` if and only if it is finished, each with the turn that was
      found; `queued` with the item if it is in the queue; absence from both and an
      unconfirmed turn leave it uncertain; a failed look only notes that it failed. */
  predicate Records(was: Receipt, e: Evidence, now: Receipt) {
    && now.lane == was.lane && now.delivered == was.delivered && now.deliveryUnconfirmed == was.deliveryUnconfirmed
    && match e
       case InQueue(None) => now == was.(updatedAt := now.updatedAt)
       case InQueue(Some(item)) =>
         && now.status.Queued? && now.queuedId == Some(item) && now.turnId == was.turnId
         && now.reason.None? && now.verified == was.verified
       case InHistory(turn, found) =>
         && now.turnId == Some(turn) && now.queuedId == was.queuedId
         && (now.status.Running? <==> found.InProgress?) && (now.status.Completed? <==> found.Finished?)
         && (now.status.Uncertain? <==> found.Unconfirmed?)
         && (if found.Unconfirmed? then now.reason == Some(Located) && now.verified == was.verified
             else now.reason.None? && now.verified)
       case Nowhere =>
         && now.status.Uncertain? && now.turnId == was.turnId && now.queuedId == was.queuedId
         && now.reason == Some(Absent) && now.verified == was.verified
       case Failure =>
         && now.status == was.status && now.turnId == was.turnId && now.queuedId == was.queuedId
         && now.verified == was.verified
         && now.reason == if was.delivered then was.reason else Some(Unreadable)
  }

  lemma ObservedRecords(was: Receipt, e: Evidence, now: nat)
    ensures Records(was, e, Observed(was, e)) && Records(was, e, Observed(was, e).(updatedAt := now))
  {
  }

  /** An observation of a receipt that nobody else had changed, once saved, is what
      memory and file say about it. */
  lemma SeenIsRecorded(s: Sys, e: Event)
    requires Reached(s) && Enabled(s, e) && e.PassSees? && e.r in s.q.heap && s.q.Stands(e.r) && !s.q.stuck
    requires s.q.heap[e.r] == s.passes[e.pass].versions[e.r] && e.t.write.Returned()
    ensures var q := Next(s, e).q;
      && e.r in q.heap && e.r.id in q.disk && q.disk[e.r.id] == q.heap[e.r]
      && Records(s.q.heap[e.r], e.evidence, q.heap[e.r])
  {
    SavedWrites(s.q, e.r, Observed(s.q.heap[e.r], e.evidence), e.now, e.t);
    ObservedRecords(s.q.heap[e.r], e.evidence, e.now);
    PassWrites(s, e);
  }

  lemma PassWrites(s: Sys, e: Event)
    requires Enabled(s, e) && e.PassSees?
    ensures Next(s, e).q == s.q
      || (e.r in s.q.heap && Next(s, e).q == Updated(s.q, e.r, Observed(s.q.heap[e.r], e.evidence), e.now, e.t).q)
    ensures e.r in s.q.heap && s.q.heap[e.r] == s.passes[e.pass].versions[e.r] && e.evidence != InQueue(None) ==>
      Next(s, e).q == Updated(s.q, e.r, Observed(s.q.heap[e.r], e.evidence), e.now, e.t).q
    ensures e.evidence == InQueue(None) ==> Next(s, e).q == s.q
  {
  }

  /** The course of a pass: a receipt is looked up in the queue once, in the history only when
      it was not there, and is decided then; a pass that is broken off may only note that
      it failed. */
  lemma PassOrder(s: Sys, e: Event)
    requires e.PassSees? && e.pass in s.passes
    requires e.r in s.passes[e.pass].versions && e.r in s.passes[e.pass].looks
    ensures
      var p := s.passes[e.pass];
      && (p.failed ==> (Enabled(s, e) <==> e.evidence.Failure?))
      && (!p.failed && p.looks[e.r].Unlooked? ==> (Enabled(s, e) <==> e.evidence.InQueue?))
      && (!p.failed && p.looks[e.r].Missing? ==> (Enabled(s, e) <==> e.evidence.InHistory? || e.evidence.Nowhere?))
      && (!p.failed && p.looks[e.r].Decided? ==> !Enabled(s, e))
  {
  }

  /** A pass passes over what a dispatch is running, and a pass that breaks off is failed from
      then on. */
  lemma PassEnds(s: Sys, pass: nat, r: Ref)
    ensures
      var n := Next(s, PassSkips(pass, r));
      var skips := pass in s.passes && r in s.passes[pass].versions && r in s.passes[pass].looks
        && !s.passes[pass].failed && s.passes[pass].looks[r].Unlooked? && r in s.q.heap
        && s.q.heap[r].lane in s.dispatching && (s.q.heap[r].status.Starting? || s.q.heap[r].status.Running?);
      && n.q == s.q && (!skips ==> n == s)
      && (skips ==> n.passes[pass].looks == s.passes[pass].looks[r := Decided] && !n.passes[pass].failed
                    && n.passes[pass].versions == s.passes[pass].versions)
    ensures pass in s.passes ==>
      var n := Next(s, PassBreaks(pass)); n.q == s.q && n.passes[pass].failed && n.passes - {pass} == s.passes - {pass}
  {
  }

  /** A dispatch enters a lane unless the journal is locked, and leaves no other. */
  lemma LaneMeans(s: Sys, lane: Lane)
    ensures
      var n := Next(s, DispatchEnters(lane)).dispatching;
      n == if s.q.stuck then s.dispatching else s.dispatching + {lane}
    ensures Next(s, DispatchLeaves(lane)).dispatching == s.dispatching - {lane}
  {
  }

  /** A look moves the pass on, and what it wrote is what the pass knows from then on. */
  lemma PassProceeds(s: Sys, e: Event)
    requires Reached(s) && e.PassSees? && Enabled(s, e) && e.r in s.q.heap && !s.q.stuck && s.q.Stands(e.r)
    requires e.t.write.Committed? || e.evidence == InQueue(None)
    ensures
      var (p, n) := (s.passes[e.pass], Next(s, e).passes[e.pass]);
      && n.failed == p.failed
      && n.looks == (if e.evidence.Failure? then p.looks
                     else p.looks[e.r := if e.evidence == InQueue(None) then Missing else Decided])
      && (e.evidence != InQueue(None) && s.q.heap[e.r] == p.versions[e.r] ==>
            n.versions == p.versions[e.r := Next(s, e).q.heap[e.r]])
  {
    if e.t.write.Returned() { SavedWrites(s.q, e.r, Observed(s.q.heap[e.r], e.evidence), e.now, e.t); }
  }

  /** A pass over a receipt that is unsettled and that nobody else touches finds out what
      there is to find, and records it: in the queue, or, when it is not there, in the
      history or nowhere. */
  lemma PassFinds(s: Sys, begun: Sys, looked: Sys, ended: Sys, pass: nat, r: Ref, found: Evidence, now: nat, t: Try)
    requires Reached(s) && pass !in s.passes && !s.q.stuck && s.q.Stands(r) && t.write.Committed?
    requires !s.q.heap[r].status.Completed? && !s.q.heap[r].status.Cancelled? && !s.q.heap[r].status.Rejected?
    requires !found.Failure? && found != InQueue(None) && begun == Next(s, PassBegins(pass, {r}))
    requires looked == if found.InQueue? then begun else Next(begun, PassSees(pass, r, InQueue(None), now, t))
    requires ended == Next(looked, PassSees(pass, r, found, now, t))
    ensures r in ended.q.heap && r.id in ended.q.disk && ended.q.disk[r.id] == ended.q.heap[r]
    ensures Records(s.q.heap[r], found, ended.q.heap[r])
  {
    PassStarts(s, begun, pass, r);
    StepReached(s, PassBegins(pass, {r}));
    if !found.InQueue? {
      PassMisses(begun, looked, pass, r, now, t);
      StepReached(begun, PassSees(pass, r, InQueue(None), now, t));
    }
    SeenIsRecorded(looked, PassSees(pass, r, found, now, t));
  }

  lemma PassStarts(s: Sys, n: Sys, pass: nat, r: Ref)
    requires Reached(s) && pass !in s.passes && !s.q.stuck && s.q.Stands(r) && s.q.heap[r].status.Unsettled()
    requires n == Next(s, PassBegins(pass, {r}))
    ensures n.q == s.q && pass in n.passes
    ensures n.passes[pass] == Pass(map[r := s.q.heap[r]], map[r := Unlooked], false)
  {
  }

  lemma PassMisses(s: Sys, n: Sys, pass: nat, r: Ref, now: nat, t: Try)
    requires pass in s.passes && r in s.q.heap
    requires s.passes[pass] == Pass(map[r := s.q.heap[r]], map[r := Unlooked], false)
    requires n == Next(s, PassSees(pass, r, InQueue(None), now, t))
    ensures n.q == s.q && pass in n.passes
    ensures n.passes[pass] == Pass(map[r := s.q.heap[r]], map[r := Missing], false)
  {
  }

  /** A dispatch of the receipt's lane is under way, and its object stands. */
  ghost predicate Ready(s: Sys, r: Ref) {
    Reached(s) && !s.q.stuck && s.q.Stands(r) && r in s.q.heap && s.q.heap[r].lane in s.dispatching
  }

  /** As long as a dispatch of its lane is under way, each of its steps on a receipt that
      stands is possible and, once saved, is what memory and file say. */
  lemma DispatchWrites(s: Sys, n: Sys, r: Ref, e: Event)
    requires Ready(s, r) && Rewrites(e) && e.r == r && e.t.write.Committed? && n == Next(s, e)
    ensures Ready(n, r) && Rewrote(s.q.heap[r], e, n.q.heap[r]) && r.id in n.q.disk && n.q.disk[r.id] == n.q.heap[r]
  {
    RewriteIsRecorded(s, e);
    StepReached(s, e);
    StillStands(s, n, r, e);
  }

  lemma StillStands(s: Sys, n: Sys, r: Ref, e: Event)
    requires Ready(s, r) && Rewrites(e) && e.r == r && e.t.write.Committed? && n == Next(s, e)
    ensures !n.q.stuck && n.q.Stands(r) && n.dispatching == s.dispatching
  {
    UpdatedMoves(s.q, r, Rewritten(s.q.heap[r], e), e.now, e.t);
    UpdateMeans(s.q, r, Rewritten(s.q.heap[r], e), e.now, e.t);
  }

  /** How an update ends: it throws for a locked journal, a replaced object and a save that
      did not return; one that changes nothing writes nothing; one whose write replaced
      the file has put exactly its receipt there; and the journal locks exactly when a
      write failed and the file cannot be read. */
  lemma UpdateMeans(q: Queue, r: Ref, to: Receipt, now: nat, t: Try)
    requires Sound(q)
    ensures
      var u := Updated(q, r, to, now, t);
      && (q.stuck || !q.Stands(r) ==> u.threw && u.q == q)
      && (!q.stuck && q.Stands(r) && to == q.heap[r] ==> !u.threw && u.q == q)
      && (!q.stuck && q.Stands(r) && to != q.heap[r] ==>
            && (u.threw <==> !t.write.Committed?) && (u.q.stuck <==> !t.write.Committed? && !t.readable)
            && u.q.disk == if t.write.LostBeforeRename? then q.disk else q.disk[r.id := to.(updatedAt := now)])
  {
    if !q.stuck && q.Stands(r) && to != q.heap[r] {
      var edited := q.(heap := q.heap[r := to.(updatedAt := now)]);
      assert Edited(q, edited, r);
      ValuesMove(q, edited, r);
      assert Values(edited) == q.disk[r.id := to.(updatedAt := now)];
    }
  }

  /** What `dispatch` and `cancel` make of a receipt: a queued one starts; a started one runs
      in its turn; an execution that ended completes it, delivered or verified; a busy
      thread puts a start without a turn back in the queue; a dispatch that failed leaves
      an undelivered start or run uncertain; a cancellation cancels. */
  predicate Rewrote(was: Receipt, e: Event, now: Receipt) {
    && now.lane == was.lane && now.queuedId == was.queuedId
    && now.turnId == (if e.Started? then Some(e.turn) else was.turnId)
    && match e
       case Starts(_, _, _) =>
         && now.status == (if was.status.Queued? then Status.Starting else was.status)
         && now.delivered == was.delivered && now.verified == was.verified && now.reason == was.reason
         && now.deliveryUnconfirmed == was.deliveryUnconfirmed
       case Started(_, _, _, _) =>
         && now.status.Running? && now.delivered == was.delivered && now.verified == was.verified
         && now.reason == was.reason && now.deliveryUnconfirmed == was.deliveryUnconfirmed
       case Executed(_, delivered, _, _) =>
         && now.status.Completed? && now.reason.None? && now.deliveryUnconfirmed == was.deliveryUnconfirmed
         && (now.delivered <==> was.delivered || delivered) && (now.verified <==> was.verified || !delivered)
       case Busy(_, _, _) =>
         var waits := was.status.Starting? && (was.turnId.None? || was.turnId.value == "");
         && now.status == (if waits then Queued else was.status) && now.reason == (if waits then None else was.reason)
         && now.delivered == was.delivered && now.verified == was.verified
         && now.deliveryUnconfirmed == was.deliveryUnconfirmed
       case Abandoned(_, _, _) =>
         var lost := (was.status.Starting? || was.status.Running?) && !was.delivered;
         && now.status == (if lost then Uncertain else was.status)
         && now.reason == (if lost then Some(Undelivered) else was.reason)
         && (now.deliveryUnconfirmed <==> was.deliveryUnconfirmed || (lost && Truthy(was.turnId)))
         && now.delivered == was.delivered && now.verified == was.verified
       case Cancels(_, _, _) =>
         && now.status.Cancelled? && now.reason.None? && now.delivered == was.delivered
         && now.verified == was.verified && now.deliveryUnconfirmed == was.deliveryUnconfirmed
       case _ => now == was
  }

  lemma RewrittenWrote(was: Receipt, e: Event, now: nat)
    requires Rewrites(e)
    ensures Rewrote(was, e, Rewritten(was, e)) && Rewrote(was, e, Rewritten(was, e).(updatedAt := now))
  {
  }

  /** Such a step on the object that stands for its id, once saved, is what memory and file
      say; an object that was replaced, or a journal that is locked, is left alone. */
  lemma RewriteIsRecorded(s: Sys, e: Event)
    requires Reached(s) && Enabled(s, e) && Rewrites(e)
    ensures s.q.stuck || !s.q.Stands(e.r) ==> Next(s, e).q == s.q
    ensures !s.q.stuck && s.q.Stands(e.r) && e.t.write.Committed? ==>
      var q := Next(s, e).q;
      && e.r in q.heap && e.r.id in q.disk && q.disk[e.r.id] == q.heap[e.r]
      && Rewrote(s.q.heap[e.r], e, q.heap[e.r])
  {
    var to := Rewritten(s.q.heap[e.r], e);
    RewritesUpdate(s, e);
    RewrittenWrote(s.q.heap[e.r], e, e.now);
    if !s.q.stuck && s.q.Stands(e.r) && e.t.write.Returned() { SavedWrites(s.q, e.r, to, e.now, e.t); }
  }

  lemma RewritesUpdate(s: Sys, e: Event)
    requires Enabled(s, e) && Rewrites(e)
    ensures e.r in s.q.heap && Next(s, e).q == Updated(s.q, e.r, Rewritten(s.q.heap[e.r], e), e.now, e.t).q
  {
  }

  /** Exactly when an attempt is made: the journal is not locked, its source is current,
      nothing but a rejected receipt of the same lane stands for the id, and the intent
      was saved.  Then a new object stands for the id, `submitting` on file. */
  lemma AttemptIff(s: Sys, id: Id, lane: Lane, current: bool, now: nat, t: Try)
    requires Reached(s)
    ensures
      var n := Next(s, Enqueue(id, lane, current, now, t));
      var intent := Receipt(lane, Submitting, None, None, false, false, false, None, now);
      var free := id in s.q.disk ==> s.q.disk[id].lane == lane && s.q.disk[id].status.Rejected?;
      if !s.q.stuck && current && free && t.write.Committed? then
        && n.Standing(id) == s.Standing(id) + 1 && id in n.flights
        && n.q.Stands(n.flights[id]) && n.flights[id] !in s.q.heap
        && n.flights[id] in n.q.heap && n.q.heap[n.flights[id]] == intent
        && id in n.q.disk && n.q.disk[id] == intent
      else
        && n.standing == s.standing && n.flights == s.flights
        && (s.q.stuck || !current || !free ==> n == s)
        && (!s.q.stuck && current && free ==>
              && n.q.disk == (if t.write.LostBeforeRename? then s.q.disk else s.q.disk[id := intent])
              && (n.q.stuck <==> !t.readable))
  {
    if Admits(s.q, id, lane) && current {
      IntentLands(s.q, id, lane, now, t);
    }
  }

  lemma IntentLands(q: Queue, id: Id, lane: Lane, now: nat, t: Try)
    requires Sound(q) && !q.stuck
    ensures
      var (n, r, intent) := (Intended(q, id, lane, now, t), Ref(id, q.epoch),
                             Receipt(lane, Submitting, None, None, false, false, false, None, now));
      && (n.threw <==> !t.write.Committed?) && (n.q.stuck <==> !t.write.Committed? && !t.readable)
      && n.q.disk == (if t.write.LostBeforeRename? then q.disk else q.disk[id := intent])
      && r !in q.heap && (t.write.Committed? ==> r in n.q.heap && n.q.heap[r] == intent && n.q.Stands(r))
  {
    IntendedMoves(q, id, lane, now, t);
    IntentEdits(q, id, lane, now);
    ValuesMove(q, WithIntent(q, id, lane, now), Ref(id, q.epoch));
    assert Values(WithIntent(q, id, lane, now))
      == q.disk[id := Receipt(lane, Submitting, None, None, false, false, false, None, now)];
  }

  /** What the end of an attempt leaves of its receipt when the journal is in order and the
      saves return.  A turn that was accepted meanwhile outranks any error.  Otherwise an
      item is queued under its id, an error that nothing was submitted removes the
      receipt, a refusal rejects it, and anything else leaves it uncertain. */
  lemma EndIsRecorded(s: Sys, id: Id, end: End, now: nat, t1: Try, t2: Try)
    requires Reached(s) && id in s.flights && !s.q.stuck && t1.write.Committed? && t2.write.Committed?
    ensures s.flights[id] in s.q.heap && s.flights[id].id == id
    ensures
      var n, was := Next(s, EnqueueEnds(id, end, now, t1, t2)), s.q.heap[s.flights[id]];
      var accepted := was.turnId.Some? && was.turnId.value != "";
      var evidence := accepted || (was.status.Queued? && was.queuedId.Some? && was.queuedId.value != "");
      && id !in n.flights
      && match end
         case Item(queueId) =>
           && id in n.q.disk && n.q.disk[id].queuedId == Some(queueId) && n.q.disk[id].turnId == was.turnId
           && n.q.disk[id].status == (if accepted then Running else Queued) && n.q.disk[id].reason.None?
         case NotSubmitted => if evidence then id in n.q.disk && n.q.disk[id] == was else id !in n.q.disk
         case Refused =>
           && id in n.q.disk && (evidence ==> n.q.disk[id] == was)
           && (!evidence ==> n.q.disk[id].status.Rejected? && n.q.disk[id].reason == Some(Refusal))
         case Ambiguous =>
           && id in n.q.disk && (evidence ==> n.q.disk[id] == was)
           && (!evidence ==> n.q.disk[id].status.Uncertain? && n.q.disk[id].reason == Some(Unacknowledged))
  {
    assert Sane(s, id);
    var r := s.flights[id];
    EndWrites(s.q, r, end, now, t1, t2);
  }

  lemma EndWrites(q: Queue, r: Ref, end: End, now: nat, t1: Try, t2: Try)
    requires Sound(q) && !q.stuck && q.Stands(r) && t1.write.Committed? && t2.write.Committed?
    ensures
      var n, was := Ended(q, r, end, now, t1, t2), q.heap[r];
      match end
      case Item(queueId) =>
        && r.id in n.disk && n.disk[r.id].queuedId == Some(queueId) && n.disk[r.id].turnId == was.turnId
        && n.disk[r.id].status == (if Truthy(was.turnId) then Running else Queued) && n.disk[r.id].reason.None?
      case NotSubmitted => if was.Evidence() then r.id in n.disk && n.disk[r.id] == was else r.id !in n.disk
      case Refused =>
        && r.id in n.disk && (was.Evidence() ==> n.disk[r.id] == was)
        && (!was.Evidence() ==> n.disk[r.id].status.Rejected? && n.disk[r.id].reason == Some(Refusal))
      case Ambiguous =>
        && r.id in n.disk && (was.Evidence() ==> n.disk[r.id] == was)
        && (!was.Evidence() ==> n.disk[r.id].status.Uncertain? && n.disk[r.id].reason == Some(Unacknowledged))
  {
    var was := q.heap[r];
    match end
    case Item(queueId) =>
      SavedWrites(q, r, was.(status := if Truthy(was.turnId) then Running else Queued, queuedId := Some(queueId),
                             reason := None), now, t1);
    case NotSubmitted =>
    case Refused => SavedWrites(q, r, was.(status := Rejected, reason := Some(Refusal)), now, t2);
    case Ambiguous => SavedWrites(q, r, was.(status := Uncertain, reason := Some(Unacknowledged)), now, t2);
  }

  /** An accepted turn, once saved, runs under its id. */
  lemma AcceptanceIsRecorded(s: Sys, id: Id, turn: string, now: nat, t: Try)
    requires Reached(s) && id in s.flights && !s.q.stuck && t.write.Committed?
    ensures
      var n := Next(s, OnAccepted(id, turn, now, t));
      && id in n.q.disk && n.q.disk[id].status.Running? && n.q.disk[id].turnId == Some(turn)
      && s.flights[id] in n.q.heap && n.q.heap[s.flights[id]] == n.q.disk[id]
  {
    assert Sane(s, id);
    var r := s.flights[id];
    SavedWrites(s.q, r, s.q.heap[r].(status := Running, turnId := Some(turn)), now, t);
  }

  /** A new process holds exactly what the file says, and nothing else. */
  lemma RestartMeans(s: Sys, id: Id)
    ensures
      var q := Next(s, Crash).q;
      && !q.stuck && q.disk == s.q.disk && (id in q.table <==> id in q.disk)
      && (id in q.disk ==> q.table[id] in q.heap && q.heap[q.table[id]] == q.disk[id])
      && Next(s, Crash).flights == map[] && Next(s, Crash).passes == map[] && Next(s, Crash).dispatching == {}
      && Next(s, Crash).standing == s.standing
  {
    RestartMirrors(s.q);
  }

  /** A saved update leaves the new receipt in memory and on disk. */
  lemma SavedWrites(q: Queue, r: Ref, to: Receipt, now: nat, t: Try)
    requires Sound(q) && !q.stuck && q.Stands(r) && t.write.Returned()
    ensures var u := Updated(q, r, to, now, t);
      && !u.threw && r in q.heap && r in u.q.heap && r.id in u.q.disk && u.q.disk[r.id] == u.q.heap[r]
      && (u.q.heap[r] == if to == q.heap[r] then to else to.(updatedAt := now))
  {
    UpdatedMoves(q, r, to, now, t);
    if to != q.heap[r] { ValuesMove(q, q.(heap := q.heap[r := to.(updatedAt := now)]), r); }
  }

  // ---------------------------------------------------------------- the object

  /** Every saved receipt but those of `rest` is in the object that owns it. */
  ghost predicate Merged(q: Queue, rest: set<Id>, objects: map<Ref, Receipt>, merged: map<Id, Ref>) {
    && rest <= q.disk.Keys
    && (forall id :: id in merged <==> id in q.disk && id !in rest)
    && (forall id :: id in merged ==> merged[id] == Owner(q, id) && merged[id] in objects)
    && (forall r :: r in q.heap ==> r in objects)
    && (forall r :: r in objects ==>
      if Owned(q, r) && r.id !in rest then objects[r] == q.disk[r.id]
      else r in q.heap && objects[r] == q.heap[r])
  }

  lemma MergedIsReread(q: Queue, n: Queue, objects: map<Ref, Receipt>, merged: map<Id, Ref>)
    requires Reread(q, n) && Merged(q, {}, objects, merged)
    ensures n.heap == objects && n.table == merged
  {
    forall r | r in objects ensures r in n.heap && n.heap[r] == objects[r] {
      if Owned(q, r) { assert n.table[r.id] == r; }
    }
    forall r | r in n.heap ensures r in objects {
      if r !in q.heap { assert r.id in merged; }
    }
  }

  lemma MergedIsReloaded(q: Queue, objects: map<Ref, Receipt>, merged: map<Id, Ref>)
    requires Shape(q) && Merged(q, {}, objects, merged)
    ensures Reloaded(q) == q.(heap := objects, table := merged, epoch := q.epoch + 1)
  {
    ReloadReads(q);
    MergedIsReread(q, Reloaded(q), objects, merged);
  }

  lemma MergeOneMore(q: Queue, rest: set<Id>, objects: map<Ref, Receipt>, merged: map<Id, Ref>, id: Id)
    requires Shape(q) && Merged(q, rest, objects, merged) && id in rest
    ensures Merged(q, rest - {id}, objects[Owner(q, id) := q.disk[id]], merged[id := Owner(q, id)])
  {
    var owner := Owner(q, id);
    var objects2 := objects[owner := q.disk[id]];
    assert owner.id == id;
    forall r | r in objects2
      ensures if Owned(q, r) && r.id !in rest - {id} then objects2[r] == q.disk[r.id]
              else r in q.heap && objects2[r] == q.heap[r]
    {
      if r != owner { assert r in objects && (Owned(q, r) ==> r.id != id); }
    }
  }

  class NativeQueueCoordinator {
    var heap: map<Ref, Receipt>
    var table: map<Id, Ref>
    var disk: map<Id, Receipt>
    var stuck: bool
    var epoch: nat

    function Abs(): Queue reads this { Queue(heap, table, disk, stuck, epoch) }

    constructor Load(file: map<Id, Receipt>, epoch: nat)
      ensures Abs() == Restarted(Queue(map[], map[], file, false, epoch)) && Sound(Abs())
    {
      heap, table, disk, stuck, this.epoch := map[], map[], file, false, epoch;
      new;
      Recover();
      RestartMirrors(Queue(map[], map[], file, false, epoch));
    }

    /** The recovery of `save`: the actual file, in the objects callers still hold. */
    method Recover()
      requires Shape(Abs())
      modifies `heap, `table, `epoch
      ensures Abs() == Reloaded(old(Abs()))
    {
      var q := Abs();
      heap, table := Rejoin(q);
      epoch := epoch + 1;
      MergedIsReloaded(q, heap, table);
    }

    static method Rejoin(q: Queue) returns (objects: map<Ref, Receipt>, merged: map<Id, Ref>)
      requires Shape(q)
      ensures Merged(q, {}, objects, merged)
    {
      objects, merged := q.heap, map[];
      var rest := q.disk.Keys;
      while rest != {}
        invariant Merged(q, rest, objects, merged)
        decreases |rest|
      {
        var id :| id in rest;
        MergeOneMore(q, rest, objects, merged, id);
        var r := if id in q.table then q.table[id] else Ref(id, q.epoch);
        objects, merged, rest := objects[r := q.disk[id]], merged[id := r], rest - {id};
      }
    }

    method Save(t: Try) returns (threw: bool)
      requires Shape(Abs())
      modifies this
      ensures Abs() == Saved(old(Abs()), t).q && threw == Saved(old(Abs()), t).threw
    {
      if stuck { return true; }
      disk := FileAfter(disk, Values(Abs()), t.write);
      if t.write.Returned() { return false; }
      if t.readable { Recover(); } else { stuck := true; }
      return true;
    }

    method Update(r: Ref, to: Receipt, now: nat, t: Try) returns (threw: bool)
      requires Sound(Abs())
      modifies this
      ensures Abs() == Updated(old(Abs()), r, to, now, t).q && Sound(Abs())
      ensures threw == Updated(old(Abs()), r, to, now, t).threw
    {
      UpdatedMoves(Abs(), r, to, now, t);
      if stuck || r.id !in table || table[r.id] != r { return true; }
      if to == heap[r] { return false; }
      heap := heap[r := to.(updatedAt := now)];
      threw := Save(t);
    }

    /** `enqueue` up to the native add; `r` is the object its callbacks hold. */
    method Enqueue(id: Id, lane: Lane, current: bool, now: nat, t: Try) returns (r: Option<Ref>)
      requires Sound(Abs())
      modifies this
      ensures Sound(Abs())
      ensures Abs() == if Admits(old(Abs()), id, lane) && current
                       then Intended(old(Abs()), id, lane, now, t).q else old(Abs())
      ensures r == if Admits(old(Abs()), id, lane) && current && t.write.Returned()
                   then Some(Ref(id, old(epoch))) else None
    {
      if stuck { return None; }
      if id in table {
        var existing := heap[table[id]];
        if existing.lane != lane || !existing.status.Rejected? { return None; }
      }
      if !current { return None; }
      r := Intend(id, lane, now, t);
    }

    method Intend(id: Id, lane: Lane, now: nat, t: Try) returns (r: Option<Ref>)
      requires Sound(Abs()) && !stuck
      modifies this
      ensures Sound(Abs()) && Abs() == Intended(old(Abs()), id, lane, now, t).q
      ensures r == if t.write.Returned() then Some(Ref(id, old(epoch))) else None
    {
      IntendedMoves(Abs(), id, lane, now, t);
      IntentEdits(Abs(), id, lane, now);
      var created := Ref(id, epoch);
      var receipt := Receipt(lane, Submitting, None, None, false, false, false, None, now);
      heap, table, epoch := heap[created := receipt], table[id := created], epoch + 1;
      assert Abs() == WithIntent(old(Abs()), id, lane, now);
      var threw := Save(t);
      r := if threw then None else Some(created);
    }

    method OnAccepted(r: Ref, turn: string, now: nat, t: Try) returns (threw: bool)
      requires Sound(Abs()) && r in heap
      modifies this
      ensures Abs() == Accepted(old(Abs()), r, turn, now, t).q && Sound(Abs())
    {
      threw := Update(r, heap[r].(status := Running, turnId := Some(turn)), now, t);
    }

    /** The rest of `enqueue`, once the native add answered. */
    method EnqueueEnds(r: Ref, end: End, now: nat, t1: Try, t2: Try)
      requires Sound(Abs()) && r in heap && (stuck || Abs().Stands(r))
      modifies this
      ensures Abs() == Ended(old(Abs()), r, end, now, t1, t2) && Sound(Abs())
    {
      EndedMoves(Abs(), r, end, now, t1, t2);
      if end.Item? {
        var was := heap[r];
        UpdatedMoves(Abs(), r, was.(status := if Truthy(was.turnId) then Running else Queued,
                                    queuedId := Some(end.queueId), reason := None), now, t1);
        var threw := Update(r, was.(status := if Truthy(was.turnId) then Running else Queued,
                                    queuedId := Some(end.queueId), reason := None), now, t1);
        if threw { Catch(r, Ambiguous, now, t2); }
      } else {
        Catch(r, end, now, t2);
      }
    }

    method Catch(r: Ref, end: End, now: nat, t: Try)
      requires Sound(Abs()) && r in heap && (stuck || Abs().Stands(r))
      modifies this
      ensures Abs() == Caught(old(Abs()), r, end, now, t) && Sound(Abs())
    {
      CaughtMoves(Abs(), r, end, now, t);
      if stuck || heap[r].Evidence() { return; }
      if end.NotSubmitted? {
        table := table - {r.id};
        var threw := Save(t);
      } else {
        var to := if end.Refused? then heap[r].(status := Rejected, reason := Some(Refusal))
                  else heap[r].(status := Uncertain, reason := Some(Unacknowledged));
        var threw := Update(r, to, now, t);
      }
    }

    /** A pass reports what it saw of one receipt. */
    method Observe(p: Pass, r: Ref, e: Evidence, now: nat, t: Try) returns (next: Pass)
      requires Sound(Abs()) && Due(p, r, e)
      modifies this
      ensures Abs() == Compared(old(Abs()), p, r, e, now, t).0 && Sound(Abs())
      ensures next == Compared(old(Abs()), p, r, e, now, t).1
    {
      next := p;
      if !e.Failure? {
        next := next.(looks := next.looks[r := if e == InQueue(None) then Missing else Decided]);
      }
      if r !in heap || heap[r] != p.versions[r] || e == InQueue(None) { return; }
      UpdatedMoves(Abs(), r, Observed(heap[r], e), now, t);
      var threw := Update(r, Observed(heap[r], e), now, t);
      if threw {
        next := p.(failed := true);
      } else {
        next := next.(versions := next.versions[r := heap[r]]);
      }
    }

    /** The callbacks and the end of `dispatch`, and the end of `cancel`. */
    method Starting(r: Ref, now: nat, t: Try) returns (threw: bool)
      requires Sound(Abs()) && r in heap
      modifies this
      ensures Sound(Abs()) && Abs() == Updated(old(Abs()), r, Rewritten(old(heap)[r], Starts(r, now, t)), now, t).q
      ensures !old(heap)[r].status.Queued? ==> threw && Abs() == old(Abs())
    {
      if !heap[r].status.Queued? { return true; }
      threw := Update(r, heap[r].(status := Status.Starting), now, t);
    }

    method Executed(r: Ref, delivered: bool, now: nat, t: Try) returns (threw: bool)
      requires Sound(Abs()) && r in heap
      modifies this
      ensures Sound(Abs())
      ensures Abs() == Updated(old(Abs()), r, Rewritten(old(heap)[r], Event.Executed(r, delivered, now, t)), now, t).q
    {
      var to := heap[r].(status := Completed, reason := None);
      if delivered { to := to.(delivered := true); } else { to := to.(verified := true); }
      threw := Update(r, to, now, t);
    }

    /** The catch clause of `dispatch` for one receipt of the thread. */
    method Abandon(r: Ref, now: nat, t: Try) returns (threw: bool)
      requires Sound(Abs()) && r in heap
      modifies this
      ensures Sound(Abs()) && Abs() == Updated(old(Abs()), r, Rewritten(old(heap)[r], Abandoned(r, now, t)), now, t).q
    {
      var was := heap[r];
      if !(was.status.Starting? || was.status.Running?) || was.delivered { return false; }
      var to := was.(status := Uncertain, reason := Some(Undelivered));
      if Truthy(was.turnId) { to := to.(deliveryUnconfirmed := true); }
      threw := Update(r, to, now, t);
    }
  }
}
