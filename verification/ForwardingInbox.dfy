/** `ForwardingInbox`: the saved messages of one account and their way to dispatch.

    Each function below is the code of one method between two awaits, over a value
    (`World`: the receipt journal and the inbox).  The class at the end holds the
    rows and performs the same segments in place. */
module ForwardingInbox {
  import opened Common
  import opened ReceiptLog
  import opened InboundReceipts

  /** `place` stands for the fields that only ever matter together: workspace,
      project, mode and roots. */
  datatype Target = Target(sessionId: string, hostId: string, threadId: Option<string>, generation: Option<string>,
    place: string)
  {
    /** What may not change when a first thread is created. */
    function Base(): (string, string, string) { (sessionId, hostId, place) }
  }

  datatype RowState = Pending | Held | Unsure

  /** `stamp` orders the rows of a file; it is not stored by the original, where
      the order of the object's keys plays that part. */
  datatype Row = Row(message: Message, body: string, target: Option<Target>, automatic: bool, ordersInput: bool,
    attempts: nat, nextAt: int, state: RowState, noticed: set<RowState>, stamp: nat)
  {
    function Key(): Key { message.key }
    predicate Ordered() { automatic || ordersInput }
  }

  /** Rows in memory, rows on disk, keys in delivery, the next stamp, and the keys of
      row objects that were read from the file without a target field. */
  datatype Inbox = Inbox(rows: seq<Row>, disk: seq<Row>, busy: set<Key>, clock: nat, bare: set<Key>)

  datatype World = World(journal: Journal, inbox: Inbox)

  // ---------------------------------------------------------------- rows

  function Find(rows: seq<Row>, key: Key): (i: nat)
    ensures i <= |rows|
    ensures i < |rows| ==> rows[i].Key() == key
    ensures forall k :: 0 <= k < i ==> rows[k].Key() != key
  {
    if rows == [] || rows[0].Key() == key then 0 else 1 + Find(rows[1..], key)
  }

  predicate Has(rows: seq<Row>, key: Key) { Find(rows, key) < |rows| }

  function At(rows: seq<Row>, key: Key): Row requires Has(rows, key) { rows[Find(rows, key)] }

  function Put(rows: seq<Row>, row: Row): seq<Row>
    requires Has(rows, row.Key())
  {
    rows[Find(rows, row.Key()) := row]
  }

  function Without(rows: seq<Row>, key: Key): seq<Row>
    requires Has(rows, key)
  {
    rows[..Find(rows, key)] + rows[Find(rows, key) + 1..]
  }

  function Unaimed(rows: seq<Row>): set<Key> { set r | r in rows && r.target.None? :: r.Key() }

  /** What the constructor makes of the file. */
  function Loaded(disk: seq<Row>, clock: nat): Inbox { Inbox(disk, disk, {}, clock, Unaimed(disk)) }

  function Saved(x: Inbox, w: FileWrite): Inbox { x.(disk := FileAfter(x.disk, x.rows, w)) }

  /** `remove`: when saving fails the row comes back, now as the last one. */
  function AfterRemove(x: Inbox, key: Key, w: FileWrite): (y: Inbox)
    ensures y.busy == x.busy
  {
    if !Has(x.rows, key) then x
    else
      var rest := Without(x.rows, key);
      var disk := FileAfter(x.disk, rest, w);
      if w.Returned() then x.(rows := rest, disk := disk)
      else x.(rows := rest + [At(x.rows, key).(stamp := x.clock)], disk := disk, clock := x.clock + 1)
  }

  /** Tell the sender once per state: the mark is saved before the notice is sent.
      The second result says whether the notice is now being awaited. */
  function Informed(x: Inbox, key: Key, w: FileWrite): (r: (Inbox, bool))
    requires Has(x.rows, key)
    ensures r.0.busy == x.busy
  {
    var row := At(x.rows, key);
    if row.state in row.noticed then (x, false)
    else (Saved(x.(rows := Put(x.rows, row.(noticed := row.noticed + {row.state}))), w), w.Returned())
  }

  /** Change a row, save, tell the sender. */
  function Parked(x: Inbox, row: Row, w: FileWrite, w': FileWrite): (r: (Inbox, bool))
    requires Has(x.rows, row.Key())
    ensures r.0.busy == x.busy
  {
    var changed := Saved(x.(rows := Put(x.rows, row)), w);
    FindAfterPut(x.rows, row);
    if w.Returned() then Informed(changed, row.Key(), w') else (changed, false)
  }

  lemma FindAfterPut(rows: seq<Row>, row: Row)
    requires Has(rows, row.Key())
    ensures forall key :: Find(Put(rows, row), key) == Find(rows, key)
    ensures forall key :: Has(rows, key) ==> At(Put(rows, row), key) == if key == row.Key() then row else At(rows, key)
  {
    var put := Put(rows, row);
    forall key ensures Find(put, key) == Find(rows, key) {
      assert forall i :: 0 <= i < |rows| ==> put[i].Key() == rows[i].Key();
      FindUnique(put, rows, key);
    }
  }

  lemma FindUnique(a: seq<Row>, b: seq<Row>, key: Key)
    requires |a| == |b| && forall i :: 0 <= i < |a| ==> a[i].Key() == b[i].Key()
    ensures Find(a, key) == Find(b, key)
  {
    var i, k := Find(a, key), Find(b, key);
    assert i < |a| ==> a[i].Key() == b[i].Key();
    assert k < |a| ==> a[k].Key() == b[k].Key();
  }

  // ---------------------------------------------------------------- taking in

  datatype Fresh = Fresh(body: string, target: Option<Target>, automatic: bool, ordersInput: bool, now: int)

  predicate SameMessage(row: Row, m: Message, body: string) { row.message == m && row.body == body }

  /** `stage`: keep an equal saved message, refuse a different one under the same
      id, save a new one.  The second result is false when it throws. */
  function Staged(x: Inbox, m: Message, f: Fresh, w: FileWrite): (r: (Inbox, bool))
    ensures r.0.busy == x.busy
  {
    if Has(x.rows, m.key) then (x, SameMessage(At(x.rows, m.key), m, f.body))
    else
      var row := Row(m, f.body, f.target, f.automatic, f.ordersInput, 0, f.now, Pending, {}, x.clock);
      var tried := Saved(x.(rows := x.rows + [row], clock := x.clock + 1, bare := x.bare - {m.key}), w);
      if w.Returned() then (tried, true) else (tried.(rows := x.rows), false)
  }

  /** `claim`: durable receipt first, then the durable row. */
  function Claimed(s: World, m: Message, f: Fresh, o: SaveOutcome, w: FileWrite): (World, Reply) {
    if !Claimable(s.journal, m) then (s, Reply.Returned(false))
    else
      var j := AfterClaim(s.journal, m, o);
      if !o.Returned() then (World(j, s.inbox), Threw)
      else
        var (x, ok) := Staged(s.inbox, m, f, w);
        if ok then (World(j, x), Reply.Returned(true)) else (World(AfterRelease(j, m.key), x), Threw)
  }

  // ---------------------------------------------------------------- delivery

  predicate Done(p: Phase) { p.Accepted? || p.Handled? }

  function PhaseOf(j: Journal, key: Key): Phase {
    if key in j.mem then j.mem[key].phase else Received
  }

  predicate SameLane(a: Row, b: Row) { a.message.Conversation() == b.message.Conversation() && a.target == b.target }

  /** An earlier row that still has its turn: in delivery, or waiting for it. */
  predicate Barrier(s: World, row: Row) {
    && row.Ordered() && !Done(PhaseOf(s.journal, row.Key()))
    && (row.Key() in s.inbox.busy || (row.state.Pending? && PhaseOf(s.journal, row.Key()).Received?))
  }

  predicate Preceded(s: World, key: Key)
    requires Has(s.inbox.rows, key)
  {
    var here := Find(s.inbox.rows, key);
    exists i :: 0 <= i < here && SameLane(s.inbox.rows[i], s.inbox.rows[here]) && Barrier(s, s.inbox.rows[i])
  }

  datatype Turn = Housekeep | Unconfirmable | Idle | HoldReplay | HoldTarget | WaitLane | WaitGateway | Dispatch

  /** The ladder of checks in `deliver`. */
  function Decide(s: World, key: Key, initial: bool, current: Option<Target>, canDispatch: bool): Turn
    requires Has(s.inbox.rows, key)
  {
    var row, phase := At(s.inbox.rows, key), PhaseOf(s.journal, key);
    if Done(phase) then Housekeep
    else if phase.Submitting? || phase.Unconfirmed? then Unconfirmable
    else if !row.state.Pending? then Idle
    else if !initial && !row.automatic && row.attempts > 0 then HoldReplay
    else if row.target != current then HoldTarget
    else if row.Ordered() && Preceded(s, key) then WaitLane
    else if !canDispatch then WaitGateway
    else Dispatch
  }

  /** The answer of the ladder in terms of what is stored: the row's own fields and
      receipt, and whether an earlier row of the same conversation and target has its
      turn before it, because it is in delivery or pending with an untouched receipt.
      The eight conditions exclude each other, so each holds if and only if its answer
      is given. */
  lemma WhichTurn(s: World, here: nat, initial: bool, current: Option<Target>, canDispatch: bool)
    requires here < |s.inbox.rows| && Find(s.inbox.rows, s.inbox.rows[here].message.key) == here
    ensures
      var (rows, mem, busy) := (s.inbox.rows, s.journal.mem, s.inbox.busy);
      var row := rows[here];
      var key := row.message.key;
      var untouched := key in mem ==> mem[key].phase.Received?;
      var replay := !initial && !row.automatic && row.attempts > 0;
      match Decide(s, key, initial, current, canDispatch)
      case Housekeep => key in mem && (mem[key].phase.Accepted? || mem[key].phase.Handled?)
      case Unconfirmable => key in mem && (mem[key].phase.Submitting? || mem[key].phase.Unconfirmed?)
      case Idle => untouched && !row.state.Pending?
      case HoldReplay => untouched && row.state.Pending? && replay
      case HoldTarget => untouched && row.state.Pending? && !replay && row.target != current
      case WaitLane =>
        && untouched && row.state.Pending? && !replay && row.target == current && (row.automatic || row.ordersInput)
        && exists i ::
             && 0 <= i < here && rows[i].message.Conversation() == row.message.Conversation()
             && rows[i].target == row.target && (rows[i].automatic || rows[i].ordersInput)
             && (rows[i].message.key in mem ==>
                   !mem[rows[i].message.key].phase.Accepted? && !mem[rows[i].message.key].phase.Handled?)
             && (rows[i].message.key in busy
                 || (rows[i].state.Pending?
                     && (rows[i].message.key in mem ==> mem[rows[i].message.key].phase.Received?)))
      case turn =>
        && untouched && row.state.Pending? && !replay && row.target == current
        && (turn.Dispatch? <==> canDispatch)
        && (row.automatic || row.ordersInput ==>
              forall i ::
                && 0 <= i < here && rows[i].message.Conversation() == row.message.Conversation()
                && rows[i].target == row.target && (rows[i].automatic || rows[i].ordersInput)
                && (rows[i].message.key in mem ==>
                      !mem[rows[i].message.key].phase.Accepted? && !mem[rows[i].message.key].phase.Handled?)
                ==> rows[i].message.key !in busy
                    && (rows[i].state.Pending? ==>
                          rows[i].message.key in mem && !mem[rows[i].message.key].phase.Received?))
  {
    var rows := s.inbox.rows;
    var key := rows[here].message.key;
    if Preceded(s, key) {
      var i :| 0 <= i < here && SameLane(rows[i], rows[here]) && Barrier(s, rows[i]);
      assert rows[i].Key() == rows[i].message.key;
    } else {
      forall i | 0 <= i < here ensures !(SameLane(rows[i], rows[here]) && Barrier(s, rows[i])) { }
    }
  }

  /** Where a delivery segment stops: settled, waiting for a notice to be sent, or
      inside `handle`. */
  datatype Stop = Settled | Noticing | Flying

  /** Everything `deliver` reads from outside. */
  datatype Weather = Weather(now: int, delay: nat, current: Option<Target>, canDispatch: bool, deferred: bool,
    claim: SaveOutcome, w: FileWrite, w': FileWrite, w'': FileWrite)

  predicate RetryLater(f: Failure) { f.Deferred? || f.RunAdmission? || f == Communication(NotSubmitted) }

  /** The catch clause around `dispatch`. */
  function AfterFailure(s: World, key: Key, f: Failure, e: Weather, w: FileWrite, w': FileWrite): (r: (World, Stop))
    requires Has(s.inbox.rows, key)
    ensures r.0.journal == s.journal && r.0.inbox.busy == s.inbox.busy && !r.1.Flying?
  {
    var row, phase := At(s.inbox.rows, key), PhaseOf(s.journal, key);
    if Done(phase) then (s.(inbox := AfterRemove(s.inbox, key, w)), Settled)
    else if phase.Received? && row.automatic && RetryLater(f) then Postponed(s, key, e, w, w')
    else (s.(inbox := Marked(s.inbox, key, if phase.Received? then Held else Unsure, w)), Settled)
  }

  function Postponed(s: World, key: Key, e: Weather, w: FileWrite, w': FileWrite): (World, Stop)
    requires Has(s.inbox.rows, key)
  {
    var (x, waits) := Parked(s.inbox, At(s.inbox.rows, key).(nextAt := e.now + e.delay), w, w');
    (s.(inbox := x), if waits then Noticing else Settled)
  }

  function Marked(x: Inbox, key: Key, state: RowState, w: FileWrite): Inbox
    requires Has(x.rows, key)
  {
    Saved(x.(rows := Put(x.rows, At(x.rows, key).(state := state))), w)
  }

  /** `deliver` from its start to its first await. */
  function Delivered(s: World, key: Key, initial: bool, e: Weather): (World, Stop) {
    if key in s.inbox.busy || !Has(s.inbox.rows, key) then (s, Settled)
    else Turned(s, key, Decide(s, key, initial, e.current, e.canDispatch), e)
  }

  function Turned(s: World, key: Key, turn: Turn, e: Weather): (World, Stop)
    requires Has(s.inbox.rows, key)
  {
    match turn
    case Housekeep => (s.(inbox := AfterRemove(s.inbox, key, e.w)), Settled)
    case Idle => (s, Settled)
    case Dispatch => Launched(s, key, e)
    case _ =>
      var (x, waits) := Parked(s.inbox, Restated(At(s.inbox.rows, key), turn, e), e.w, e.w');
      (s.(inbox := x), if waits then Noticing else Settled)
  }

  /** The row as a delivery that does not dispatch leaves it. */
  function Restated(row: Row, turn: Turn, e: Weather): (r: Row)
    ensures r.Key() == row.Key()
  {
    match turn
    case Unconfirmable => row.(state := Unsure)
    case HoldReplay | HoldTarget => row.(state := Held)
    case _ => row.(nextAt := e.now + e.delay)
  }

  function Launched(s: World, key: Key, e: Weather): (r: (World, Stop))
    requires Has(s.inbox.rows, key)
    ensures r.0.inbox.busy == s.inbox.busy
    ensures r.0.journal == if !e.w.Returned() || e.deferred then s.journal
                           else EnterHandle(s.journal, At(s.inbox.rows, key).message, e.claim).1
    ensures r.1.Flying? <==> e.w.Returned() && !e.deferred
                             && EnterHandle(s.journal, At(s.inbox.rows, key).message, e.claim).0.Running?
  {
    var row := At(s.inbox.rows, key);
    FindAfterPut(s.inbox.rows, row.(attempts := row.attempts + 1));
    var tried := Attempted(s.inbox, row, e.w);
    if !e.w.Returned() then (s.(inbox := tried), Settled)
    else Handed(s.(inbox := tried), key, e)
  }

  /** The synchronous part of `dispatch`: a channel that is switching defers it,
      otherwise `handle` is entered. */
  function Handed(s: World, key: Key, e: Weather): (r: (World, Stop))
    requires Has(s.inbox.rows, key)
    ensures r.0.inbox.busy == s.inbox.busy
    ensures r.0.journal == if e.deferred then s.journal
      else EnterHandle(s.journal, At(s.inbox.rows, key).message, e.claim).1
    ensures r.1.Flying? <==> !e.deferred && EnterHandle(s.journal, At(s.inbox.rows, key).message, e.claim).0.Running?
  {
    if e.deferred then AfterFailure(s, key, Deferred, e, e.w', e.w'')
    else
      var (entered, j) := EnterHandle(s.journal, At(s.inbox.rows, key).message, e.claim);
      match entered
      case Running => (s.(journal := j), Flying)
      case Refused => AfterFailure(s.(journal := j), key, Other, e, e.w', e.w'')
      case Skipped => Completed(s.(journal := j), key, e, e.w', e.w'')
  }

  /** `attempts++` and its save. */
  function Attempted(x: Inbox, row: Row, w: FileWrite): (x': Inbox)
    requires Has(x.rows, row.Key())
    ensures Has(x'.rows, row.Key())
  {
    FindAfterPut(x.rows, row.(attempts := row.attempts + 1));
    Saved(x.(rows := Put(x.rows, row.(attempts := row.attempts + 1))), w)
  }

  /** `dispatch` returned: the row is removed; a failing removal is a failure. */
  function Completed(s: World, key: Key, e: Weather, w: FileWrite, w': FileWrite): (r: (World, Stop))
    requires Has(s.inbox.rows, key)
    ensures r.0.journal == s.journal && r.0.inbox.busy == s.inbox.busy && !r.1.Flying?
  {
    var removed := s.(inbox := AfterRemove(s.inbox, key, w));
    if w.Returned() then (removed, Settled)
    else
      RemovedComesBack(s.inbox, key, w);
      AfterFailure(removed, key, Other, e, w', LostBeforeRename)
  }

  lemma RemovedComesBack(x: Inbox, key: Key, w: FileWrite)
    requires Has(x.rows, key) && !w.Returned()
    ensures Has(AfterRemove(x, key, w).rows, key)
  {
    var after := AfterRemove(x, key, w).rows;
    assert after[|after| - 1].Key() == key;
  }

  /** `deliver` after `dispatch` settled. */
  function Landed(s: World, key: Key, failed: Option<Failure>, e: Weather): (r: (World, Stop))
    ensures r.0.journal == s.journal && r.0.inbox.busy == s.inbox.busy && !r.1.Flying?
  {
    if !Has(s.inbox.rows, key) then (s, Settled)
    else if failed.Some? then AfterFailure(s, key, failed.value, e, e.w, e.w')
    else Completed(s, key, e, e.w, e.w')
  }

  // ---------------------------------------------------------------- control

  datatype Caller = Caller(actorId: string, conversationId: string, controller: bool)

  /** `controlled`: only an idle message whose receipt is still `received`. */
  predicate Controllable(s: World, key: Key, c: Caller) {
    && Has(s.inbox.rows, key)
    && At(s.inbox.rows, key).message.Conversation() == c.conversationId
    && (At(s.inbox.rows, key).message.senderId == c.actorId || c.controller)
    && key !in s.inbox.busy && key in s.journal.mem && s.journal.mem[key].phase.Received?
  }

  predicate Retryable(s: World, key: Key, c: Caller, expected: Target, current: Option<Target>) {
    Controllable(s, key, c) && At(s.inbox.rows, key).automatic && current == Some(expected)
  }

  /** `retry`: aim at the target the caller was shown.  A failed save assigns the
      fields of the copy back; a field that the copy does not have stays as it is. */
  function Retried(s: World, key: Key, current: Target, now: int, w: FileWrite): World
    requires Has(s.inbox.rows, key)
  {
    var row := At(s.inbox.rows, key);
    var next := Put(s.inbox.rows, row.(target := Some(current), state := Pending, nextAt := now, noticed := {}));
    var undone := Put(s.inbox.rows, Restored(s.inbox, row, current));
    s.(inbox := s.inbox.(rows := if w.Returned() then next else undone, disk := FileAfter(s.inbox.disk, next, w)))
  }

  function Restored(x: Inbox, row: Row, current: Target): Row {
    if row.Key() in x.bare && row.target.None? then row.(target := Some(current)) else row
  }

  /** A retry that could not be saved is undone in memory if and only if the row was
      not one that the file held without a target. */
  lemma RetryUndoneIff(s: World, key: Key, current: Target, now: int, w: FileWrite)
    requires Has(s.inbox.rows, key) && !w.Returned()
    ensures Retried(s, key, current, now, w).inbox.rows == s.inbox.rows <==>
      !(key in s.inbox.bare && At(s.inbox.rows, key).target.None?)
    ensures forall k :: Has(s.inbox.rows, k) && k != key ==>
      Has(Retried(s, key, current, now, w).inbox.rows, k)
        && At(Retried(s, key, current, now, w).inbox.rows, k) == At(s.inbox.rows, k)
  {
    var row := At(s.inbox.rows, key);
    var undone := Put(s.inbox.rows, Restored(s.inbox, row, current));
    FindAfterPut(s.inbox.rows, Restored(s.inbox, row, current));
    if !(key in s.inbox.bare && row.target.None?) { assert undone == s.inbox.rows; }
  }

  function Cancelled(s: World, key: Key, o: SaveOutcome, w: FileWrite): World
    requires Abandonable(s.journal, key)
  {
    World(AfterAbandon(s.journal, key, o), if o.Returned() then AfterRemove(s.inbox, key, w) else s.inbox)
  }

  // ---------------------------------------------------------------- acceptance

  /** Acceptance that created the first thread of a target without one. */
  predicate FirstThread(r: Receipt, previous: Option<Target>, current: Option<Target>) {
    && previous.Some? && !Truthy(previous.value.threadId) && current.Some?
    && current.value.threadId == r.threadId
    && r.sessionId == Some(current.value.sessionId) && current.value.hostId == OrElse(r.hostId, "local")
    && previous.value.Base() == current.value.Base()
  }

  function Aimed(row: Row, previous: Option<Target>, current: Option<Target>): Row {
    if row.state.Pending? && row.target == previous then row.(target := current) else row
  }

  function Reaim(rows: seq<Row>, previous: Option<Target>, current: Option<Target>): (r: seq<Row>)
    ensures |r| == |rows|
    ensures forall i :: 0 <= i < |rows| ==> r[i] == Aimed(rows[i], previous, current)
  {
    if rows == [] then [] else [Aimed(rows[0], previous, current)] + Reaim(rows[1..], previous, current)
  }

  predicate ExactAcceptance(r: Receipt) { Truthy(r.threadId) && (Truthy(r.turnId) || Truthy(r.queuedSubmissionId)) }

  /** `accepted`: what the inbox does with a durable acceptance. */
  function AfterAccepted(x: Inbox, key: Key, r: Receipt, current: Option<Target>, w: FileWrite,
                         w': FileWrite): (y: Inbox)
    ensures y.busy == x.busy
  {
    if !Has(x.rows, key) || !ExactAcceptance(r) then x
    else
      var previous := At(x.rows, key).target;
      if FirstThread(r, previous, current) then
        var aimed := Saved(x.(rows := Reaim(x.rows, previous, current)), w);
        if w.Returned() then AfterRemove(aimed, key, w') else aimed
      else AfterRemove(x, key, w')
  }

  // ---------------------------------------------------------------- the class

  class ForwardingInbox {
    const receipts: InboundReceiptJournal
    var rows: seq<Row>
    var disk: seq<Row>
    var processing: set<Key>
    var clock: nat
    /** The keys of row objects without a target field. */
    var bare: set<Key>

    ghost predicate Valid() reads this, receipts { receipts.Valid() }

    ghost function Abs(): World reads this, receipts {
      World(receipts.Abs(), Inbox(rows, disk, processing, clock, bare))
    }

    constructor (receipts: InboundReceiptJournal, saved: seq<Row>, clock: nat)
      requires receipts.Valid()
      ensures Valid() && this.receipts == receipts
      ensures Abs() == World(receipts.Abs(), Loaded(saved, clock))
    {
      this.receipts, rows, disk, processing, this.clock, bare := receipts, saved, saved, {}, clock, Unaimed(saved);
    }

    method Save(w: FileWrite) returns (ok: bool)
      modifies `disk
      ensures disk == FileAfter(old(disk), rows, w) && ok == w.Returned()
    {
      if w.Replaced() { disk := rows; }
      ok := w.Returned();
    }

    method Locate(key: Key) returns (i: nat)
      ensures i == Find(rows, key)
    {
      i := 0;
      while i < |rows| && rows[i].Key() != key
        invariant i <= |rows|
        invariant forall k :: 0 <= k < i ==> rows[k].Key() != key
      {
        i := i + 1;
      }
    }

    method Remove(key: Key, w: FileWrite) returns (ok: bool)
      requires Valid()
      modifies this
      ensures Valid() && Abs() == old(Abs()).(inbox := AfterRemove(old(Abs()).inbox, key, w))
      ensures Has(old(rows), key) ==> ok == w.Returned()
    {
      var i := Locate(key);
      if i == |rows| { return true; }
      var row := rows[i];
      rows := rows[..i] + rows[i + 1..];
      ok := Save(w);
      if !ok {
        rows := rows + [row.(stamp := clock)];
        clock := clock + 1;
      }
    }

    method Stage(m: Message, f: Fresh, w: FileWrite) returns (ok: bool)
      requires Valid()
      modifies this
      ensures Valid() && Abs().inbox == Staged(old(Abs()).inbox, m, f, w).0
      ensures ok == Staged(old(Abs()).inbox, m, f, w).1 && Abs().journal == old(Abs()).journal
    {
      var i := Locate(m.key);
      if i < |rows| { return SameMessage(rows[i], m, f.body); }
      var previous := rows;
      rows := rows + [Row(m, f.body, f.target, f.automatic, f.ordersInput, 0, f.now, Pending, {}, clock)];
      clock, bare := clock + 1, bare - {m.key};
      ok := Save(w);
      if !ok { rows := previous; }
    }

    method Claim(m: Message, f: Fresh, faults: Faults, w: FileWrite) returns (reply: Reply, o: SaveOutcome)
      requires Valid()
      modifies this, receipts
      ensures Valid()
      ensures Claimable(old(Abs()).journal, m) ==> SavePossible(old(Abs()).journal, o)
      ensures Abs() == Claimed(old(Abs()), m, f, o, w).0 && reply == Claimed(old(Abs()), m, f, o, w).1
    {
      reply, o := receipts.Claim(m, faults);
      if reply != Reply.Returned(true) { return; }
      var ok := Stage(m, f, w);
      if !ok {
        receipts.ReleasePreparation(m.key);
        reply := Threw;
      }
    }

    method Inform(key: Key, w: FileWrite) returns (waits: bool)
      requires Valid() && Has(rows, key)
      modifies this
      ensures Valid() && Abs().inbox == Informed(old(Abs()).inbox, key, w).0
      ensures waits == Informed(old(Abs()).inbox, key, w).1 && Abs().journal == old(Abs()).journal
    {
      var i := Locate(key);
      if rows[i].state in rows[i].noticed { return false; }
      rows := rows[i := rows[i].(noticed := rows[i].noticed + {rows[i].state})];
      waits := Save(w);
    }

    method ParkRow(row: Row, w: FileWrite, w': FileWrite) returns (waits: bool)
      requires Valid() && Has(rows, row.Key())
      modifies this
      ensures Valid() && Abs().inbox == Parked(old(Abs()).inbox, row, w, w').0
      ensures waits == Parked(old(Abs()).inbox, row, w, w').1 && Abs().journal == old(Abs()).journal
    {
      var i := Locate(row.Key());
      FindAfterPut(rows, row);
      rows := rows[i := row];
      var ok := Save(w);
      if !ok { return false; }
      waits := Inform(row.Key(), w');
    }

    method Blocked(i: nat) returns (blocked: bool)
      requires Valid() && i < |rows| && Find(rows, rows[i].Key()) == i
      ensures blocked == Preceded(Abs(), rows[i].Key())
    {
      var k := 0;
      while k < i
        invariant k <= i
        invariant forall n :: 0 <= n < k ==> !(SameLane(rows[n], rows[i]) && Barrier(Abs(), rows[n]))
      {
        var phase := if rows[k].Key() in receipts.receipts then receipts.receipts[rows[k].Key()].phase else Received;
        if rows[k].Ordered() && rows[k].message.Conversation() == rows[i].message.Conversation()
          && rows[k].target == rows[i].target
           && !Done(phase) && (rows[k].Key() in processing || (rows[k].state.Pending? && phase.Received?)) {
          assert SameLane(rows[k], rows[i]) && Barrier(Abs(), rows[k]);
          return true;
        }
        k := k + 1;
      }
      return false;
    }

    /** The catch clause of `deliver`. */
    method Fail(key: Key, f: Failure, e: Weather, w: FileWrite, w': FileWrite) returns (stop: Stop)
      requires Valid() && Has(rows, key)
      modifies this
      ensures Valid() && Abs() == AfterFailure(old(Abs()), key, f, e, w, w').0
      ensures stop == AfterFailure(old(Abs()), key, f, e, w, w').1
    {
      var i := Locate(key);
      var phase := ReadPhase(key);
      stop := Settled;
      if Done(phase) {
        var _ := Remove(key, w);
      } else if phase.Received? && rows[i].automatic && RetryLater(f) {
        stop := Postpone(key, e, w, w');
      } else {
        Mark(key, if phase.Received? then Held else Unsure, w);
      }
    }

    method Postpone(key: Key, e: Weather, w: FileWrite, w': FileWrite) returns (stop: Stop)
      requires Valid() && Has(rows, key)
      modifies this
      ensures Valid() && Abs() == Postponed(old(Abs()), key, e, w, w').0
      ensures stop == Postponed(old(Abs()), key, e, w, w').1
    {
      var i := Locate(key);
      var waits := ParkRow(rows[i].(nextAt := e.now + e.delay), w, w');
      stop := if waits then Noticing else Settled;
    }

    method ReadPhase(key: Key) returns (phase: Phase)
      ensures phase == PhaseOf(Abs().journal, key)
    {
      phase := if key in receipts.receipts then receipts.receipts[key].phase else Received;
    }

    method Mark(key: Key, state: RowState, w: FileWrite)
      requires Valid() && Has(rows, key)
      modifies this
      ensures Valid()
      ensures Abs() == old(Abs()).(inbox := Marked(old(Abs()).inbox, key, state, w))
    {
      var i := Locate(key);
      rows := rows[i := rows[i].(state := state)];
      var _ := Save(w);
    }

    method Complete(key: Key, e: Weather, w: FileWrite, w': FileWrite) returns (stop: Stop)
      requires Valid() && Has(rows, key)
      modifies this
      ensures Valid() && Abs() == Completed(old(Abs()), key, e, w, w').0
      ensures stop == Completed(old(Abs()), key, e, w, w').1
    {
      ghost var before := Abs().inbox;
      var ok := Remove(key, w);
      if ok { return Settled; }
      RemovedComesBack(before, key, w);
      stop := Fail(key, Other, e, w', LostBeforeRename);
    }

    method Choose(key: Key, initial: bool, e: Weather) returns (turn: Turn)
      requires Valid() && Has(rows, key)
      ensures turn == Decide(Abs(), key, initial, e.current, e.canDispatch)
    {
      var i := Locate(key);
      var row := rows[i];
      var phase := ReadPhase(key);
      if Done(phase) { return Housekeep; }
      if phase.Submitting? || phase.Unconfirmed? { return Unconfirmable; }
      if !row.state.Pending? { return Idle; }
      if !initial && !row.automatic && row.attempts > 0 { return HoldReplay; }
      if row.target != e.current { return HoldTarget; }
      var blocked := Blocked(i);
      if row.Ordered() && blocked { return WaitLane; }
      if !e.canDispatch { return WaitGateway; }
      return Dispatch;
    }

    method Hand(key: Key, e: Weather, f: Faults) returns (stop: Stop, o: SaveOutcome)
      requires Valid() && Has(rows, key)
      modifies this, receipts
      ensures Valid()
      ensures Abs() == Handed(old(Abs()), key, e.(claim := o)).0 && stop == Handed(old(Abs()), key, e.(claim := o)).1
    {
      o := e.claim;
      if e.deferred {
        stop := Fail(key, Deferred, e, e.w', e.w'');
        return;
      }
      var i := Locate(key);
      var entered;
      entered, o := receipts.BeginHandle(rows[i].message, f);
      match entered {
        case Running => return Flying, o;
        case Refused => stop := Fail(key, Other, e, e.w', e.w'');
        case Skipped => stop := Complete(key, e, e.w', e.w'');
      }
    }

    method Launch(key: Key, e: Weather, f: Faults) returns (stop: Stop, o: SaveOutcome)
      requires Valid() && Has(rows, key)
      modifies this, receipts
      ensures Valid()
      ensures Abs() == Launched(old(Abs()), key, e.(claim := o)).0
      ensures stop == Launched(old(Abs()), key, e.(claim := o)).1
    {
      o := e.claim;
      var i := Locate(key);
      var row := rows[i].(attempts := rows[i].attempts + 1);
      FindAfterPut(rows, row);
      rows := rows[i := row];
      var ok := Save(e.w);
      assert Abs().inbox == Attempted(old(Abs()).inbox, old(rows)[i], e.w);
      if !ok { return Settled, o; }
      stop, o := Hand(key, e, f);
    }

    method TakeTurn(key: Key, turn: Turn, e: Weather, f: Faults) returns (stop: Stop, o: SaveOutcome)
      requires Valid() && Has(rows, key)
      modifies this, receipts
      ensures Valid()
      ensures Abs() == Turned(old(Abs()), key, turn, e.(claim := o)).0
      ensures stop == Turned(old(Abs()), key, turn, e.(claim := o)).1
    {
      o := e.claim;
      match turn {
        case Housekeep =>
          var _ := Remove(key, e.w);
          stop := Settled;
        case Idle => stop := Settled;
        case Dispatch => stop, o := Launch(key, e, f);
        case _ =>
          var i := Locate(key);
          var waits := ParkRow(Restated(rows[i], turn, e), e.w, e.w');
          stop := if waits then Noticing else Settled;
      }
    }

    /** `deliver` up to its first await; a key in delivery is in `processing`. */
    method Deliver(key: Key, initial: bool, e: Weather, f: Faults) returns (stop: Stop, o: SaveOutcome)
      requires Valid()
      modifies this, receipts
      ensures Valid()
      ensures var (s, stop') := Delivered(old(Abs()), key, initial, e.(claim := o));
              && stop == stop'
              && Abs() == s.(inbox := s.inbox.(busy := s.inbox.busy + if stop.Settled? then {} else {key}))
    {
      o := e.claim;
      var i := Locate(key);
      if key in processing || i == |rows| { return Settled, o; }
      var turn := Choose(key, initial, e);
      stop, o := TakeTurn(key, turn, e, f);
      if !stop.Settled? { processing := processing + {key}; }
    }

    /** `deliver` after `dispatch` settled. */
    method Land(key: Key, failed: Option<Failure>, e: Weather) returns (stop: Stop)
      requires Valid() && key in processing
      modifies this
      ensures Valid()
      ensures var (s, stop') := Landed(old(Abs()), key, failed, e);
              && stop == stop'
              && Abs() == s.(inbox := s.inbox.(busy := s.inbox.busy - if stop.Settled? then {key} else {}))
    {
      var i := Locate(key);
      if i == |rows| {
        stop := Settled;
      } else if failed.Some? {
        stop := Fail(key, failed.value, e, e.w, e.w');
      } else {
        stop := Complete(key, e, e.w, e.w');
      }
      if stop.Settled? { processing := processing - {key}; }
    }

    method Retry(key: Key, c: Caller, expected: Target, current: Option<Target>, now: int, w: FileWrite)
      returns (ok: bool)
      requires Valid()
      modifies this
      ensures Valid()
      ensures !Retryable(old(Abs()), key, c, expected, current) ==> !ok && Abs() == old(Abs())
      ensures Retryable(old(Abs()), key, c, expected, current) ==>
                ok == w.Returned() && Abs() == Retried(old(Abs()), key, expected, now, w)
    {
      var i := Locate(key);
      if i == |rows| || rows[i].message.Conversation() != c.conversationId { return false; }
      if rows[i].message.senderId != c.actorId && !c.controller { return false; }
      if key in processing || key !in receipts.receipts || !receipts.receipts[key].phase.Received? { return false; }
      if !rows[i].automatic || current != Some(expected) { return false; }
      var previous := rows[i];
      rows := rows[i := previous.(target := current, state := Pending, nextAt := now, noticed := {})];
      ok := Save(w);
      if !ok {
        rows := rows[i := if key in bare && previous.target.None? then previous.(target := current) else previous];
        assert rows == Put(old(rows), Restored(old(Abs()).inbox, previous, expected));
      }
    }

    method Cancel(key: Key, c: Caller, f: Faults, w: FileWrite) returns (ok: bool, o: SaveOutcome)
      requires Valid()
      modifies this, receipts
      ensures Valid()
      ensures !(Controllable(old(Abs()), key, c) && Abandonable(old(Abs()).journal, key)) ==> !ok && Abs() == old(Abs())
      ensures Controllable(old(Abs()), key, c) && Abandonable(old(Abs()).journal, key) ==>
                SavePossible(old(Abs()).journal, o) && Abs() == Cancelled(old(Abs()), key, o, w)
    {
      o := Unchanged;
      var i := Locate(key);
      if i == |rows| || rows[i].message.Conversation() != c.conversationId { return false, o; }
      if rows[i].message.senderId != c.actorId && !c.controller { return false, o; }
      if key in processing || key !in receipts.receipts || !receipts.receipts[key].phase.Received? { return false, o; }
      var reply;
      reply, o := receipts.Abandon(key, f);
      if reply != Reply.Returned(true) { return false, o; }
      ok := Remove(key, w);
    }

    /** Pending rows of one target follow it to another. */
    method AimAll(previous: Option<Target>, current: Option<Target>)
      modifies `rows
      ensures rows == Reaim(old(rows), previous, current)
    {
      var k := 0;
      while k < |rows|
        invariant k <= |rows| == |old(rows)|
        invariant forall n :: 0 <= n < |rows| ==>
          rows[n] == if n < k then Aimed(old(rows)[n], previous, current) else old(rows)[n]
      {
        rows := rows[k := Aimed(rows[k], previous, current)];
        k := k + 1;
      }
    }

    /** `accepted`; the journal has already made the receipt durable. */
    method OnAccepted(key: Key, r: Receipt, current: Option<Target>, w: FileWrite, w': FileWrite)
      requires Valid()
      modifies this
      ensures Valid() && Abs() == old(Abs()).(inbox := AfterAccepted(old(Abs()).inbox, key, r, current, w, w'))
    {
      var i := Locate(key);
      if i == |rows| || !ExactAcceptance(r) { return; }
      var previous := rows[i].target;
      if FirstThread(r, previous, current) {
        AimAll(previous, current);
        var ok := Save(w);
        if !ok { return; }
      }
      var _ := Remove(key, w');
    }
  }
}
