/** `RuntimeObservationController`: a passive follower and the inputs of one terminal
    share its completion without showing it twice.

    The rows belong to one binding.  A read is taken remotely and recorded later;
    clocks, reads and whether a save goes through are inputs.  Cards are left out:
    `card` says whether a follower has one. */
module RuntimeObservation {
  import opened Common

  type Id = string

  datatype State = Working | Blocked | Idle | Done | Exited | Failed | Unclear

  /** What `inspect` reports. */
  datatype Reading = Reading(state: State, sequence: Option<nat>)

  /** `following` is `None` for an input; a follower is dormant or active.  `taken` is
      history: when the read that the row records was taken. */
  datatype Row = Row(
    following: Option<bool>, lastState: Option<State>, lastSequence: Option<nat>, syncedAt: Option<nat>, card: bool,
    taken: Option<nat>)
  {
    predicate Dormant() { following == Some(false) && !card }
    function Synced(r: Reading, taken: nat, now: nat): Row {
      this.(lastState := Some(r.state), lastSequence := r.sequence, syncedAt := Some(now), taken := Some(taken))
    }
    predicate Says(r: Reading) { lastState == Some(r.state) && lastSequence == r.sequence }
  }

  type Rows = map<Id, Row>

  // ---------------------------------------------------------------- waking up

  /** `a` is a number recognisably later than `b`. */
  predicate Newer(a: Option<nat>, b: Option<nat>) { a.Some? && b.Some? && a.value > b.value }

  predicate SequenceChanged(row: Row, actual: Reading) {
    Newer(actual.sequence, row.lastSequence)
  }

  /** Whether a dormant follower takes the terminal for a run of its own. */
  predicate Wakes(row: Row, actual: Reading) {
    var changed := row.lastState != Some(actual.state);
    || ((actual.state.Working? || actual.state.Blocked?) && (changed || SequenceChanged(row, actual)))
    || (row.lastState.Some? && changed && (actual.state.Failed? || actual.state.Exited?))
    || (SequenceChanged(row, actual) && (actual.state.Idle? || actual.state.Done?))
  }

  predicate InputOwns(rows: Rows) { exists id :: id in rows && rows[id].following.None? }

  /** `resetFollow` with a reading. */
  function Reset(row: Row, actual: Reading, taken: nat, now: nat): Row {
    row.(following := Some(false), card := false).Synced(actual, taken, now)
  }

  /** A follower's observation after its read; `seen` is the row it started from. */
  function Followed(rows: Rows, id: Id, seen: Row, actual: Reading, taken: nat, now: nat): Rows {
    if id !in rows || rows[id].following.None? then rows
    else if InputOwns(rows) then rows[id := Reset(rows[id], actual, taken, now)]
    else if seen.following == Some(true) then rows[id := rows[id].Synced(actual, taken, now)]
    else if Wakes(seen, actual) then rows[id := seen.(following := Some(true), syncedAt := Some(now))]
    else rows[id := seen.(following := Some(false)).Synced(actual, taken, now)]
  }

  // ---------------------------------------------------------------- finishing an input

  /** The guards of `finish` for one follower. */
  predicate Adopts(follower: Row, input: Row, current: bool) {
    && input.lastState.Some? && input.syncedAt.Some?
    && follower.Dormant() && current
    && !((if follower.syncedAt.Some? then follower.syncedAt.value else 0) > input.syncedAt.value)
    && !Newer(follower.lastSequence, input.lastSequence)
  }

  function Adopted(follower: Row, input: Row, current: bool): Row {
    if Adopts(follower, input, current)
    then follower.(lastState := input.lastState, lastSequence := input.lastSequence, syncedAt := input.syncedAt,
                   taken := input.taken)
    else follower
  }

  /** A follower at rest sleeps through the terminal it knows, and no run of somebody
      else is missed: a later number in a telling state, or a change into work,
      waiting, failure or exit, wakes it. */
  lemma WakesForNewRuns(follower: Row, rest: Reading, actual: Reading)
    requires follower.Says(rest)
    ensures actual == rest ==> !Wakes(follower, actual)
    ensures (&& rest.sequence.Some? && actual.sequence.Some? && actual.sequence.value > rest.sequence.value
      && !actual.state.Unclear? && (actual.state == rest.state ==> !actual.state.Failed? && !actual.state.Exited?)) ==>
      Wakes(follower, actual)
    ensures actual.state != rest.state && !actual.state.Idle? && !actual.state.Done? && !actual.state.Unclear? ==>
      Wakes(follower, actual)
    ensures actual.state.Unclear? ==> !Wakes(follower, actual)
  {
  }

  // ---------------------------------------------------------------- the system

  /** `flights` are observations under way with the rows they started from;
      `finishing` are inputs with their row and the followers still to be settled. */
  datatype Ending = Ending(row: Row, left: set<Id>)

  datatype Board = Board(rows: Rows, flights: map<Id, Row>, finishing: map<Id, Ending>)

  datatype Event =
    | Follow(id: Id)
    | Begin(id: Id)
    | Look(id: Id)
    | Seen(id: Id, actual: Reading, taken: nat, now: nat, ok: bool)
    | Read(id: Id, actual: Reading, taken: nat, now: nat, ok: bool)
    | Finish(id: Id)
    | Settle(id: Id, follower: Id, current: bool, ok: bool)
    | Remove(id: Id)
    | Retire(id: Id)
    | Card(id: Id)
    | Quiet(id: Id)

  predicate Enabled(b: Board, e: Event) {
    match e
    case Follow(id) => id !in b.rows && id !in b.flights
    case Begin(id) => id !in b.rows && id !in b.flights && id !in b.finishing
    case Look(id) => id in b.rows && b.rows[id].following.Some? && id !in b.flights
    case Seen(id, _, _, _, _) => id in b.flights
    case Read(id, _, _, _, _) => id in b.rows && b.rows[id].following.None? && id !in b.finishing
    case Finish(id) => id in b.rows && b.rows[id].following.None? && id !in b.finishing
    case Settle(id, follower, _, _) => id in b.finishing && follower in b.finishing[id].left && follower !in b.flights
    case Remove(id) => id in b.finishing && b.finishing[id].left == {}
    case Retire(id) => id in b.rows && b.rows[id].following.Some?
    case Card(id) => id in b.rows && b.rows[id].following == Some(true)
    case Quiet(id) => id in b.rows && b.rows[id].following == Some(true)
  }

  function Followers(rows: Rows): set<Id> { set id | id in rows && rows[id].following.Some? }

  const NEW_FOLLOWER := Row(Some(false), None, None, None, false, None)
  const NEW_INPUT := Row(None, None, None, None, false, None)

  function Next(b: Board, e: Event): Board {
    if !Enabled(b, e) then b else
    match e
    case Follow(id) => b.(rows := b.rows[id := NEW_FOLLOWER])
    case Begin(id) => b.(rows := b.rows[id := NEW_INPUT])
    case Look(id) => b.(flights := b.flights[id := b.rows[id]])
    case Seen(id, actual, taken, now, ok) =>
      b.(flights := b.flights - {id},
         rows := if ok then Followed(b.rows, id, b.flights[id], actual, taken, now) else b.rows)
    case Read(id, actual, taken, now, ok) =>
      b.(rows := if ok then b.rows[id := b.rows[id].Synced(actual, taken, now)] else b.rows)
    case Finish(id) => b.(finishing := b.finishing[id := Ending(b.rows[id], Followers(b.rows))])
    case Settle(id, follower, current, ok) =>
      var ending := b.finishing[id];
      if !ok then b.(finishing := b.finishing - {id})
      else
        b.(finishing := b.finishing[id := ending.(left := ending.left - {follower})],
           rows := if follower in b.rows && b.rows[follower].following.Some?
                   then b.rows[follower := Adopted(b.rows[follower], ending.row, current)] else b.rows)
    case Remove(id) => b.(rows := b.rows - {id}, finishing := b.finishing - {id})
    case Retire(id) => b.(rows := b.rows - {id})
    case Card(id) => b.(rows := b.rows[id := b.rows[id].(card := true)])
    case Quiet(id) => b.(rows := b.rows[id := b.rows[id].(following := Some(false), card := false)])
  }

  function After(b: Board, events: seq<Event>): Board {
    if events == [] then b else Next(After(b, events[..|events| - 1]), events[|events| - 1])
  }

  const EMPTY := Board(map[], map[], map[])

  // ---------------------------------------------------------------- what an observation means

  /** Which reading is a run of its own for a dormant follower, state by state. */
  lemma WakesIff(row: Row, actual: Reading)
    ensures
      var other := row.lastState.None? || row.lastState.value != actual.state;
      var later := actual.sequence.Some? && row.lastSequence.Some? && actual.sequence.value > row.lastSequence.value;
      Wakes(row, actual) <==>
        match actual.state
        case Working => other || later
        case Blocked => other || later
        case Failed => row.lastState.Some? && other
        case Exited => row.lastState.Some? && other
        case Idle => later
        case Done => later
        case Unclear => false
  {
  }

  /** What a read leaves of the follower that took it, unless its row is gone or became
      another's.  While an input owns the terminal it is put to rest at the reading; one
      that was active goes on; a dormant one becomes active, keeping what it knew, or
      learns the reading and sleeps on.  No other row is touched. */
  lemma ReadMeans(b: Board, id: Id, actual: Reading, taken: nat, now: nat)
    requires id in b.flights
    ensures
      var n, seen := Next(b, Seen(id, actual, taken, now, true)), b.flights[id];
      && n.flights == b.flights - {id} && n.finishing == b.finishing
      && n.rows.Keys == b.rows.Keys && n.rows - {id} == b.rows - {id}
      && (id in b.rows && b.rows[id].following.None? ==> n.rows[id] == b.rows[id])
      && (id in b.rows && b.rows[id].following.Some? ==>
            var was, row := b.rows[id], n.rows[id];
            var learnt := row.lastState == Some(actual.state) && row.lastSequence == actual.sequence
              && row.taken == Some(taken);
            && row.syncedAt == Some(now)
            && (if exists input :: input in b.rows && b.rows[input].following.None? then
                  learnt && row.following == Some(false) && !row.card
                else if seen.following == Some(true) then
                  learnt && row.following == was.following && row.card == was.card
                else
                  && row.card == seen.card && (row.following == Some(true) <==> Wakes(seen, actual))
                  && row.following.Some?
                  && (if Wakes(seen, actual) then
                        row.lastState == seen.lastState && row.lastSequence == seen.lastSequence
                          && row.taken == seen.taken
                      else learnt)))
    ensures Next(b, Seen(id, actual, taken, now, false)) == b.(flights := b.flights - {id})
  {
    if id in b.rows && b.rows[id].following.Some? {
      assert (exists input :: input in b.rows && b.rows[input].following.None?) <==> InputOwns(b.rows);
    }
  }

  /** Exactly when a finished input settles a follower: the input was read and recorded, it
      is still current, the follower is dormant and without a card, and knows nothing
      recorded later and no greater number.  Then the follower knows what the input
      knew; its number and its state change in nothing else. */
  lemma SettleMeans(b: Board, id: Id, follower: Id, current: bool)
    requires Enabled(b, Settle(id, follower, current, true)) && follower in b.rows && b.rows[follower].following.Some?
    ensures
      var n, input, was := Next(b, Settle(id, follower, current, true)), b.finishing[id].row, b.rows[follower];
      var settles :=
        && input.lastState.Some? && input.syncedAt.Some? && current && was.following == Some(false) && !was.card
        && (was.syncedAt.Some? ==> was.syncedAt.value <= input.syncedAt.value)
        && (was.lastSequence.Some? && input.lastSequence.Some? ==> was.lastSequence.value <= input.lastSequence.value);
      && n.rows == b.rows[follower :=
           if settles then Row(was.following, input.lastState, input.lastSequence, input.syncedAt, was.card,
             input.taken)
           else was]
      && n.finishing == b.finishing[id := Ending(input, b.finishing[id].left - {follower})] && n.flights == b.flights
  {
  }

  /** An input that finishes settles every follower that is there, and is removed only
      after the last; a save that fails breaks this off, and the input stays to finish
      again. */
  lemma FinishMeans(b: Board, id: Id, follower: Id, current: bool)
    requires id in b.rows && b.rows[id].following.None? && id !in b.finishing
    ensures
      var n := Next(b, Finish(id));
      && n.rows == b.rows && n.flights == b.flights && n.finishing.Keys == b.finishing.Keys + {id}
      && n.finishing[id].row == b.rows[id]
      && (forall o :: o in n.finishing[id].left <==> o in b.rows && b.rows[o].following.Some?)
      && Next(n, Remove(id)).rows == (if n.finishing[id].left == {} then b.rows - {id} else b.rows)
      && (follower in n.finishing[id].left && follower !in b.flights ==>
            Next(n, Settle(id, follower, current, false)) == b)
  {
    var n := Next(b, Finish(id));
    assert n.finishing - {id} == b.finishing;
  }

  /** A card belongs to an active follower; presenting its result to the end puts it to
      rest without one; retiring it takes its row away and nothing else. */
  lemma CardMeans(b: Board, id: Id)
    requires id in b.rows
    ensures
      var was, card, quiet := b.rows[id], Next(b, Card(id)).rows, Next(b, Quiet(id)).rows;
      && card.Keys == b.rows.Keys && card - {id} == b.rows - {id}
      && quiet.Keys == b.rows.Keys && quiet - {id} == b.rows - {id}
      && (if was.following == Some(true) then
            && card[id].card && card[id].following == Some(true) && card[id].syncedAt == was.syncedAt
            && card[id].lastState == was.lastState && card[id].lastSequence == was.lastSequence
            && quiet[id].following == Some(false) && !quiet[id].card && quiet[id].syncedAt == was.syncedAt
            && quiet[id].lastState == was.lastState && quiet[id].lastSequence == was.lastSequence
          else card[id] == was && quiet[id] == was)
      && (was.following.Some? ==> Next(b, Retire(id)).rows == b.rows - {id})
  {
  }

  // ---------------------------------------------------------------- the terminal at rest

  /** From `since` on, the terminal shows `reading`. */
  datatype Rest = Rest(reading: Reading, since: nat)
  {
    predicate Numbered(sequence: Option<nat>) {
      sequence.Some? && reading.sequence.Some? ==> sequence.value <= reading.sequence.value
    }

    /** A read is true of the moment it was taken at, and sequence numbers never run
        ahead.  When it is recorded is left open. */
    predicate Honest(e: Event) {
      match e
      case Seen(_, actual, taken, now, _) =>
        taken <= now && Numbered(actual.sequence) && (taken >= since ==> actual == reading)
      case Read(_, actual, taken, now, _) =>
        taken <= now && Numbered(actual.sequence) && (taken >= since ==> actual == reading)
      case _ => true
    }

    /** A read that was taken, and so recorded, at rest. */
    predicate Still(e: Event) {
      match e
      case Seen(_, actual, taken, now, _) => since <= taken <= now && actual == reading
      case Read(_, actual, taken, now, _) => since <= taken <= now && actual == reading
      case _ => true
    }

    /** What a row says that was written from honest reads. */
    predicate Dated(row: Row) {
      && Numbered(row.lastSequence)
      && (row.taken.Some? && row.taken.value >= since ==> row.Says(reading))
      && (row.following.None? && row.taken.Some? ==> row.syncedAt.Some? && row.taken.value <= row.syncedAt.value)
    }

    /** Not recorded at rest from a read taken before. */
    predicate InOrder(row: Row) {
      row.syncedAt.Some? && row.syncedAt.value >= since ==> row.taken.Some? && row.taken.value >= since
    }

    /** An input that cannot mislead a follower recorded at rest. */
    predicate Confirms(row: Row) {
      row.lastState.None? || row.syncedAt.None? || row.Says(reading) || row.syncedAt.value < since
    }

    /** The terminal reports numbers always or never. */
    predicate Uniform(row: Row) {
      && (row.lastSequence.Some? ==> reading.sequence.Some?)
      && (row.lastState.Some? && reading.sequence.Some? ==> row.lastSequence.Some?)
    }

    predicate Counts(e: Event) {
      match e
      case Seen(_, actual, _, _, _) => actual.sequence.Some? == reading.sequence.Some?
      case Read(_, actual, _, _, _) => actual.sequence.Some? == reading.sequence.Some?
      case _ => true
    }

    /** The terminal counts its changes: another reading has a smaller number. */
    predicate Older(r: Reading) { r == reading || Newer(reading.sequence, r.sequence) }

    predicate Counted(e: Event) {
      match e
      case Seen(_, actual, _, _, _) => Older(actual)
      case Read(_, actual, _, _, _) => Older(actual)
      case _ => true
    }

    predicate Recorded(row: Row) {
      row.lastState.Some? ==> row.Says(reading) || Newer(reading.sequence, row.lastSequence)
    }

    /** An input recorded at rest with a state that wakes a follower, which the guards let
        overwrite the follower as it is, or as its next read leaves it. */
    predicate Threatens(input: Row, follower: Row) {
      && input.lastState.Some? && input.syncedAt.Some? && input.syncedAt.value >= since && Wakes(input, reading)
      && (!Newer(reading.sequence, input.lastSequence) || Adopts(follower, input, true))
    }

    /** A dormant follower, recorded at rest, that sleeps through the reading. */
    predicate Calm(row: Row) {
      row.Dormant() && !Wakes(row, reading) && row.syncedAt.Some? && row.syncedAt.value >= since
    }
  }

  ghost predicate AllDated(b: Board, r: Rest) {
    && (forall id :: id in b.rows ==> r.Dated(b.rows[id]))
    && (forall id :: id in b.flights ==> r.Dated(b.flights[id]) && b.flights[id].following.Some?)
    && (forall id :: id in b.finishing ==> r.Dated(b.finishing[id].row) && b.finishing[id].row.following.None?)
  }

  lemma NextDated(b: Board, e: Event, r: Rest)
    requires AllDated(b, r) && r.Honest(e)
    ensures AllDated(Next(b, e), r)
  {
    if e.Seen? { SeenDated(b, e, r); } else if e.Settle? { SettleDated(b, e, r); }
  }

  lemma SeenDated(b: Board, e: Event, r: Rest)
    requires AllDated(b, r) && r.Honest(e) && e.Seen?
    ensures AllDated(Next(b, e), r)
  {
  }

  lemma SettleDated(b: Board, e: Event, r: Rest)
    requires AllDated(b, r) && r.Honest(e) && e.Settle?
    ensures AllDated(Next(b, e), r)
  {
  }

  lemma {:induction false} RunsAreDated(events: seq<Event>, r: Rest)
    requires forall e :: e in events ==> r.Honest(e)
    ensures AllDated(After(EMPTY, events), r)
  {
    if events != [] {
      RunsAreDated(events[..|events| - 1], r);
      NextDated(After(EMPTY, events[..|events| - 1]), events[|events| - 1], r);
    }
  }

  /** An input keeps its row while it finishes. */
  ghost predicate Filed(b: Board) {
    forall id :: id in b.finishing ==>
      id in b.rows && b.rows[id].following.None? && b.rows[id] == b.finishing[id].row
  }

  lemma NextFiled(b: Board, e: Event)
    requires Filed(b)
    ensures Filed(Next(b, e))
  {
  }

  ghost predicate AllUniform(b: Board, r: Rest) {
    && (forall id :: id in b.rows ==> r.Uniform(b.rows[id]))
    && (forall id :: id in b.flights ==> r.Uniform(b.flights[id]))
    && (forall id :: id in b.finishing ==> r.Uniform(b.finishing[id].row))
  }

  lemma NextUniform(b: Board, e: Event, r: Rest)
    requires AllUniform(b, r) && r.Counts(e)
    ensures AllUniform(Next(b, e), r)
  {
  }

  lemma {:induction false} RunsAreUniform(events: seq<Event>, r: Rest)
    requires forall e :: e in events ==> r.Counts(e)
    ensures AllUniform(After(EMPTY, events), r) && Filed(After(EMPTY, events))
  {
    if events != [] {
      RunsAreUniform(events[..|events| - 1], r);
      NextUniform(After(EMPTY, events[..|events| - 1]), events[|events| - 1], r);
      NextFiled(After(EMPTY, events[..|events| - 1]), events[|events| - 1]);
    }
  }

  ghost predicate InputsInOrder(b: Board, r: Rest) {
    && (forall id :: id in b.rows && b.rows[id].following.None? ==> r.InOrder(b.rows[id]))
    && (forall id :: id in b.finishing ==> r.InOrder(b.finishing[id].row))
  }

  ghost predicate InputsConfirm(b: Board, r: Rest) {
    && (forall id :: id in b.rows && b.rows[id].following.None? ==> r.Confirms(b.rows[id]))
    && (forall id :: id in b.finishing ==> r.Confirms(b.finishing[id].row))
  }

  lemma NextConfirms(b: Board, e: Event, r: Rest)
    requires InputsConfirm(b, r) && r.Still(e)
    ensures InputsConfirm(Next(b, e), r)
  {
  }

  // ---------------------------------------------------------------- asleep for good

  /** Nobody subscribes anew under this id, and every read is of the resting terminal. */
  predicate Quiescent(r: Rest, events: seq<Event>, id: Id) {
    forall e :: e in events ==> r.Still(e) && ((e.Follow? || e.Begin?) ==> e.id != id)
  }

  predicate Sleeps(b: Board, id: Id) { id in b.rows ==> b.rows[id].Dormant() }

  /** The follower is calm, and so is the row of an observation of it under way. */
  predicate Resting(b: Board, r: Rest, id: Id) {
    && (id in b.rows ==> r.Calm(b.rows[id]))
    && (id in b.flights ==> r.Calm(b.flights[id]))
  }

  lemma NextRests(b: Board, e: Event, r: Rest, id: Id)
    requires InputsConfirm(b, r) && r.Still(e) && Resting(b, r, id)
    requires (e.Follow? || e.Begin?) ==> e.id != id
    ensures Resting(Next(b, e), r, id)
  {
  }

  lemma {:induction false} RestsOn(b: Board, events: seq<Event>, r: Rest, id: Id)
    requires InputsConfirm(b, r) && Resting(b, r, id) && Quiescent(r, events, id)
    ensures InputsConfirm(After(b, events), r) && Resting(After(b, events), r, id)
  {
    if events != [] {
      RestsOn(b, events[..|events| - 1], r, id);
      NextConfirms(After(b, events[..|events| - 1]), events[|events| - 1], r);
      NextRests(After(b, events[..|events| - 1]), events[|events| - 1], r, id);
    }
  }

  /** The input has yet to settle followers, or can come to it again: an ending that is
      broken off before its last follower starts anew. */
  predicate MaySettle(b: Board, input: Id) {
    input in b.rows && b.rows[input].following.None? && (input in b.finishing ==> b.finishing[input].left != {})
  }

  ghost predicate Safe(b: Board, r: Rest, id: Id)
    requires id in b.rows
  {
    forall input :: MaySettle(b, input) ==> !r.Threatens(b.rows[input], b.rows[id])
  }

  ghost predicate Guarded(b: Board, r: Rest, id: Id) {
    Filed(b) && AllUniform(b, r) && Resting(b, r, id) && (id in b.rows ==> Safe(b, r, id))
  }

  /** Brought up to date, a follower is threatened by no more inputs than before. */
  lemma SyncedIsSafer(r: Rest, input: Row, was: Row, now: Row)
    requires !r.Threatens(input, was) && now.lastSequence == r.reading.sequence
    ensures !r.Threatens(input, now)
  {
  }

  /** Adopting an input that does not threaten, a follower stays calm, and no other
      input threatens it that did not before. */
  lemma AdoptedIsSafer(r: Rest, settling: Row, input: Row, was: Row)
    requires r.Calm(was) && Adopts(was, settling, true) && !r.Threatens(settling, was)
    requires r.Uniform(was) && r.Uniform(settling) && r.Uniform(input) && !r.Threatens(input, was)
    ensures r.Calm(Adopted(was, settling, true)) && !r.Threatens(input, Adopted(was, settling, true))
  {
  }

  lemma SettleGuards(b: Board, e: Event, r: Rest, id: Id)
    requires Guarded(b, r, id) && e.Settle? && Enabled(b, e)
    ensures var n := Next(b, e); Resting(n, r, id) && (id in n.rows ==> Safe(n, r, id))
  {
    var n := Next(b, e);
    if id in b.rows && e.follower == id && e.ok {
      assert MaySettle(b, e.id);
      forall input | MaySettle(n, input) ensures !r.Threatens(n.rows[input], n.rows[id]) {
        assert MaySettle(b, input);
        if Adopts(b.rows[id], b.rows[e.id], e.current) { AdoptedIsSafer(r, b.rows[e.id], b.rows[input], b.rows[id]); }
      }
      if Adopts(b.rows[id], b.rows[e.id], e.current) { AdoptedIsSafer(r, b.rows[e.id], b.rows[e.id], b.rows[id]); }
    } else if id in n.rows {
      forall input | MaySettle(n, input) ensures !r.Threatens(n.rows[input], n.rows[id]) { assert MaySettle(b, input); }
    }
  }

  lemma SeenGuards(b: Board, e: Event, r: Rest, id: Id)
    requires Guarded(b, r, id) && e.Seen? && Enabled(b, e) && r.Still(e)
    ensures var n := Next(b, e); Resting(n, r, id) && (id in n.rows ==> Safe(n, r, id))
  {
    var n := Next(b, e);
    if id in n.rows {
      forall input | MaySettle(n, input) ensures !r.Threatens(n.rows[input], n.rows[id]) {
        assert MaySettle(b, input) && n.rows[input] == b.rows[input];
        if n.rows[id] != b.rows[id] { SyncedIsSafer(r, b.rows[input], b.rows[id], n.rows[id]); }
      }
    }
  }

  lemma OthersGuard(b: Board, e: Event, r: Rest, id: Id)
    requires Guarded(b, r, id) && !e.Settle? && !e.Seen? && Enabled(b, e) && r.Still(e)
    requires (e.Follow? || e.Begin?) ==> e.id != id
    ensures var n := Next(b, e); Resting(n, r, id) && (id in n.rows ==> Safe(n, r, id))
  {
    var n := Next(b, e);
    if id in n.rows {
      assert n.rows[id] == b.rows[id];
      forall input | MaySettle(n, input) ensures !r.Threatens(n.rows[input], n.rows[id]) {
        if input in b.rows && n.rows[input] == b.rows[input] { assert MaySettle(b, input); }
      }
    }
  }

  lemma NextGuards(b: Board, e: Event, r: Rest, id: Id)
    requires Guarded(b, r, id) && r.Still(e)
    requires (e.Follow? || e.Begin?) ==> e.id != id
    ensures Guarded(Next(b, e), r, id)
  {
    if Enabled(b, e) {
      NextFiled(b, e);
      NextUniform(b, e, r);
      if e.Settle? {
        SettleGuards(b, e, r, id);
      } else if e.Seen? {
        SeenGuards(b, e, r, id);
      } else {
        OthersGuard(b, e, r, id);
      }
    }
  }

  lemma {:induction false} GuardedOn(b: Board, events: seq<Event>, r: Rest, id: Id)
    requires Guarded(b, r, id) && Quiescent(r, events, id)
    ensures Guarded(After(b, events), r, id)
  {
    if events != [] {
      GuardedOn(b, events[..|events| - 1], r, id);
      NextGuards(After(b, events[..|events| - 1]), events[|events| - 1], r, id);
    }
  }

  // ---------------------------------------------------------------- a run that wakes

  lemma {:induction false} AfterTwice(b: Board, xs: seq<Event>, ys: seq<Event>)
    ensures After(b, xs + ys) == After(After(b, xs), ys)
  {
    if ys == [] {
      assert xs + ys == xs;
    } else {
      assert (xs + ys)[..|xs + ys| - 1] == xs + ys[..|ys| - 1];
      AfterTwice(b, xs, ys[..|ys| - 1]);
    }
  }

  lemma AfterOne(b: Board, e: Event)
    ensures After(b, [e]) == Next(b, e)
  {
    assert [e][..0] == [];
  }

  /** An observation of a follower that ends without a word. */
  function Lost(r: Rest, id: Id): Event { Seen(id, r.reading, r.since, r.since, false) }

  /** One follower more is passed over by the finishing input. */
  lemma PassOver(b: Board, r: Rest, input: Id, f: Id) returns (events: seq<Event>)
    requires input in b.finishing && f in b.finishing[input].left
    ensures var n := After(b, events);
      && n.rows == b.rows && n.flights == b.flights - {f} && input in n.finishing
      && n.finishing[input].left == b.finishing[input].left - {f}
    ensures forall e :: e in events ==> r.Still(e) && !e.Follow? && !e.Begin?
  {
    var ready := if f in b.flights then Next(b, Lost(r, f)) else b;
    var settle := Settle(input, f, false, true);
    AfterOne(b, Lost(r, f));
    AfterOne(ready, settle);
    assert f in ready.rows ==> ready.rows[f := ready.rows[f]] == ready.rows;
    if f in b.flights {
      events := [Lost(r, f)] + [settle];
      AfterTwice(b, [Lost(r, f)], [settle]);
    } else {
      events := [settle];
    }
  }

  lemma {:induction false} PassOverAll(b: Board, r: Rest, input: Id) returns (events: seq<Event>)
    requires input in b.finishing
    ensures var n := After(b, events);
      n.rows == b.rows && n.flights.Keys <= b.flights.Keys && input in n.finishing && n.finishing[input].left == {}
    ensures forall e :: e in events ==> r.Still(e) && !e.Follow? && !e.Begin?
    decreases |b.finishing[input].left|
  {
    events := [];
    if f :| f in b.finishing[input].left {
      var first := PassOver(b, r, input, f);
      var rest := PassOverAll(After(b, first), r, input);
      AfterTwice(b, first, rest);
      events := first + rest;
    }
  }

  /** An input can end without touching a follower. */
  lemma Retired(b: Board, r: Rest, input: Id) returns (events: seq<Event>)
    requires input in b.rows && b.rows[input].following.None?
    ensures var n := After(b, events); n.rows == b.rows - {input} && n.flights.Keys <= b.flights.Keys
    ensures forall e :: e in events ==> r.Still(e) && !e.Follow? && !e.Begin?
  {
    var start: seq<Event> := if input in b.finishing then [] else [Event.Finish(input)];
    AfterOne(b, Event.Finish(input));
    var rest := PassOverAll(After(b, start), r, input);
    AfterTwice(b, start, rest);
    AfterTwice(b, start + rest, [Remove(input)]);
    AfterOne(After(b, start + rest), Remove(input));
    events := start + rest + [Remove(input)];
  }

  function Inputs(rows: Rows): set<Id> { set id | id in rows && rows[id].following.None? }

  lemma {:induction false} AllRetired(b: Board, r: Rest, id: Id) returns (events: seq<Event>)
    requires id in b.rows && b.rows[id].following.Some? && id !in b.flights
    ensures var n := After(b, events);
      !InputOwns(n.rows) && id in n.rows && n.rows[id] == b.rows[id] && id !in n.flights
    ensures forall e :: e in events ==> r.Still(e) && !e.Follow? && !e.Begin?
    decreases |Inputs(b.rows)|
  {
    events := [];
    if InputOwns(b.rows) {
      var input :| input in b.rows && b.rows[input].following.None?;
      var first := Retired(b, r, input);
      assert Inputs(b.rows - {input}) == Inputs(b.rows) - {input};
      var rest := AllRetired(After(b, first), r, id);
      AfterTwice(b, first, rest);
      events := first + rest;
    }
  }

  /** Once no input owns the terminal, one tick wakes the follower. */
  lemma TickWakes(b: Board, r: Rest, id: Id)
    requires !InputOwns(b.rows) && id in b.rows && b.rows[id].Dormant() && id !in b.flights
    requires Wakes(b.rows[id], r.reading)
    ensures !Sleeps(After(b, [Look(id), Seen(id, r.reading, r.since, r.since, true)]), id)
  {
    AfterOne(b, Look(id));
    AfterTwice(b, [Look(id)], [Seen(id, r.reading, r.since, r.since, true)]);
    AfterOne(Next(b, Look(id)), Seen(id, r.reading, r.since, r.since, true));
    assert [Look(id)] + [Seen(id, r.reading, r.since, r.since, true)]
      == [Look(id), Seen(id, r.reading, r.since, r.since, true)];
  }

  lemma WakingRun(b: Board, r: Rest, id: Id) returns (events: seq<Event>)
    requires id in b.rows && b.rows[id].Dormant() && id !in b.flights && Wakes(b.rows[id], r.reading)
    ensures Quiescent(r, events, id) && !Sleeps(After(b, events), id)
  {
    var first := AllRetired(b, r, id);
    var tick := [Look(id), Seen(id, r.reading, r.since, r.since, true)];
    TickWakes(After(b, first), r, id);
    AfterTwice(b, first, tick);
    events := first + tick;
  }

  // ---------------------------------------------------------------- a run that misleads

  /** An ending that has begun can be broken off. */
  lemma BrokenOff(b: Board, r: Rest, input: Id) returns (events: seq<Event>)
    requires input in b.finishing && b.finishing[input].left != {}
    ensures var n := After(b, events);
      n.rows == b.rows && n.flights.Keys <= b.flights.Keys && n.finishing == b.finishing - {input}
    ensures forall e :: e in events ==> r.Still(e) && !e.Follow? && !e.Begin?
  {
    var f :| f in b.finishing[input].left;
    var ready := if f in b.flights then Next(b, Lost(r, f)) else b;
    var stop := Settle(input, f, true, false);
    AfterOne(b, Lost(r, f));
    AfterOne(ready, stop);
    if f in b.flights {
      AfterTwice(b, [Lost(r, f)], [stop]);
      events := [Lost(r, f)] + [stop];
    } else {
      events := [stop];
    }
  }

  /** An input that may settle a follower can do so with the row it has now. */
  lemma SettledBy(b: Board, r: Rest, input: Id, id: Id) returns (events: seq<Event>)
    requires Filed(b) && MaySettle(b, input) && id in b.rows && b.rows[id].following.Some? && id !in b.flights
    ensures var n := After(b, events);
      id in n.rows && n.rows[id] == Adopted(b.rows[id], b.rows[input], true) && id !in n.flights
    ensures forall e :: e in events ==> r.Still(e) && !e.Follow? && !e.Begin?
  {
    var settle := Settle(input, id, true, true);
    if input in b.finishing && id in b.finishing[input].left {
      AfterOne(b, settle);
      events := [settle];
    } else {
      var first: seq<Event> := [];
      if input in b.finishing { first := BrokenOff(b, r, input); }
      var free := After(b, first);
      AfterOne(free, Event.Finish(input));
      AfterOne(Next(free, Event.Finish(input)), settle);
      AfterTwice(b, first, [Event.Finish(input)]);
      AfterTwice(b, first + [Event.Finish(input)], [settle]);
      events := first + [Event.Finish(input)] + [settle];
    }
  }

  /** One more read at rest leaves the follower up to date. */
  lemma BroughtUpToDate(b: Board, r: Rest, id: Id)
    requires id in b.rows && b.rows[id].Dormant() && id !in b.flights && !Wakes(b.rows[id], r.reading)
    ensures var n := After(b, [Look(id)] + [Seen(id, r.reading, r.since, r.since, true)]);
      && n == b.(rows := n.rows) && id in n.rows
      && n.rows == b.rows[id := b.rows[id].Synced(r.reading, r.since, r.since)]
  {
    AfterOne(b, Look(id));
    AfterTwice(b, [Look(id)], [Seen(id, r.reading, r.since, r.since, true)]);
    AfterOne(Next(b, Look(id)), Seen(id, r.reading, r.since, r.since, true));
    assert b.flights[id := b.rows[id]] - {id} == b.flights;
  }

  /** An input that threatens a follower has a run in which it misleads it, and then one
      tick wakes it. */
  lemma MisleadingRun(b: Board, r: Rest, input: Id, id: Id) returns (events: seq<Event>)
    requires Filed(b) && id in b.rows && b.rows[id].Dormant() && id !in b.flights && !Wakes(b.rows[id], r.reading)
    requires MaySettle(b, input) && r.Threatens(b.rows[input], b.rows[id])
    ensures Quiescent(r, events, id) && !Sleeps(After(b, events), id)
  {
    var first: seq<Event> := [];
    if !Adopts(b.rows[id], b.rows[input], true) {
      first := [Look(id)] + [Seen(id, r.reading, r.since, r.since, true)];
      BroughtUpToDate(b, r, id);
    }
    var ready := After(b, first);
    assert ready.rows[input] == b.rows[input] && MaySettle(ready, input) && Filed(ready);
    var next := SettledBy(ready, r, input, id);
    var last := WakingRun(After(ready, next), r, id);
    AfterTwice(b, first, next);
    AfterTwice(b, first + next, last);
    events := first + next + last;
  }

  // ---------------------------------------------------------------- one completion, one card

  /** While the terminal rests, a dormant follower recorded at rest stays dormant over
      every run if and only if the reading does not wake it and no input that may still
      settle it was recorded at rest with a state that does. */
  lemma SleepsForGoodIff(b: Board, r: Rest, id: Id)
    requires Filed(b) && AllUniform(b, r)
    requires id in b.rows && b.rows[id].Dormant() && id !in b.flights
    requires b.rows[id].syncedAt.Some? && b.rows[id].syncedAt.value >= r.since
    ensures (forall events :: Quiescent(r, events, id) ==> Sleeps(After(b, events), id)) <==>
      !Wakes(b.rows[id], r.reading) && Safe(b, r, id)
  {
    if Wakes(b.rows[id], r.reading) {
      var events := WakingRun(b, r, id);
    } else if !Safe(b, r, id) {
      var input :| MaySettle(b, input) && r.Threatens(b.rows[input], b.rows[id]);
      var events := MisleadingRun(b, r, input, id);
    } else {
      forall events | Quiescent(r, events, id) ensures Sleeps(After(b, events), id) { GuardedOn(b, events, r, id); }
    }
  }

  /** The finishing input, whose read was taken at rest, settles a dormant follower. */
  predicate Settles(b: Board, r: Rest, input: Id, follower: Id) {
    && Enabled(b, Settle(input, follower, true, true))
    && b.finishing[input].row.taken.Some? && b.finishing[input].row.taken.value >= r.since
    && follower in b.rows && b.rows[follower].Dormant()
  }

  /** What settling leaves of the follower. */
  lemma SettledRow(b: Board, r: Rest, input: Id, follower: Id)
    requires AllDated(b, r) && Settles(b, r, input, follower)
    ensures var row, n := b.rows[follower], Next(b, Settle(input, follower, true, true));
      && follower in n.rows && n.rows[follower] == Adopted(row, b.finishing[input].row, true) && n.flights == b.flights
      && n.rows[follower].Dormant() && n.rows[follower].syncedAt.Some? && n.rows[follower].syncedAt.value >= r.since
      && (Wakes(n.rows[follower], r.reading) <==>
          !Adopts(row, b.finishing[input].row, true) && Wakes(row, r.reading))
      && (Adopts(row, b.finishing[input].row, true) ==> n.rows[follower].Says(r.reading))
  {
    assert r.Dated(b.finishing[input].row) && r.Dated(b.rows[follower]);
  }

  /** Exactly when one completion becomes two cards, on a terminal that reports numbers
      always or never and rests since a moment before the finishing input read it.  The
      settled follower stays dormant over every later run if and only if the guards adopt
      the input's read, or what the follower recorded last does not differ from the
      terminal in a way that wakes it; and no input that may still settle it was recorded
      at rest with a state that does. */
  lemma SecondCardIff(b: Board, r: Rest, input: Id, follower: Id)
    requires AllDated(b, r) && AllUniform(b, r) && Filed(b) && Settles(b, r, input, follower)
    ensures var row, n := b.rows[follower], Next(b, Settle(input, follower, true, true));
      follower in n.rows &&
      ((forall events :: Quiescent(r, events, follower) ==> Sleeps(After(n, events), follower)) <==>
        (Adopts(row, b.finishing[input].row, true) || !Wakes(row, r.reading)) && Safe(n, r, follower))
  {
    var e := Settle(input, follower, true, true);
    SettledRow(b, r, input, follower);
    NextFiled(b, e);
    NextUniform(b, e, r);
    SleepsForGoodIff(Next(b, e), r, follower);
  }

  /** The record of the follower is not younger than the input's, or was read at rest. */
  predicate InTime(row: Row, saved: Row, r: Rest) {
    || saved.syncedAt.None? || (row.syncedAt.Some? && saved.syncedAt.value <= row.syncedAt.value)
    || (saved.taken.Some? && saved.taken.value >= r.since)
  }

  lemma InTimeSettles(b: Board, r: Rest, input: Id, follower: Id)
    requires AllDated(b, r) && Settles(b, r, input, follower) && InTime(b.finishing[input].row, b.rows[follower], r)
    ensures var n := Next(b, Settle(input, follower, true, true));
      follower in n.rows && n.rows[follower].Says(r.reading)
  {
    SettledRow(b, r, input, follower);
    assert r.Dated(b.finishing[input].row) && r.Dated(b.rows[follower]);
  }

  // ---------------------------------------------------------------- terminals that count

  ghost predicate AllRecorded(b: Board, r: Rest) {
    && (forall id :: id in b.rows ==> r.Recorded(b.rows[id]))
    && (forall id :: id in b.flights ==> r.Recorded(b.flights[id]))
    && (forall id :: id in b.finishing ==> r.Recorded(b.finishing[id].row))
  }

  lemma NextRecorded(b: Board, e: Event, r: Rest)
    requires AllRecorded(b, r) && r.Counted(e)
    ensures AllRecorded(Next(b, e), r)
  {
  }

  lemma {:induction false} RunsAreRecorded(events: seq<Event>, r: Rest)
    requires forall e :: e in events ==> r.Counted(e)
    ensures AllRecorded(After(EMPTY, events), r)
  {
    if events != [] {
      RunsAreRecorded(events[..|events| - 1], r);
      NextRecorded(After(EMPTY, events[..|events| - 1]), events[|events| - 1], r);
    }
  }

  /** Dormant, and says exactly what the terminal shows; so does an observation of it. */
  predicate Level(b: Board, r: Rest, id: Id) {
    && (id in b.rows ==> b.rows[id].Dormant() && b.rows[id].Says(r.reading))
    && (id in b.flights ==> b.flights[id].Dormant() && b.flights[id].Says(r.reading))
  }

  /** Anybody may still record what it read before; the follower itself looks again only
      after it was settled. */
  predicate Later(r: Rest, events: seq<Event>, id: Id) {
    forall e :: e in events ==>
      r.Counted(e) && ((e.Follow? || e.Begin?) ==> e.id != id) && (e.Seen? && e.id == id ==> r.Still(e))
  }

  lemma NextLevel(b: Board, e: Event, r: Rest, id: Id)
    requires AllRecorded(b, r) && Level(b, r, id) && r.reading.sequence.Some?
    requires ((e.Follow? || e.Begin?) ==> e.id != id) && (e.Seen? && e.id == id ==> r.Still(e))
    ensures Level(Next(b, e), r, id)
  {
  }

  lemma {:induction false} LevelOn(b: Board, events: seq<Event>, r: Rest, id: Id)
    requires AllRecorded(b, r) && Level(b, r, id) && r.reading.sequence.Some? && Later(r, events, id)
    ensures AllRecorded(After(b, events), r) && Level(After(b, events), r, id)
  {
    if events != [] {
      LevelOn(b, events[..|events| - 1], r, id);
      NextRecorded(After(b, events[..|events| - 1]), events[|events| - 1], r);
      NextLevel(After(b, events[..|events| - 1]), events[|events| - 1], r, id);
    }
  }

  /** One completion, one card, on a terminal that counts its changes.  Whatever happened
      before, with honest reads recorded in any order: once the finishing input settles a
      dormant follower, that follower stays dormant on every later tick, whichever
      observations and inputs come and go and however late they record what they read
      before, provided its own last record is not younger than the input's, or was read
      after the terminal had come to rest. */
  lemma OneCompletionOneCard(before: seq<Event>, after: seq<Event>, r: Rest, input: Id, follower: Id)
    requires r.reading.sequence.Some? && forall e :: e in before ==> r.Honest(e) && r.Counted(e)
    requires var b := After(EMPTY, before);
      Settles(b, r, input, follower) && InTime(b.finishing[input].row, b.rows[follower], r)
    requires Later(r, after, follower)
    ensures Sleeps(After(Next(After(EMPTY, before), Settle(input, follower, true, true)), after), follower)
  {
    var b, e := After(EMPTY, before), Settle(input, follower, true, true);
    RunsAreDated(before, r);
    RunsAreRecorded(before, r);
    InTimeSettles(b, r, input, follower);
    SettledRow(b, r, input, follower);
    NextRecorded(b, e, r);
    LevelOn(Next(b, e), after, r, follower);
  }

  // ---------------------------------------------------------------- records in order

  /** The same on any terminal, with or without numbers, if no input recorded at rest
      what it read before. */
  lemma InOrderOneCard(before: seq<Event>, after: seq<Event>, r: Rest, input: Id, follower: Id)
    requires forall e :: e in before ==> r.Honest(e)
    requires var b := After(EMPTY, before);
      InputsInOrder(b, r) && Settles(b, r, input, follower) && InTime(b.finishing[input].row, b.rows[follower], r)
    requires Quiescent(r, after, follower)
    ensures Sleeps(After(Next(After(EMPTY, before), Settle(input, follower, true, true)), after), follower)
  {
    var b, e := After(EMPTY, before), Settle(input, follower, true, true);
    RunsAreDated(before, r);
    InTimeSettles(b, r, input, follower);
    SettledRow(b, r, input, follower);
    SettledInputsConfirm(b, r, input, follower);
    RestsOn(Next(b, e), after, r, follower);
  }

  lemma SettledInputsConfirm(b: Board, r: Rest, input: Id, follower: Id)
    requires AllDated(b, r) && InputsInOrder(b, r) && Settles(b, r, input, follower)
    ensures InputsConfirm(Next(b, Settle(input, follower, true, true)), r)
  {
  }

  /** Records in order threaten nobody. */
  lemma InOrderIsSafe(b: Board, r: Rest, id: Id)
    requires InputsConfirm(b, r) && id in b.rows
    ensures Safe(b, r, id)
  {
  }

  // ---------------------------------------------------------------- two ways to a second card

  const END := Reading(Idle, Some(2))
  const WORKING := Reading(Working, Some(1))
  const LATE := Row(Some(false), Some(Working), Some(1), Some(6), false, Some(3))
  const DONE := Row(None, Some(Idle), Some(2), Some(5), false, Some(5))

  /** The follower looks while the terminal works; the terminal comes to rest; the input
      reads the end; only then the follower records what it saw. */
  const REORDERED: seq<Event> :=
    [Follow("f"), Begin("i"), Look("f"), Read("i", END, 5, 5, true), Seen("f", WORKING, 3, 6, true), Finish("i")]

  lemma ReorderedBoard()
    ensures After(EMPTY, REORDERED) == Board(map["f" := LATE, "i" := DONE], map[], map["i" := Ending(DONE, {"f"})])
  {
    var e := REORDERED;
    assert e[..6] == e && e[..0] == [];
    assert e[..6][..5] == e[..5] && e[..5][..4] == e[..4] && e[..4][..3] == e[..3] && e[..3][..2] == e[..2]
      && e[..2][..1] == e[..1]
        && e[..1][..0] == e[..0];
    var b3 := Board(map["f" := NEW_FOLLOWER, "i" := NEW_INPUT], map["f" := NEW_FOLLOWER], map[]);
    assert After(EMPTY, e[..1]) == Board(map["f" := NEW_FOLLOWER], map[], map[]);
    assert After(EMPTY, e[..2]) == Board(map["f" := NEW_FOLLOWER, "i" := NEW_INPUT], map[], map[]);
    assert After(EMPTY, e[..3]) == b3;
    ReorderedEnd(b3);
    assert After(EMPTY, e[..4]) == Next(b3, e[3]) && After(EMPTY, e[..5]) == Next(Next(b3, e[3]), e[4]);
  }

  lemma ReorderedEnd(b: Board)
    requires b == Board(map["f" := NEW_FOLLOWER, "i" := NEW_INPUT], map["f" := NEW_FOLLOWER], map[])
    ensures Next(Next(Next(b, Read("i", END, 5, 5, true)), Seen("f", WORKING, 3, 6, true)), Finish("i"))
         == Board(map["f" := LATE, "i" := DONE], map[], map["i" := Ending(DONE, {"f"})])
  {
    var b4 := Next(b, Read("i", END, 5, 5, true));
    assert b4 == Board(map["f" := NEW_FOLLOWER, "i" := DONE], map["f" := NEW_FOLLOWER], map[]);
    assert "i" in b4.rows && InputOwns(b4.rows);
    var b5 := Next(b4, Seen("f", WORKING, 3, 6, true));
    assert b5 == Board(map["f" := LATE, "i" := DONE], map[], map[]);
    assert Followers(b5.rows) == {"f"};
  }

  lemma ReorderedHonest()
    ensures forall e :: e in REORDERED ==> Rest(END, 4).Honest(e) && Rest(END, 4).Counted(e)
  {
  }

  lemma LateRow(b: Board) returns (events: seq<Event>)
    requires b == Board(map["f" := LATE, "i" := DONE], map[], map["i" := Ending(DONE, {"f"})])
    ensures var r := Rest(END, 4);
      && Settles(b, r, "i", "f") && InputsInOrder(b, r) && Quiescent(r, events, "f")
      && !Sleeps(After(Next(b, Settle("i", "f", true, true)), events), "f")
  {
    var n := Next(b, Settle("i", "f", true, true));
    assert !Adopts(LATE, DONE, true) && n.rows["f"] == LATE;
    events := WakingRun(n, Rest(END, 4), "f");
  }

  /** The order of records matters: honest reads, a follower's taken at 3 and recorded
      at 6, the input's taken and recorded at 5.  The finishing input leaves the
      follower alone, and a later tick wakes it for the same end. */
  lemma LateRecordWakesFollower() returns (events: seq<Event>)
    ensures var r := Rest(END, 4);
      && (forall e :: e in REORDERED ==> r.Honest(e) && r.Counted(e)) && Quiescent(r, events, "f")
      && Settles(After(EMPTY, REORDERED), r, "i", "f") && InputsInOrder(After(EMPTY, REORDERED), r)
      && !Sleeps(After(Next(After(EMPTY, REORDERED), Settle("i", "f", true, true)), events), "f")
  {
    ReorderedBoard();
    ReorderedHonest();
    events := LateRow(After(EMPTY, REORDERED));
  }

  const FAILED := Reading(Failed, None)
  const RESTING := Reading(Idle, None)
  const OVERDUE := Row(Some(false), Some(Idle), None, Some(2), false, Some(2))
  const SEER := Row(None, Some(Failed), None, Some(5), false, Some(5))
  const STALE := Row(None, Some(Idle), None, Some(6), false, Some(3))

  /** Without numbers: the follower and then the input `b` read an idle terminal, which
      fails; the input `a` reads that; only then `b` records what it saw. */
  const FOLLOWED: seq<Event> := [Follow("f"), Look("f"), Seen("f", RESTING, 2, 2, true)]
  const BEGUN: seq<Event> := [Begin("a"), Begin("b")]
  const READ: seq<Event> := [Read("a", FAILED, 5, 5, true), Read("b", RESTING, 3, 6, true), Event.Finish("a")]
  const CROSSED: seq<Event> := FOLLOWED + BEGUN + READ
  const CROSSED_ROWS: Rows := map["f" := OVERDUE, "a" := SEER, "b" := STALE]

  lemma CrossedBoard()
    ensures After(EMPTY, CROSSED) == Board(CROSSED_ROWS, map[], map["a" := Ending(SEER, {"f"})])
  {
    CrossedStart();
    CrossedInputs(After(EMPTY, FOLLOWED));
    CrossedReads(After(After(EMPTY, FOLLOWED), BEGUN));
    AfterTwice(EMPTY, FOLLOWED, BEGUN);
    AfterTwice(EMPTY, FOLLOWED + BEGUN, READ);
  }

  lemma CrossedStart()
    ensures After(EMPTY, FOLLOWED) == Board(map["f" := OVERDUE], map[], map[])
  {
    var e := FOLLOWED;
    assert e[..2][..1] == e[..1] && e[..1][..0] == [];
    assert After(EMPTY, e[..1]) == Board(map["f" := NEW_FOLLOWER], map[], map[]);
    assert After(EMPTY, e[..2]) == Board(map["f" := NEW_FOLLOWER], map["f" := NEW_FOLLOWER], map[]);
    assert !InputOwns(map["f" := NEW_FOLLOWER]) && !Wakes(NEW_FOLLOWER, RESTING);
  }

  lemma CrossedInputs(b: Board)
    requires b == Board(map["f" := OVERDUE], map[], map[])
    ensures After(b, BEGUN) == Board(map["f" := OVERDUE, "a" := NEW_INPUT, "b" := NEW_INPUT], map[], map[])
  {
    var e := BEGUN;
    assert e[..1][..0] == [];
    assert After(b, e[..1]) == Board(map["f" := OVERDUE, "a" := NEW_INPUT], map[], map[]);
  }

  lemma CrossedReads(b: Board)
    requires b == Board(map["f" := OVERDUE, "a" := NEW_INPUT, "b" := NEW_INPUT], map[], map[])
    ensures After(b, READ) == Board(CROSSED_ROWS, map[], map["a" := Ending(SEER, {"f"})])
  {
    var e := READ;
    assert e[..2][..1] == e[..1] && e[..1][..0] == [];
    assert After(b, e[..1]) == Board(map["f" := OVERDUE, "a" := SEER, "b" := NEW_INPUT], map[], map[]);
    assert After(b, e[..2]) == Board(CROSSED_ROWS, map[], map[]);
    assert Followers(CROSSED_ROWS) == {"f"};
  }

  lemma CrossedHonest()
    ensures forall e :: e in CROSSED ==> Rest(FAILED, 4).Honest(e) && Rest(FAILED, 4).Counts(e)
  {
  }

  lemma CrossedRow(b: Board) returns (events: seq<Event>)
    requires b == Board(CROSSED_ROWS, map[], map["a" := Ending(SEER, {"f"})])
    ensures var r := Rest(FAILED, 4);
      && Settles(b, r, "a", "f") && Adopts(b.rows["f"], b.finishing["a"].row, true) && Quiescent(r, events, "f")
      && !Sleeps(After(Next(b, Settle("a", "f", true, true)), events), "f")
  {
    var r, n := Rest(FAILED, 4), Next(b, Settle("a", "f", true, true));
    assert Filed(b);
    NextFiled(b, Settle("a", "f", true, true));
    assert n.rows["b"] == STALE && MaySettle(n, "b") && r.Threatens(STALE, n.rows["f"]);
    events := MisleadingRun(n, r, "b", "f");
  }

  /** Another input can mislead the follower as well: the finishing input has brought it
      up to date, and then an input settles it with what it read before and recorded
      after; a later tick wakes it for the same end. */
  lemma StaleInputWakesFollower() returns (events: seq<Event>)
    ensures var r, b := Rest(FAILED, 4), After(EMPTY, CROSSED);
      && (forall e :: e in CROSSED ==> r.Honest(e) && r.Counts(e)) && Quiescent(r, events, "f")
      && Settles(b, r, "a", "f") && Adopts(b.rows["f"], b.finishing["a"].row, true)
      && !Sleeps(After(Next(b, Settle("a", "f", true, true)), events), "f")
  {
    CrossedBoard();
    CrossedHonest();
    events := CrossedRow(After(EMPTY, CROSSED));
  }

  // ---------------------------------------------------------------- the object

  class RuntimeObservationController {
    var rows: Rows
    /** `inFlight`, with the rows the observations started from. */
    var flights: map<Id, Row>
    var finishing: map<Id, Ending>

    function Abs(): Board reads this { Board(rows, flights, finishing) }

    constructor (rows: Rows)
      ensures Abs() == Board(rows, map[], map[])
    {
      this.rows, flights, finishing := rows, map[], map[];
    }

    /** `observe`: one observation of a row at a time. */
    method Observe(id: Id)
      modifies `flights
      ensures Abs() == Next(old(Abs()), Look(id))
    {
      if id in flights || id !in rows || rows[id].following.None? { return; }
      flights := flights[id := rows[id]];
    }

    /** A follower's observation, once its read has come. */
    method Follow(id: Id, actual: Reading, taken: nat, now: nat, ok: bool)
      requires id in flights
      modifies `rows, `flights
      ensures Abs() == Next(old(Abs()), Seen(id, actual, taken, now, ok))
    {
      var row := flights[id];
      flights := flights - {id};
      if !ok || id !in rows || rows[id].following.None? { return; }
      if InputOwns(rows) {
        rows := rows[id := Reset(rows[id], actual, taken, now)];
      } else if row.following == Some(true) {
        rows := rows[id := rows[id].Synced(actual, taken, now)];
      } else {
        var sequenceChanged := SequenceChanged(row, actual);
        var changed := row.lastState != Some(actual.state);
        var active := ((actual.state.Working? || actual.state.Blocked?) && (changed || sequenceChanged))
          || (row.lastState.Some? && changed && (actual.state.Failed? || actual.state.Exited?))
          || (sequenceChanged && (actual.state.Idle? || actual.state.Done?));
        row := row.(following := Some(active), syncedAt := Some(now));
        rows := rows[id := if active then row else row.Synced(actual, taken, now)];
      }
    }

    /** `finish` for an input whose followers are not being observed. */
    method Finish(id: Id, current: set<Id>)
      requires id in rows && rows[id].following.None? && id !in finishing
      requires Followers(rows) !! flights.Keys
      modifies `rows
      ensures id !in rows && rows.Keys == old(rows).Keys - {id}
      ensures forall f :: f in rows && old(rows)[f].following.None? ==> rows[f] == old(rows)[f]
      ensures forall f :: f in rows && old(rows)[f].following.Some? ==>
        rows[f] == Adopted(old(rows)[f], old(rows)[id], f in current)
    {
      var row := rows[id];
      var rest := Followers(rows);
      while rest != {}
        invariant rows.Keys == old(rows).Keys && rest <= Followers(old(rows))
        invariant forall f :: f in rows && (f in rest || f !in Followers(old(rows))) ==> rows[f] == old(rows)[f]
        invariant forall f :: f in Followers(old(rows)) - rest ==> rows[f] == Adopted(old(rows)[f], row, f in current)
        decreases |rest|
      {
        var follower :| follower in rest;
        var saved := rows[follower];
        rest := rest - {follower};
        if row.lastState.None? || row.syncedAt.None? || !saved.Dormant() || follower !in current { continue; }
        if (if saved.syncedAt.Some? then saved.syncedAt.value else 0) > row.syncedAt.value { continue; }
        if saved.lastSequence.Some? && row.lastSequence.Some? && saved.lastSequence.value > row.lastSequence.value {
          continue;
        }
        rows := rows[follower := saved.(lastState := row.lastState, lastSequence := row.lastSequence,
                                        syncedAt := row.syncedAt, taken := row.taken)];
      }
      rows := rows - {id};
    }
  }
}
