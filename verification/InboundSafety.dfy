/** What every run of the forwarding protocol keeps besides single submission: no
    saved message is lost, none is aimed at another binding, and a lane keeps the
    order in which its messages were saved. */
module InboundSafety {
  import opened Common
  import opened ReceiptLog
  import opened InboundReceipts
  import opened ForwardingInbox
  import opened InboxRows
  import opened InboundProtocol

  // ------------------------------------------------------- one step of the inbox

  /** The message whose row this step may give up, because it is settled. */
  ghost function Gone(s: Sys, t: Step): set<Key>
    requires Enabled(s, t)
  {
    match t
    case Tidy(key, _) => {key}
    case Deliver(key, _, _) => if KeepsOrder(s.Inbox(), Next(s, t).Inbox(), {}) then {} else {key}
    case Land(key, _) => if KeepsOrder(s.Inbox(), Next(s, t).Inbox(), {}) then {} else {key}
    case Acceptance(call, _, o, _, _, _) => if o.Returned() then {s.calls[call].key} else {}
    case Recovery(key, _, o, _, _, _) => if o.Returned() then {key} else {}
    case Cancel(key, _, o, _) => if Abandonable(s.Journal(), key) && o.Returned() then {key} else {}
    case _ => {}
  }

  predicate Stages(t: Step) { t.Intake? || t.Restage? }

  ghost predicate InboxStep(x: Inbox, y: Inbox, gone: set<Key>) {
    && Shaped(y) && x.clock <= y.clock
    && (forall k :: k !in gone ==> Keeps(x.rows, y.rows, k))
    && (y.disk == x.disk || forall k :: k !in gone ==> Keeps(x.rows, y.disk, k))
  }

  lemma SameInbox(x: Inbox)
    requires Shaped(x)
    ensures KeepsOrder(x, x, {})
  {
  }

  /** What a staging step stages. */
  function Staging(t: Step): (Message, Fresh, FileWrite)
    requires Stages(t)
  {
    if t.Intake? then (t.m, t.f, t.w) else (t.rm, t.rf, t.rw)
  }

  lemma StagesMoves(s: Sys, t: Step)
    requires Enabled(s, t) && Stages(t)
    ensures var (m, f, w) := Staging(t);
            Next(s, t).Inbox() == s.Inbox() || Next(s, t).Inbox() == Staged(s.Inbox(), m, f, w).0
  {
  }

  lemma ChangeMovesInbox(s: Sys, t: Step)
    requires Enabled(s, t) && Shaped(s.Inbox()) && (t.Acceptance? || t.Recovery?)
    ensures KeepsOrder(s.Inbox(), Next(s, t).Inbox(), Gone(s, t))
  {
    var x := s.Inbox();
    var key := if t.Acceptance? then s.calls[t.acall].key else t.rkey;
    var r := Patched(s.Journal().mem[key], if t.Acceptance? then t.change else t.rchange);
    SameInbox(x);
    if t.Acceptance? { AcceptedKeepsOrder(x, key, r, t.acurrent, t.aw, t.aw'); }
    else { AcceptedKeepsOrder(x, key, r, t.rcurrent, t.rw1, t.rw2); }
  }

  lemma InboxMoves(s: Sys, t: Step)
    requires Enabled(s, t) && Shaped(s.Inbox()) && !t.Crash?
    ensures InboxStep(s.Inbox(), Next(s, t).Inbox(), Gone(s, t))
    ensures !Stages(t) ==> Within(s.Inbox().rows, Next(s, t).Inbox().rows)
  {
    if Stages(t) {
      var (m, f, w) := Staging(t);
      StagedPreserves(s.Inbox(), m, f, w);
      StagesMoves(s, t);
    } else if t.Acceptance? || t.Recovery? {
      ChangeMovesInbox(s, t);
    } else {
      RowsMove(s, t);
    }
  }

  lemma RowsMove(s: Sys, t: Step)
    requires Enabled(s, t) && Shaped(s.Inbox()) && !t.Crash? && !Stages(t) && !t.Acceptance? && !t.Recovery?
    ensures KeepsOrder(s.Inbox(), Next(s, t).Inbox(), Gone(s, t))
  {
    var x := s.Inbox();
    SameInbox(x);
    match t
    case Tidy(key, w) => RemovePreserves(x, key, w);
    case Deliver(key, initial, e) => DeliveredPreserves(s.world, key, initial, e); DeliverMovesInbox(s, t);
    case Land(key, e) => LandedPreserves(s.world, key, s.flights[key].failed, e); LandMovesInbox(s, t);
    case Retry(key, _, target, now, w) => RetriedKeepsOrder(s.world, key, target, now, w);
    case Cancel(key, _, o, w) => RemovePreserves(x, key, w);
    case _ =>
  }

  lemma DeliverMovesInbox(s: Sys, t: Step)
    requires t.Deliver? && Enabled(s, t)
    ensures var y, d := Next(s, t).Inbox(), Delivered(s.world, t.key, t.initial, t.e).0.inbox;
            y.rows == d.rows && y.disk == d.disk && y.clock == d.clock
  {
  }

  lemma LandMovesInbox(s: Sys, t: Step)
    requires t.Land? && Enabled(s, t)
    ensures var y, d := Next(s, t).Inbox(), Landed(s.world, t.lkey, s.flights[t.lkey].failed, t.le).0.inbox;
            y.rows == d.rows && y.disk == d.disk && y.clock == d.clock
  {
  }

  // ------------------------------------------------------- no saved message is lost

  predicate SameOnDisk(x: Inbox, k: Key) {
    Has(x.rows, k) && Has(x.disk, k) && At(x.disk, k).message == At(x.rows, k).message
      && At(x.disk, k).stamp == At(x.rows, k).stamp
  }

  /** Nothing is owed for this message: it is finished, or it is not the message
      its receipt was issued for. */
  predicate Discardable(j: Journal, m: Message) {
    m.blankId || (m.key in j.mem && (Finished.Holds(j.mem[m.key]) || !m.Owns(j.mem[m.key])))
  }

  predicate RowDurable(s: Sys, k: Key) {
    Has(s.Inbox().rows, k) ==> SameOnDisk(s.Inbox(), k) || Discardable(s.Journal(), At(s.Inbox().rows, k).message)
  }

  /** Finished, or still among the rows of the sender its receipt names. */
  predicate Retained(s: Sys, k: Key) {
    && k in s.Journal().mem
    && (Finished.Holds(s.Journal().mem[k])
        || (Has(s.Inbox().rows, k) && !At(s.Inbox().rows, k).message.blankId
            && Everywhere(s.Journal(), k, Owned(At(s.Inbox().rows, k).message))))
  }

  ghost predicate SavedInv(s: Sys) {
    && AtMostOnceInv(s) && Shaped(s.Inbox())
    && (forall k :: RowDurable(s, k))
    && (forall k :: k in s.saved ==> Retained(s, k))
  }

  /** Sender and conversation of a receipt never change while the process lives. */
  predicate OwnerKept(j: Journal, j': Journal, k: Key, m: Message) {
    k in j.mem ==> k in j'.mem && m.Owns(j'.mem[k]) == m.Owns(j.mem[k])
  }

  lemma ChangeKeepsOwner(j: Journal, key: Key, c: Change, o: SaveOutcome, k: Key, m: Message)
    requires key in j.mem
    ensures OwnerKept(j, AfterChange(j, key, c, o), k, m)
  {
  }

  lemma EnterKeepsOwner(j: Journal, n: Message, o: SaveOutcome, k: Key, m: Message)
    ensures OwnerKept(j, EnterHandle(j, n, o).1, k, m)
  {
  }

  lemma HandleKeepsOwner(j: Journal, key: Key, failed: Option<Failure>, o: SaveOutcome, o': SaveOutcome, k: Key,
                         m: Message)
    requires key in j.mem
    ensures OwnerKept(j, AfterHandle(j, key, failed, o, o'), k, m)
  {
  }

  lemma ClaimKeepsOwner(j: Journal, n: Message, o: SaveOutcome, k: Key, m: Message)
    requires Claimable(j, n)
    ensures OwnerKept(j, AfterClaim(j, n, o), k, m)
    ensures OwnerKept(j, AfterRelease(AfterClaim(j, n, o), n.key), k, m)
  {
  }

  lemma OwnerStays(s: Sys, t: Step, j': Journal, k: Key, m: Message)
    requires Enabled(s, t) && JournalStep(s, t, j') && !t.Crash? && k in s.Journal().mem
    ensures k in j'.mem && m.Owns(j'.mem[k]) == m.Owns(s.Journal().mem[k])
  {
    var j := s.Journal();
    match t
    case Intake(n, _, o, _) => if Claimable(j, n) { ClaimKeepsOwner(j, n, o, k, m); }
    case Deliver(key, _, e) => EnterKeepsOwner(j, At(s.Inbox().rows, key).message, e.claim, k, m);
    case Submission(key, scope, o) => ChangeKeepsOwner(j, key, Submit(scope), o, k, m);
    case ThreadCreated(call, scope, o) => ChangeKeepsOwner(j, s.calls[call].key, Submit(scope), o, k, m);
    case Acceptance(call, c, o, _, _, _) => ChangeKeepsOwner(j, s.calls[call].key, c, o, k, m);
    case TerminalDoubt(call, o) => ChangeKeepsOwner(j, s.calls[call].key, TerminalUnconfirmed, o, k, m);
    case Finish(key, failed, o, o') => HandleKeepsOwner(j, key, failed, o, o', k, m);
    case Recovery(key, c, o, _, _, _) => ChangeKeepsOwner(j, key, c, o, k, m);
    case ResultSent(key, c, o) => ChangeKeepsOwner(j, key, c, o, k, m);
    case Cancel(key, _, o, _) =>
    case _ =>
  }

  lemma FinishedStays(s: Sys, t: Step, j': Journal, k: Key)
    requires AtMostOnceInv(s) && Enabled(s, t) && JournalStep(s, t, j')
    requires k in s.Journal().mem && Finished.Holds(s.Journal().mem[k])
    ensures k in j'.mem && Finished.Holds(j'.mem[k])
  {
    assert FinishDurable(s.Journal(), k);
    StepKeeps(s, t, j', k, Finished);
  }

  /** A row is given up only for a message that is finished or foreign. */
  lemma GoneIsSettled(s: Sys, t: Step, k: Key)
    requires SavedInv(s) && Enabled(s, t) && k in Gone(s, t) && Has(s.Inbox().rows, k)
    ensures Discardable(Next(s, t).Journal(), At(s.Inbox().rows, k).message)
  {
    var s' := Next(s, t);
    JournalMoves(s, t);
    match t
    case Tidy(key, _) =>
    case Deliver(key, initial, e) => DeliverGone(s, t, k);
    case Land(key, e) => LandGone(s, t, k);
    case Acceptance(call, c, o, _, _, _) => assert s'.Journal().mem[k] == Patched(s.Journal().mem[k], c);
    case Recovery(key, c, o, _, _, _) => assert s'.Journal().mem[k] == Patched(s.Journal().mem[k], c);
    case Cancel(key, _, o, _) => assert s'.Journal().mem[k].phase.Handled?;
  }

  lemma DeliverGone(s: Sys, t: Step, k: Key)
    requires SavedInv(s) && t.Deliver? && Enabled(s, t) && k in Gone(s, t) && Has(s.Inbox().rows, k)
    ensures Discardable(Next(s, t).Journal(), At(s.Inbox().rows, k).message)
  {
    var s', m := Next(s, t), At(s.Inbox().rows, k).message;
    JournalMoves(s, t);
    DeliveredPreserves(s.world, k, t.initial, t.e);
    DeliverMovesInbox(s, t);
    if Done(PhaseOf(s.Journal(), k)) {
      FinishedStays(s, t, s'.Journal(), k);
    } else if !Done(PhaseOf(s'.Journal(), k)) {
      assert HandleEntry(s.world, k, t.e).0.Skipped?;
      assert FlightKnown(s, k) && ClaimFresh(s.Journal(), k);
      if k in s.Journal().mem { OwnerStays(s, t, s'.Journal(), k, m); }
    }
  }

  lemma LandGone(s: Sys, t: Step, k: Key)
    requires SavedInv(s) && t.Land? && Enabled(s, t) && k in Gone(s, t) && Has(s.Inbox().rows, k)
    ensures Discardable(Next(s, t).Journal(), At(s.Inbox().rows, k).message)
  {
    LandedPreserves(s.world, k, s.flights[k].failed, t.le);
    LandMovesInbox(s, t);
    LandJournal(s, t);
    assert FlightKnown(s, k);
  }

  lemma LandJournal(s: Sys, t: Step)
    requires t.Land? && Enabled(s, t)
    ensures Next(s, t).Journal() == s.Journal()
  {
  }

  lemma KeepsRowDurable(s: Sys, t: Step, k: Key)
    requires SavedInv(s) && Enabled(s, t) && !t.Crash? && !Stages(t)
    ensures RowDurable(Next(s, t), k)
  {
    var s' := Next(s, t);
    InboxMoves(s, t);
    JournalMoves(s, t);
    if Has(s'.Inbox().rows, k) {
      var m := At(s.Inbox().rows, k).message;
      assert Has(s.Inbox().rows, k) && At(s'.Inbox().rows, k).message == m;
      assert RowDurable(s, k);
      if k in Gone(s, t) {
        GoneIsSettled(s, t, k);
      } else if Discardable(s.Journal(), m) {
        DiscardableStays(s, t, s'.Journal(), m);
      } else {
        assert Keeps(s.Inbox().rows, s'.Inbox().rows, k);
      }
    }
  }

  lemma DiscardableStays(s: Sys, t: Step, j': Journal, m: Message)
    requires AtMostOnceInv(s) && Enabled(s, t) && JournalStep(s, t, j') && !t.Crash? && Discardable(s.Journal(), m)
    ensures Discardable(j', m)
  {
    if !m.blankId {
      OwnerStays(s, t, j', m.key, m);
      if Finished.Holds(s.Journal().mem[m.key]) { FinishedStays(s, t, j', m.key); }
    }
  }

  lemma KeepsRetained(s: Sys, t: Step, k: Key)
    requires SavedInv(s) && Enabled(s, t) && !t.Crash? && Retained(s, k)
    ensures Retained(Next(s, t), k)
  {
    var s' := Next(s, t);
    InboxMoves(s, t);
    JournalMoves(s, t);
    if Finished.Holds(s.Journal().mem[k]) {
      FinishedStays(s, t, s'.Journal(), k);
    } else {
      var m := At(s.Inbox().rows, k).message;
      StepKeeps(s, t, s'.Journal(), k, Owned(m));
      if k in Gone(s, t) { GoneIsSettled(s, t, k); }
      else { assert Keeps(s.Inbox().rows, s'.Inbox().rows, k); }
    }
  }

  /** The steps that put a row on file. */
  lemma StagedRowDurable(s: Sys, t: Step, k: Key)
    requires SavedInv(s) && Enabled(s, t) && Stages(t)
    ensures RowDurable(Next(s, t), k)
  {
    var (m, f, w) := Staging(t);
    var s' := Next(s, t);
    JournalMoves(s, t);
    StagesMoves(s, t);
    assert RowDurable(s, k);
    if Has(s.Inbox().rows, k) && Discardable(s.Journal(), At(s.Inbox().rows, k).message) {
      DiscardableStays(s, t, s'.Journal(), At(s.Inbox().rows, k).message);
    }
    if s'.Inbox() != s.Inbox() { StagedOnDisk(s.Inbox(), m, f, w, k); }
  }

  lemma StagedOnDisk(x: Inbox, m: Message, f: Fresh, w: FileWrite, k: Key)
    requires Shaped(x)
    ensures var y := Staged(x, m, f, w).0;
            && (Has(x.rows, k) ==> Has(y.rows, k) && At(y.rows, k).message == At(x.rows, k).message)
            && (Has(x.rows, k) && SameOnDisk(x, k) ==> SameOnDisk(y, k))
            && (!Has(x.rows, k) && Has(y.rows, k) ==> SameOnDisk(y, k))
  {
    StagedPreserves(x, m, f, w);
    StagedReturns(x, m, f, w);
    var y := Staged(x, m, f, w).0;
    assert Keeps(x.rows, y.rows, k) && (y.disk == x.disk || Keeps(x.rows, y.disk, k));
  }

  /** A claim that returns true has saved the message for its sender. */
  lemma ClaimedIsRetained(s: Sys, t: Step)
    requires SavedInv(s) && Enabled(s, t) && t.Intake? && Claimed(s.world, t.m, t.f, t.o, t.w).1 == Reply.Returned(true)
    ensures Retained(Next(s, t), t.m.key)
  {
    StagedReturns(s.Inbox(), t.m, t.f, t.w);
    assert Next(s, t).Journal() == AfterClaim(s.Journal(), t.m, t.o);
  }

  lemma RestartRetains(s: Sys, t: Step, k: Key)
    requires SavedInv(s) && t.Crash? && Enabled(s, t) && Retained(s, k)
    ensures Retained(Next(s, t), k)
  {
    if Finished.Holds(s.Journal().mem[k]) {
      assert FinishDurable(s.Journal(), k);
      RestartKeeps(s.Journal(), t.tornSurvived, k, Finished);
    } else {
      assert RowDurable(s, k);
      RestartKeeps(s.Journal(), t.tornSurvived, k, Owned(At(s.Inbox().rows, k).message));
    }
  }

  lemma KeepsSavedInv(s: Sys, t: Step)
    requires SavedInv(s) && Enabled(s, t)
    ensures SavedInv(Next(s, t))
  {
    var s' := Next(s, t);
    KeepsAtMostOnce(s, t);
    if !t.Crash? { InboxMoves(s, t); }
    forall k ensures RowDurable(s', k) {
      if t.Crash? {
      } else if Stages(t) {
        StagedRowDurable(s, t, k);
      } else {
        KeepsRowDurable(s, t, k);
      }
    }
    forall k | k in s'.saved ensures Retained(s', k) {
      if k in s.saved {
        if t.Crash? { RestartRetains(s, t, k); } else { KeepsRetained(s, t, k); }
      } else {
        ClaimedIsRetained(s, t);
      }
    }
  }

  lemma {:induction false} EveryStateSaves(states: seq<Sys>, steps: seq<Step>, n: nat)
    requires Run(states, steps) && n < |states|
    ensures SavedInv(states[n])
  {
    if n > 0 {
      EveryStateSaves(states, steps, n - 1);
      KeepsSavedInv(states[n - 1], steps[n - 1]);
    }
  }

  /** No saved message is lost.  Once a claim has returned true, at every later
      moment of every run either every copy of its receipt says finished (accepted,
      handled, or terminal input left unconfirmed), or the message is on disk, as
      saved by the sender its receipt names, and a crash brings it back. */
  lemma NoSavedMessageIsLost(states: seq<Sys>, steps: seq<Step>, n: nat, k: Key, torn: bool)
    requires Run(states, steps) && n < |states| && k in states[n].saved
    ensures var (j, x) := (states[n].Journal(), states[n].Inbox());
            || Everywhere(j, k, Finished)
            || (Has(x.disk, k) && Has(x.rows, k) && At(x.disk, k).message == At(x.rows, k).message
                && Everywhere(j, k, Owned(At(x.disk, k).message))
                && At(x.disk, k).message.Owns(Restarted(j, torn).mem[k]))
  {
    var s := states[n];
    EveryStateSaves(states, steps, n);
    assert RowDurable(s, k) && FinishDurable(s.Journal(), k);
    if !Finished.Holds(s.Journal().mem[k]) {
      RestartKeeps(s.Journal(), torn, k, Owned(At(s.Inbox().rows, k).message));
    }
  }

  // ------------------------------------------------------- no message is redirected

  /** `t` is the target `a`, or `a` with the thread that an exact acceptance of an
      input for this very session and host created first. */
  predicate Follows(a: Option<Target>, t: Option<Target>, firsts: set<(string, string, string)>) {
    || t == a
    || (&& a.Some? && t.Some? && !Truthy(a.value.threadId) && Truthy(t.value.threadId)
       && a.value.Base() == t.value.Base()
        && (t.value.sessionId, t.value.hostId, t.value.threadId.value) in firsts)
  }

  /** A target that was captured when the message was staged, or that an explicit
      retry of this message named; at most completed by its first thread. */
  ghost predicate Authorized(s: Sys, k: Key, t: Option<Target>) {
    k in s.approved && exists a :: a in s.approved[k] && Follows(a, t, s.firsts)
  }

  ghost predicate AllAuthorized(s: Sys, rows: seq<Row>) {
    forall r :: r in rows ==> Authorized(s, r.Key(), r.target)
  }

  ghost predicate TargetInv(s: Sys) {
    && Shaped(s.Inbox()) && AllAuthorized(s, s.Inbox().rows) && AllAuthorized(s, s.Inbox().disk)
    && (forall i :: 0 <= i < |s.launches| ==> Authorized(s, s.launches[i].0, s.launches[i].1))
  }

  /** History only grows. */
  ghost predicate Grows(s: Sys, s': Sys) {
    s.firsts <= s'.firsts && forall k :: k in s.approved ==> k in s'.approved && s.approved[k] <= s'.approved[k]
  }

  lemma AuthorizedStays(s: Sys, s': Sys, k: Key, t: Option<Target>)
    requires Grows(s, s') && Authorized(s, k, t)
    ensures Authorized(s', k, t)
  {
    var a :| a in s.approved[k] && Follows(a, t, s.firsts);
    assert a in s'.approved[k] && Follows(a, t, s'.firsts);
  }

  lemma HistoryGrows(s: Sys, t: Step)
    requires Enabled(s, t)
    ensures Grows(s, Next(s, t))
  {
  }

  lemma FromBefore(s: Sys, s': Sys, rows: seq<Row>)
    requires Grows(s, s') && AllAuthorized(s, s.Inbox().rows) && AllAuthorized(s, s.Inbox().disk)
    requires TargetsFrom(s.Inbox(), rows)
    ensures AllAuthorized(s', rows)
  {
    forall r | r in rows ensures Authorized(s', r.Key(), r.target) {
      var i :| 0 <= i < |rows| && rows[i] == r;
      InAuthorized(s, r.Key(), r.target);
      AuthorizedStays(s, s', r.Key(), r.target);
    }
  }

  lemma InAuthorized(s: Sys, k: Key, t: Option<Target>)
    requires AllAuthorized(s, s.Inbox().rows) && AllAuthorized(s, s.Inbox().disk)
    requires TargetIn(s.Inbox().rows, k, t) || TargetIn(s.Inbox().disk, k, t)
    ensures Authorized(s, k, t)
  {
    if TargetIn(s.Inbox().rows, k, t) {
      var i :| 0 <= i < |s.Inbox().rows| && s.Inbox().rows[i].Key() == k && s.Inbox().rows[i].target == t;
    } else {
      var i :| 0 <= i < |s.Inbox().disk| && s.Inbox().disk[i].Key() == k && s.Inbox().disk[i].target == t;
    }
  }

  /** The steps that leave every target as it was. */
  predicate KeepsTargets(t: Step) { !Stages(t) && !t.Retry? && !t.Acceptance? && !t.Recovery? && !t.Crash? }

  ghost predicate TargetsKept(x: Inbox, y: Inbox) {
    TargetsFrom(x, y.rows) && TargetsFrom(x, y.disk) && TargetsStay(x.rows, y.rows)
  }

  lemma TargetsMove(s: Sys, t: Step)
    requires Enabled(s, t) && Shaped(s.Inbox()) && KeepsTargets(t)
    ensures TargetsKept(s.Inbox(), Next(s, t).Inbox())
  {
    if t.Deliver? || t.Land? {
      DeliveryKeepsTargets(s, t);
    } else if t.Tidy? || t.Cancel? {
      RemovalKeepsTargets(s, t);
    } else {
      OthersKeepRows(s, t);
      SelfTargets(s.Inbox());
    }
  }

  lemma DeliveryKeepsTargets(s: Sys, t: Step)
    requires Enabled(s, t) && Shaped(s.Inbox()) && (t.Deliver? || t.Land?)
    ensures TargetsKept(s.Inbox(), Next(s, t).Inbox())
  {
    if t.Deliver? {
      DeliveredPreserves(s.world, t.key, t.initial, t.e);
      DeliverMovesInbox(s, t);
    } else {
      LandedPreserves(s.world, t.lkey, s.flights[t.lkey].failed, t.le);
      LandMovesInbox(s, t);
    }
  }

  lemma RemovalKeepsTargets(s: Sys, t: Step)
    requires Enabled(s, t) && Shaped(s.Inbox()) && (t.Tidy? || t.Cancel?)
    ensures TargetsKept(s.Inbox(), Next(s, t).Inbox())
  {
    SelfTargets(s.Inbox());
    if t.Tidy? { RemovePreserves(s.Inbox(), t.tkey, t.tw); } else { RemovePreserves(s.Inbox(), t.ckey, t.cw); }
  }

  lemma OthersKeepRows(s: Sys, t: Step)
    requires Enabled(s, t) && KeepsTargets(t) && !t.Deliver? && !t.Land? && !t.Tidy? && !t.Cancel?
    ensures Next(s, t).Inbox().rows == s.Inbox().rows && Next(s, t).Inbox().disk == s.Inbox().disk
  {
  }

  lemma StagedAuthorized(s: Sys, t: Step, r: Row)
    requires TargetInv(s) && Enabled(s, t) && Stages(t)
    requires r in Next(s, t).Inbox().rows || r in Next(s, t).Inbox().disk
    ensures Authorized(Next(s, t), r.Key(), r.target)
  {
    var (m, f, w) := Staging(t);
    HistoryGrows(s, t);
    StagesMoves(s, t);
    StagedPreserves(s.Inbox(), m, f, w);
    if r in s.Inbox().rows || r in s.Inbox().disk {
      AuthorizedStays(s, Next(s, t), r.Key(), r.target);
    } else {
      assert f.target in Next(s, t).approved[m.key] && Follows(f.target, f.target, Next(s, t).firsts);
    }
  }

  lemma RetriedAuthorized(s: Sys, t: Step, r: Row)
    requires TargetInv(s) && Enabled(s, t) && t.Retry?
    requires r in Next(s, t).Inbox().rows || r in Next(s, t).Inbox().disk
    ensures Authorized(Next(s, t), r.Key(), r.target)
  {
    HistoryGrows(s, t);
    RetriedKeepsOrder(s.world, t.ykey, t.target, t.now, t.yw);
    if r in s.Inbox().rows || r in s.Inbox().disk {
      AuthorizedStays(s, Next(s, t), r.Key(), r.target);
    } else {
      assert Some(t.target) in Next(s, t).approved[t.ykey]
        && Follows(Some(t.target), Some(t.target), Next(s, t).firsts);
    }
  }

  /** An acceptance replaces a target only by the one that names its new thread. */
  lemma AcceptedAuthorized(s: Sys, s': Sys, key: Key, r: Receipt, current: Option<Target>, w: FileWrite, w': FileWrite,
                           row: Row)
    requires TargetInv(s) && Grows(s, s') && s'.firsts == Firsts(s, r)
    requires row in AfterAccepted(s.Inbox(), key, r, current, w, w').rows
      || row in AfterAccepted(s.Inbox(), key, r, current, w, w').disk
    ensures Authorized(s', row.Key(), row.target)
  {
    AcceptedTargets(s.Inbox(), key, r, current, w, w', row);
    var k, t := row.Key(), row.target;
    if TargetIn(s.Inbox().rows, k, t) || TargetIn(s.Inbox().disk, k, t) {
      InAuthorized(s, k, t);
      AuthorizedStays(s, s', k, t);
    } else {
      var previous := At(s.Inbox().rows, key).target;
      InAuthorized(s, k, previous);
      var a :| a in s.approved[k] && Follows(a, previous, s.firsts);
      assert a == previous;
      assert a in s'.approved[k] && Follows(a, t, s'.firsts);
    }
  }

  lemma ChangeAuthorized(s: Sys, t: Step, row: Row)
    requires TargetInv(s) && Enabled(s, t) && (t.Acceptance? || t.Recovery?)
    requires row in Next(s, t).Inbox().rows || row in Next(s, t).Inbox().disk
    ensures Authorized(Next(s, t), row.Key(), row.target)
  {
    HistoryGrows(s, t);
    var key := if t.Acceptance? then s.calls[t.acall].key else t.rkey;
    var r := Patched(s.Journal().mem[key], if t.Acceptance? then t.change else t.rchange);
    var o := if t.Acceptance? then t.ao else t.ro;
    if !o.Returned() {
      AuthorizedStays(s, Next(s, t), row.Key(), row.target);
    } else if t.Acceptance? {
      AcceptedAuthorized(s, Next(s, t), key, r, t.acurrent, t.aw, t.aw', row);
    } else {
      AcceptedAuthorized(s, Next(s, t), key, r, t.rcurrent, t.rw1, t.rw2, row);
    }
  }

  lemma KeepsRowsAuthorized(s: Sys, t: Step)
    requires TargetInv(s) && Enabled(s, t)
    ensures AllAuthorized(Next(s, t), Next(s, t).Inbox().rows) && AllAuthorized(Next(s, t), Next(s, t).Inbox().disk)
  {
    HistoryGrows(s, t);
    if KeepsTargets(t) {
      TargetsMove(s, t);
      FromBefore(s, Next(s, t), Next(s, t).Inbox().rows);
      FromBefore(s, Next(s, t), Next(s, t).Inbox().disk);
    } else {
      forall r | r in Next(s, t).Inbox().rows || r in Next(s, t).Inbox().disk
        ensures Authorized(Next(s, t), r.Key(), r.target)
      {
        if Stages(t) { StagedAuthorized(s, t, r); }
        else if t.Retry? { RetriedAuthorized(s, t, r); }
        else if t.Crash? { AuthorizedStays(s, Next(s, t), r.Key(), r.target); }
        else { ChangeAuthorized(s, t, r); }
      }
    }
  }

  /** Where an acceptance aims a row: at the first thread of its own target. */
  ghost predicate FollowsFirstThread(s: Sys, t: Step, k: Key, target: Option<Target>)
    requires Enabled(s, t) && Has(s.Inbox().rows, k)
  {
    && (t.Acceptance? || t.Recovery?)
    && var key := if t.Acceptance? then s.calls[t.acall].key else t.rkey;
       var r := Patched(s.Journal().mem[key], if t.Acceptance? then t.change else t.rchange);
       && target == (if t.Acceptance? then t.acurrent else t.rcurrent)
       && (if t.Acceptance? then t.ao else t.ro).Returned() && ExactAcceptance(r)
       && Has(s.Inbox().rows, key) && At(s.Inbox().rows, k).target == At(s.Inbox().rows, key).target
       && FirstThread(r, At(s.Inbox().rows, key).target, target)
  }

  /** A stored target changes only by an explicit retry of its own message, by the
      first thread of an exact acceptance, or when a crash brings back the file; a row
      is new only by staging or from the file.  A redelivery changes nothing. */
  lemma TargetChanges(s: Sys, t: Step, k: Key)
    requires Enabled(s, t) && Shaped(s.Inbox()) && Has(Next(s, t).Inbox().rows, k)
    ensures var row := At(Next(s, t).Inbox().rows, k);
      if !Has(s.Inbox().rows, k) then
        || (t.Crash? && row in s.Inbox().disk)
        || (Stages(t) && Staging(t).0.key == k && row.target == Staging(t).1.target)
      else row.target != At(s.Inbox().rows, k).target ==>
        || (t.Crash? && row in s.Inbox().disk)
        || (t.Retry? && t.ykey == k && row.target == Some(t.target))
        || FollowsFirstThread(s, t, k, row.target)
  {
    if t.Crash? {
    } else if Stages(t) {
      StagingChanges(s, t, k);
    } else {
      InboxMoves(s, t);
      if t.Retry? {
        RetriedTargets(s.world, t.ykey, t.target, t.now, t.yw, k);
      } else if t.Acceptance? || t.Recovery? {
        AcceptanceChanges(s, t, k);
      } else {
        TargetsMove(s, t);
      }
    }
  }

  lemma StagingChanges(s: Sys, t: Step, k: Key)
    requires Enabled(s, t) && Shaped(s.Inbox()) && Stages(t) && Has(Next(s, t).Inbox().rows, k)
    ensures var row := At(Next(s, t).Inbox().rows, k);
      if Has(s.Inbox().rows, k) then row == At(s.Inbox().rows, k)
      else Staging(t).0.key == k && row.target == Staging(t).1.target
  {
    var (m, f, w) := Staging(t);
    StagesMoves(s, t);
    StagedPreserves(s.Inbox(), m, f, w);
    StagedReturns(s.Inbox(), m, f, w);
    if k == m.key && !Has(s.Inbox().rows, k) { assert At(Next(s, t).Inbox().rows, k) !in s.Inbox().rows; }
  }

  lemma AcceptanceChanges(s: Sys, t: Step, k: Key)
    requires Enabled(s, t) && Shaped(s.Inbox()) && (t.Acceptance? || t.Recovery?)
    requires Has(s.Inbox().rows, k) && Has(Next(s, t).Inbox().rows, k)
    ensures var row := At(Next(s, t).Inbox().rows, k);
      row.target != At(s.Inbox().rows, k).target ==> FollowsFirstThread(s, t, k, row.target)
  {
    var key := if t.Acceptance? then s.calls[t.acall].key else t.rkey;
    var r := Patched(s.Journal().mem[key], if t.Acceptance? then t.change else t.rchange);
    if t.Acceptance? { AcceptedMoves(s.Inbox(), key, r, t.acurrent, t.aw, t.aw', k); }
    else { AcceptedMoves(s.Inbox(), key, r, t.rcurrent, t.rw1, t.rw2, k); }
  }

  /** A dispatch starts only while the row's target is the current one. */
  lemma LaunchAtCurrent(s: Sys, t: Step)
    requires Enabled(s, t) && Shaped(s.Inbox()) && Next(s, t).launches != s.launches
    ensures t.Deliver? && Decide(s.world, t.key, t.initial, t.e.current, t.e.canDispatch).Dispatch?
    ensures Next(s, t).launches == s.launches + [(t.key, t.e.current)]
    ensures At(s.Inbox().rows, t.key).target == t.e.current
  {
    DeliveredPreserves(s.world, t.key, t.initial, t.e);
  }

  lemma KeepsTargetInv(s: Sys, t: Step)
    requires TargetInv(s) && Enabled(s, t)
    ensures TargetInv(Next(s, t))
  {
    var s' := Next(s, t);
    if !t.Crash? { InboxMoves(s, t); }
    HistoryGrows(s, t);
    KeepsRowsAuthorized(s, t);
    if s'.launches != s.launches { LaunchAtCurrent(s, t); }
    forall i | 0 <= i < |s'.launches| ensures Authorized(s', s'.launches[i].0, s'.launches[i].1) {
      if i < |s.launches| {
        AuthorizedStays(s, s', s.launches[i].0, s.launches[i].1);
      } else {
        assert At(s.Inbox().rows, t.key) in s.Inbox().rows;
        AuthorizedStays(s, s', t.key, t.e.current);
      }
    }
  }

  /** No message is redirected: over every run, each dispatch was made to a target
      captured for this message or explicitly approved for it, with no other session,
      host or place, and with another thread only where none existed and the first one
      was created by an exactly accepted input of the same session. */
  lemma {:induction false} NeverRedirected(states: seq<Sys>, steps: seq<Step>, n: nat)
    requires Run(states, steps) && n < |states|
    ensures TargetInv(states[n])
    ensures forall i :: 0 <= i < |states[n].launches| ==>
      Authorized(states[n], states[n].launches[i].0, states[n].launches[i].1)
  {
    if n > 0 {
      NeverRedirected(states, steps, n - 1);
      KeepsTargetInv(states[n - 1], steps[n - 1]);
    }
  }

  /** What the history records: a message is saved by its own intake only; a target is
      approved for it only by a row that is new or by a retry that names it; a first
      thread is one that an acceptance has put on the accepted receipt. */
  lemma HistoryMeans(s: Sys, t: Step, k: Key, a: Option<Target>, first: (string, string, string))
    requires Enabled(s, t)
    ensures k in Next(s, t).saved && k !in s.saved ==> t.Intake? && t.m.key == k
    ensures k in Next(s, t).approved && a in Next(s, t).approved[k] && !(k in s.approved && a in s.approved[k]) ==>
      || (Stages(t) && Staging(t).0.key == k && Staging(t).1.target == a && !Has(s.Inbox().rows, k))
      || (t.Retry? && t.ykey == k && a == Some(t.target))
    ensures first in Next(s, t).firsts && first !in s.firsts ==>
      && (t.Acceptance? || t.Recovery?)
      && var key := if t.Acceptance? then s.calls[t.acall].key else t.rkey;
         && key in Next(s, t).Journal().mem
         && var r := Next(s, t).Journal().mem[key];
            && r.phase.Accepted? && r.sessionId == Some(first.0) && r.threadId == Some(first.2)
            && first.1 == match r.hostId
                          case None => "local"
                          case Some(host) => host
  {
    if t.Acceptance? || t.Recovery? {
      var key := if t.Acceptance? then s.calls[t.acall].key else t.rkey;
      ChangeRecords(s.Journal().mem[key], if t.Acceptance? then t.change else t.rchange);
    }
  }

  // ------------------------------------------------------- lanes

  /** Whenever an ordered message is dispatched, every earlier ordered message of the
      same conversation and target whose receipt is not finished is out of its turn: not
      in delivery, and not pending with an untouched receipt. */
  lemma LaneOrder(s: Sys, t: Step, a: nat, b: nat)
    requires Enabled(s, t) && Shaped(s.Inbox()) && Next(s, t).launches != s.launches
    requires a < b < |s.Inbox().rows| && t.Deliver? && s.Inbox().rows[b].message.key == t.key
    ensures
      var (rows, mem) := (s.Inbox().rows, s.Journal().mem);
      var key := rows[a].message.key;
      rows[a].message.Conversation() == rows[b].message.Conversation() && rows[a].target == rows[b].target
      && (rows[a].automatic || rows[a].ordersInput) && (rows[b].automatic || rows[b].ordersInput)
      && (key in mem ==> !mem[key].phase.Accepted? && !mem[key].phase.Handled?)
      ==> key !in s.Inbox().busy && (rows[a].state.Pending? ==> key in mem && !mem[key].phase.Received?)
  {
    LaunchAtCurrent(s, t);
    FoundHere(s.Inbox(), b);
    WhichTurn(s.world, b, t.initial, t.e.current, t.e.canDispatch);
  }

  lemma FoundHere(x: Inbox, i: nat)
    requires Shaped(x) && i < |x.rows|
    ensures Find(x.rows, x.rows[i].message.key) == i
  {
    assert x.rows[i].Key() == x.rows[i].message.key;
  }

  /** An acknowledged message that is not finished keeps its place. */
  lemma PlaceStays(s: Sys, t: Step, s': Sys, k: Key)
    requires SavedInv(s) && Enabled(s, t) && s' == Next(s, t) && k in s.saved
    requires k in s'.Journal().mem ==> !Finished.Holds(s'.Journal().mem[k])
    ensures k in s.Journal().mem && !Finished.Holds(s.Journal().mem[k])
    ensures Has(s.Inbox().rows, k) && Has(s'.Inbox().rows, k)
    ensures At(s'.Inbox().rows, k).stamp == At(s.Inbox().rows, k).stamp
  {
    assert Retained(s, k) && RowDurable(s, k);
    JournalMoves(s, t);
    if Finished.Holds(s.Journal().mem[k]) { FinishedStays(s, t, s'.Journal(), k); }
    if !t.Crash? {
      InboxMoves(s, t);
      if k in Gone(s, t) {
        GoneIsSettled(s, t, k);
        StepKeeps(s, t, s'.Journal(), k, Owned(At(s.Inbox().rows, k).message));
      }
      assert k !in Gone(s, t) ==> Keeps(s.Inbox().rows, s'.Inbox().rows, k);
    }
  }

  /** `k` is acknowledged, not finished and in its place on both sides of a step. */
  ghost predicate PlaceLink(s: Sys, s': Sys, k: Key) {
    && s.saved <= s'.saved
    && (k in s.saved && (k in s'.Journal().mem ==> !Finished.Holds(s'.Journal().mem[k])) ==>
          && k in s.Journal().mem && !Finished.Holds(s.Journal().mem[k])
          && Has(s.Inbox().rows, k) && Has(s'.Inbox().rows, k)
          && At(s'.Inbox().rows, k).stamp == At(s.Inbox().rows, k).stamp)
  }

  lemma SavedGrows(s: Sys, t: Step, s': Sys)
    requires Enabled(s, t) && s' == Next(s, t)
    ensures s.saved <= s'.saved
  {
  }

  lemma StepLinks(s: Sys, t: Step, s': Sys, k: Key)
    requires SavedInv(s) && Enabled(s, t) && s' == Next(s, t)
    ensures PlaceLink(s, s', k)
  {
    SavedGrows(s, t, s');
    if k in s.saved {
      if k in s'.Journal().mem ==> !Finished.Holds(s'.Journal().mem[k]) { PlaceStays(s, t, s', k); }
    }
  }

  lemma RunLinks(states: seq<Sys>, steps: seq<Step>, k: Key)
    requires Run(states, steps)
    ensures forall m :: 0 <= m < |steps| ==> PlaceLink(states[m], states[m + 1], k)
  {
    forall m | 0 <= m < |steps| ensures PlaceLink(states[m], states[m + 1], k) {
      EveryStateSaves(states, steps, m);
      StepLinks(states[m], steps[m], states[m + 1], k);
    }
  }

  lemma {:induction false} PlaceKept(states: seq<Sys>, i: nat, n: nat, k: Key)
    requires i <= n < |states| && k in states[i].saved
    requires forall m :: i <= m < n ==> PlaceLink(states[m], states[m + 1], k)
    ensures k in states[n].saved
    ensures i < n && (k in states[n].Journal().mem ==> !Finished.Holds(states[n].Journal().mem[k])) ==>
              && Has(states[i].Inbox().rows, k) && Has(states[n].Inbox().rows, k)
              && At(states[n].Inbox().rows, k).stamp == At(states[i].Inbox().rows, k).stamp
  {
    if i < n {
      PlaceKept(states, i, n - 1, k);
      assert PlaceLink(states[n - 1], states[n], k);
    }
  }

  predicate Unfinished(j: Journal, k: Key) { k in j.mem ==> !Finished.Holds(j.mem[k]) }

  lemma LaunchIsFresh(s: Sys, t: Step, s': Sys)
    requires Enabled(s, t) && Shaped(s.Inbox()) && s' == Next(s, t) && s'.launches != s.launches && t.Deliver?
    ensures Unfinished(s.Journal(), t.key)
  {
    LaunchAtCurrent(s, t);
  }

  /** Source order over whole runs.  Of two acknowledged ordered messages, let `a` stand
      before `b` at some moment.  If `b` is dispatched at a later step while they share
      conversation and target, then `a` is finished by then, or is parked: not in
      delivery, and not pending with a receipt still `received`.  Crashes, failed saves
      and redeliveries in between never let `b` overtake a waiting `a`. */
  lemma SourceOrderKept(states: seq<Sys>, steps: seq<Step>, i: nat, n: nat, a: Key, b: Key)
    requires Run(states, steps) && i <= n < |steps|
    requires a in states[i].saved && b in states[i].saved
    requires Has(states[i].Inbox().rows, a) && Has(states[i].Inbox().rows, b)
    requires At(states[i].Inbox().rows, a).stamp < At(states[i].Inbox().rows, b).stamp
    requires states[n + 1].launches != states[n].launches && steps[n].Deliver? && steps[n].key == b
    requires Has(states[n].Inbox().rows, a) && Has(states[n].Inbox().rows, b)
    ensures a in states[n].Journal().mem
    ensures
      var (first, second) := (At(states[n].Inbox().rows, a), At(states[n].Inbox().rows, b));
      var r := states[n].Journal().mem[a];
      first.message.Conversation() == second.message.Conversation() && first.target == second.target
      && (first.automatic || first.ordersInput) && (second.automatic || second.ordersInput)
      ==> r.phase.Accepted? || r.phase.Handled? || (r.runtimeInput && r.phase.Unconfirmed?)
          || (a !in states[n].Inbox().busy && !(first.state.Pending? && r.phase.Received?))
  {
    EveryStateSaves(states, steps, n);
    StillBefore(states, steps, i, n, a, b);
    assert Retained(states[n], a);
    RunStep(states, steps, n);
    NoOvertaking(states[n], steps[n], states[n + 1], a, b);
  }

  lemma RunStep(states: seq<Sys>, steps: seq<Step>, n: nat)
    requires Run(states, steps) && n < |steps|
    ensures Enabled(states[n], steps[n]) && states[n + 1] == Next(states[n], steps[n])
  {
  }

  lemma NoOvertaking(s: Sys, t: Step, s': Sys, a: Key, b: Key)
    requires Enabled(s, t) && Shaped(s.Inbox()) && s' == Next(s, t) && s'.launches != s.launches
    requires t.Deliver? && t.key == b && Has(s.Inbox().rows, a) && Has(s.Inbox().rows, b)
    requires Unfinished(s.Journal(), a) && Unfinished(s.Journal(), b) ==>
      At(s.Inbox().rows, a).stamp < At(s.Inbox().rows, b).stamp
    ensures
      var (first, second, mem) := (At(s.Inbox().rows, a), At(s.Inbox().rows, b), s.Journal().mem);
      first.message.Conversation() == second.message.Conversation() && first.target == second.target
      && (first.automatic || first.ordersInput) && (second.automatic || second.ordersInput)
      && Unfinished(s.Journal(), a)
      ==> a !in s.Inbox().busy && (first.state.Pending? ==> a in mem && !mem[a].phase.Received?)
  {
    LaunchIsFresh(s, t, s');
    if Unfinished(s.Journal(), a) {
      StampsFind(s.Inbox(), a, b);
      LaneOrder(s, t, Find(s.Inbox().rows, a), Find(s.Inbox().rows, b));
    }
  }

  lemma StillBefore(states: seq<Sys>, steps: seq<Step>, i: nat, n: nat, a: Key, b: Key)
    requires Run(states, steps) && i <= n < |steps| && a in states[i].saved && b in states[i].saved
    requires Has(states[i].Inbox().rows, a) && Has(states[i].Inbox().rows, b)
    requires At(states[i].Inbox().rows, a).stamp < At(states[i].Inbox().rows, b).stamp
    requires Has(states[n].Inbox().rows, a) && Has(states[n].Inbox().rows, b)
    ensures a in states[n].saved
    ensures Unfinished(states[n].Journal(), a) && Unfinished(states[n].Journal(), b) ==>
      At(states[n].Inbox().rows, a).stamp < At(states[n].Inbox().rows, b).stamp
  {
    RunLinks(states, steps, a);
    RunLinks(states, steps, b);
    PlaceKept(states, i, n, a);
    PlaceKept(states, i, n, b);
  }

  lemma StampsFind(x: Inbox, a: Key, b: Key)
    requires Shaped(x) && Has(x.rows, a) && Has(x.rows, b) && At(x.rows, a).stamp < At(x.rows, b).stamp
    ensures Find(x.rows, a) < Find(x.rows, b)
    ensures x.rows[Find(x.rows, a)].message.key == a && x.rows[Find(x.rows, b)].message.key == b
  {
    var i, k := Find(x.rows, a), Find(x.rows, b);
    assert x.rows[i].Key() == a && x.rows[k].Key() == b;
  }

  /** A lane never locks itself: if the message in row `b` has to wait for its lane, the
      first of the rows it may wait for, `a`, has its turn, and need not wait for any. */
  lemma LaneHasHead(s: Sys, b: nat, initial: bool, current: Option<Target>, canDispatch: bool)
    returns (a: nat)
    requires Shaped(s.Inbox()) && b < |s.Inbox().rows|
    requires Decide(s.world, s.Inbox().rows[b].message.key, initial, current, canDispatch).WaitLane?
    ensures a < b && (s.Inbox().rows[a].automatic || s.Inbox().rows[a].ordersInput)
    ensures s.Inbox().rows[a].message.Conversation() == s.Inbox().rows[b].message.Conversation()
    ensures s.Inbox().rows[a].target == s.Inbox().rows[b].target
    ensures
      var (row, mem) := (s.Inbox().rows[a], s.Journal().mem);
      var key := row.message.key;
      && (key in mem ==> !mem[key].phase.Accepted? && !mem[key].phase.Handled?)
      && (key in s.Inbox().busy || (row.state.Pending? && (key in mem ==> mem[key].phase.Received?)))
    ensures forall i: bool, t: Option<Target>, c: bool ::
      !Decide(s.world, s.Inbox().rows[a].message.key, i, t, c).WaitLane?
  {
    FoundHere(s.Inbox(), b);
    a := FirstOfLane(s, b);
    FoundHere(s.Inbox(), a);
  }

  lemma {:induction false} FirstOfLane(s: Sys, b: nat) returns (a: nat)
    requires Shaped(s.Inbox()) && b < |s.Inbox().rows| && Preceded(s.world, s.Inbox().rows[b].Key())
    requires Find(s.Inbox().rows, s.Inbox().rows[b].Key()) == b
    ensures a < b && SameLane(s.Inbox().rows[a], s.Inbox().rows[b]) && Barrier(s.world, s.Inbox().rows[a])
    ensures Has(s.Inbox().rows, s.Inbox().rows[a].Key()) && !Preceded(s.world, s.Inbox().rows[a].Key())
  {
    var rows := s.Inbox().rows;
    var i :| 0 <= i < b && SameLane(rows[i], rows[b]) && Barrier(s.world, rows[i]);
    FoundHere(s.Inbox(), i);
    a := i;
    if Preceded(s.world, rows[i].Key()) { a := FirstOfLane(s, i); }
  }
}
