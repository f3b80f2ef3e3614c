/** Where the identities in a receipt come from.  Over every run the thread, the turn
    and the queued submission that a receipt names were reported by a native call for
    that very message, or carried by a recovery proof that agreed with it. */
module InboundEvidence {
  import opened Common
  import opened ReceiptLog
  import opened InboundReceipts
  import opened ForwardingInbox
  import opened InboxRows
  import opened InboundProtocol

  // ------------------------------------------------------- history

  /** In this step a call of message `k` that took effect, or a recovery proof for `k`,
      reported acceptance in thread `id`; or a call announced the thread it created. */
  predicate ReportsThread(s: Sys, t: Step, k: Key, id: Option<string>) {
    match t
    case Acceptance(call, c, _, _, _, _) =>
      && call < |s.calls| && s.calls[call].key == k && s.calls[call].fate.Effective?
      && (match c
          case NativeAccepted(thread, _) => id == Some(thread)
          case QueueAccepted(thread, _, _) => id == Some(thread)
          case TerminalAccepted(thread) => id == Some(thread)
          case _ => false)
    case Recovery(key, c, _, _, _, _) =>
      && key == k
      && (match c
          case RecoverTerminal(proof) => id == Some(proof.threadId)
          case RecoverQueue(_, proof) => id == Some(proof.threadId)
          case RecoverNative(_, _, thread, _) => id == Some(thread)
          case _ => false)
    case ThreadCreated(call, scope, _) =>
      call < |s.calls| && s.calls[call].key == k && scope.threadId == Write(id)
    case _ => false
  }

  predicate ReportsTurn(s: Sys, t: Step, k: Key, id: string) {
    match t
    case Acceptance(call, c, _, _, _, _) =>
      && call < |s.calls| && s.calls[call].key == k && s.calls[call].fate.Effective?
      && (match c
          case NativeAccepted(_, turn) => id == turn
          case QueueAccepted(_, _, turn) => turn == Some(id)
          case _ => false)
    case Recovery(key, c, _, _, _, _) =>
      && key == k
      && (match c
          case RecoverQueue(_, proof) => proof.turnId == Some(id)
          case RecoverNative(_, _, _, turn) => id == turn
          case _ => false)
    case _ => false
  }

  predicate ReportsQueued(s: Sys, t: Step, k: Key, id: string) {
    match t
    case Acceptance(call, c, _, _, _, _) =>
      && call < |s.calls| && s.calls[call].key == k && s.calls[call].fate.Effective?
      && c.QueueAccepted? && id == c.queued
    case Recovery(key, c, _, _, _, _) => key == k && c.RecoverQueue? && c.qproof.queuedSubmissionId == Some(id)
    case _ => false
  }

  /** The receipt names only what was reported before moment `n` about its own message. */
  ghost predicate Told(states: seq<Sys>, steps: seq<Step>, n: nat, k: Key, r: Receipt)
    requires n <= |steps| < |states|
  {
    && (r.phase.Accepted? ==> exists m :: 0 <= m < n && ReportsThread(states[m], steps[m], k, r.threadId))
    && (r.turnId.Some? ==> exists m :: 0 <= m < n && ReportsTurn(states[m], steps[m], k, r.turnId.value))
    && (r.queuedSubmissionId.Some? ==>
          exists m :: 0 <= m < n && ReportsQueued(states[m], steps[m], k, r.queuedSubmissionId.value))
  }

  /** A copy of the receipt of `k`: in memory, on disk, or in a torn line. */
  predicate Copy(j: Journal, k: Key, r: Receipt) {
    || (k in j.mem && j.mem[k] == r) || (k in j.disk && j.disk[k] == r)
    || (j.torn.Some? && j.torn.value.key == k && j.torn.value.receipt == r)
  }

  // ------------------------------------------------------- where copies come from

  /** The steps that change one stored receipt, with its key, change and save. */
  predicate Changes(t: Step) {
    t.Submission? || t.ThreadCreated? || t.Acceptance? || t.TerminalDoubt? || t.Recovery? || t.ResultSent?
  }

  function Subject(s: Sys, t: Step): Key
    requires Enabled(s, t) && Changes(t)
  {
    match t
    case Submission(key, _, _) => key
    case ThreadCreated(call, _, _) => s.calls[call].key
    case Acceptance(call, _, _, _, _, _) => s.calls[call].key
    case TerminalDoubt(call, _) => s.calls[call].key
    case Recovery(key, _, _, _, _, _) => key
    case ResultSent(key, _, _) => key
  }

  function ChangeOf(t: Step): Change
    requires Changes(t)
  {
    match t
    case Submission(_, scope, _) => Submit(scope)
    case ThreadCreated(_, scope, _) => Submit(scope)
    case Acceptance(_, c, _, _, _, _) => c
    case TerminalDoubt(_, _) => TerminalUnconfirmed
    case Recovery(_, c, _, _, _, _) => c
    case ResultSent(_, c, _) => c
  }

  function SaveOf(t: Step): SaveOutcome
    requires Changes(t)
  {
    match t
    case Submission(_, _, o) => o
    case ThreadCreated(_, _, o) => o
    case Acceptance(_, _, o, _, _, _) => o
    case TerminalDoubt(_, o) => o
    case Recovery(_, _, o, _, _, _) => o
    case ResultSent(_, _, o) => o
  }

  /** A receipt with the identities of `was`, made neither accepted nor fuller. */
  predicate Settles(was: Receipt, r: Receipt) {
    r.turnId == was.turnId && r.queuedSubmissionId == was.queuedSubmissionId && !r.phase.Accepted?
  }

  predicate Bare(r: Receipt) { r.phase.Received? && r.turnId.None? && r.queuedSubmissionId.None? }

  ghost predicate FromBefore(j: Journal, k: Key, r: Receipt) {
    || Copy(j, k, r) || Bare(r)
    || (k in j.mem && Settles(j.mem[k], r))
  }

  lemma TransitionCopies(j: Journal, key: Key, next: Receipt, o: SaveOutcome, k: Key, r: Receipt)
    requires key in j.mem && Copy(AfterTransition(j, key, next, o), k, r)
    ensures Copy(j, k, r) || (k == key && r == next)
  {
  }

  lemma ClaimCopies(j: Journal, m: Message, o: SaveOutcome, k: Key, r: Receipt)
    requires Claimable(j, m) && Copy(AfterClaim(j, m, o), k, r)
    ensures Copy(j, k, r) || Bare(r)
  {
  }

  lemma EnterCopies(j: Journal, m: Message, o: SaveOutcome, k: Key, r: Receipt)
    requires Copy(EnterHandle(j, m, o).1, k, r)
    ensures Copy(j, k, r) || Bare(r)
  {
    if m.key !in j.processing && m.key !in j.claimed && Claimable(j, m) {
      assert EnterHandle(j, m, o).1.mem == AfterClaim(j, m, o).mem;
      ClaimCopies(j, m, o, k, r);
    }
  }

  lemma HandleCopies(j: Journal, key: Key, failed: Option<Failure>, o: SaveOutcome, o': SaveOutcome, k: Key, r: Receipt)
    requires key in j.mem && Copy(AfterHandle(j, key, failed, o, o'), k, r)
    ensures FromBefore(j, k, r)
  {
    var acted := AfterAction(j, key, failed, o);
    if Copy(acted, k, r) {
      if !(failed.Some? || StaysOpen(j.mem[key])) {
        TransitionCopies(j, key, Patched(j.mem[key], Settle(Handled)), o, k, r);
      }
    } else {
      TransitionCopies(acted, key, Patched(acted.mem[key], Settle(Verdicted(failed))), o', k, r);
    }
  }

  lemma CopiesMove(s: Sys, t: Step, j': Journal, k: Key, r: Receipt)
    requires Enabled(s, t) && JournalStep(s, t, j') && !Changes(t) && Copy(j', k, r)
    ensures FromBefore(s.Journal(), k, r)
  {
    var j := s.Journal();
    match t
    case Intake(m, _, o, _) => if Claimable(j, m) { ClaimCopies(j, m, o, k, r); }
    case Deliver(key, _, e) => if j' != j { EnterCopies(j, At(s.Inbox().rows, key).message, e.claim, k, r); }
    case Finish(key, failed, o, o') => HandleCopies(j, key, failed, o, o', k, r);
    case Cancel(key, _, o, _) =>
      if Abandonable(j, key) { TransitionCopies(j, key, Patched(j.mem[key], Settle(Handled)), o, k, r); }
    case _ =>
  }

  lemma ChangeCopies(s: Sys, t: Step, j': Journal, k: Key, r: Receipt)
    requires Enabled(s, t) && JournalStep(s, t, j') && Changes(t) && Copy(j', k, r)
    ensures var key := Subject(s, t);
      && key in s.Journal().mem && ChangePossible(s, key, ChangeOf(t), SaveOf(t))
      && (Copy(s.Journal(), k, r) || (k == key && r == Patched(s.Journal().mem[k], ChangeOf(t))))
  {
    var key := Subject(s, t);
    assert j' == AfterChange(s.Journal(), key, ChangeOf(t), SaveOf(t));
    TransitionCopies(s.Journal(), key, Patched(s.Journal().mem[key], ChangeOf(t)), SaveOf(t), k, r);
  }

  // ------------------------------------------------------- no mark after acceptance

  /** A message whose action still runs is accepted only by a call that took effect. */
  ghost predicate CalledFirst(s: Sys, k: Key) {
    k in s.flights && s.flights[k].Acting? && k in s.Journal().mem && s.Journal().mem[k].phase.Accepted? ==>
      exists i :: 0 <= i < |s.calls| && s.calls[i].key == k && s.calls[i].fate.Effective?
  }

  lemma CallsStay(s: Sys, t: Step, s': Sys, k: Key)
    requires Enabled(s, t) && FlightStep(s, t, s')
    ensures (exists i :: 0 <= i < |s.calls| && s.calls[i].key == k && s.calls[i].fate.Effective?) ==>
      exists i :: 0 <= i < |s'.calls| && s'.calls[i].key == k && s'.calls[i].fate.Effective?
  {
    if i :| 0 <= i < |s.calls| && s.calls[i].key == k && s.calls[i].fate.Effective? {
      assert s'.calls[i].key == k && s'.calls[i].fate.Effective?;
    }
  }

  predicate AcceptedAt(j: Journal, k: Key) { k in j.mem && j.mem[k].phase.Accepted? }

  lemma EnterAccepts(j: Journal, m: Message, o: SaveOutcome, k: Key)
    requires AcceptedAt(EnterHandle(j, m, o).1, k)
    ensures AcceptedAt(j, k)
  {
  }

  lemma HandleAccepts(j: Journal, key: Key, failed: Option<Failure>, o: SaveOutcome, o': SaveOutcome, k: Key)
    requires key in j.mem && AcceptedAt(AfterHandle(j, key, failed, o, o'), k)
    ensures AcceptedAt(j, k)
  {
  }

  lemma ChangeAccepts(s: Sys, t: Step, j': Journal, k: Key)
    requires Enabled(s, t) && JournalStep(s, t, j') && Changes(t) && AcceptedAt(j', k)
    ensures AcceptedAt(s.Journal(), k) || ((t.Acceptance? || t.Recovery?) && k == Subject(s, t))
  {
    assert j' == AfterChange(s.Journal(), Subject(s, t), ChangeOf(t), SaveOf(t));
  }

  lemma AcceptedBefore(s: Sys, t: Step, j': Journal, k: Key)
    requires Enabled(s, t) && JournalStep(s, t, j') && !t.Crash? && AcceptedAt(j', k)
    ensures AcceptedAt(s.Journal(), k)
      || (t.Acceptance? && s.calls[t.acall].key == k) || (t.Recovery? && t.rkey == k)
  {
    var j := s.Journal();
    if Changes(t) {
      ChangeAccepts(s, t, j', k);
    } else {
      match t
      case Deliver(key, _, e) => if j' != j { EnterAccepts(j, At(s.Inbox().rows, key).message, e.claim, k); }
      case Finish(key, failed, o, o') => HandleAccepts(j, key, failed, o, o', k);
      case _ =>
    }
  }

  lemma KeepsCalledFirst(s: Sys, t: Step, s': Sys, k: Key)
    requires AtMostOnceInv(s) && CalledFirst(s, k) && Enabled(s, t)
    requires FlightStep(s, t, s') && JournalStep(s, t, s'.Journal())
    ensures CalledFirst(s', k)
  {
    if k in s'.flights && s'.flights[k].Acting? && k in s'.Journal().mem && s'.Journal().mem[k].phase.Accepted? {
      AcceptedBefore(s, t, s'.Journal(), k);
      CallsStay(s, t, s', k);
      assert FlightKnown(s, k);
      if t.Deliver? && t.key == k {
        assert ClaimFresh(s.Journal(), k);
        if s'.flights != s.flights { EnterRunning(s.Journal(), At(s.Inbox().rows, k).message, t.e.claim); }
      }
    }
  }

  lemma MarkedBeforeAcceptance(s: Sys, k: Key)
    requires AtMostOnceInv(s) && CalledFirst(s, k) && MayCall(s, k)
    ensures !s.Journal().mem[k].phase.Accepted?
  {
    NoCallAfterRefusal(s, k);
  }

  // ------------------------------------------------------- main result

  /** What one change adds to the identities of a receipt was reported in this step. */
  lemma ChangeTells(s: Sys, t: Step)
    requires AtMostOnceInv(s) && Enabled(s, t) && Changes(t) && CalledFirst(s, Subject(s, t))
    ensures var k := Subject(s, t);
      k in s.Journal().mem &&
      var (was, r) := (s.Journal().mem[k], Patched(s.Journal().mem[k], ChangeOf(t)));
      && (r.phase.Accepted? ==>
            ReportsThread(s, t, k, r.threadId) || (was.phase.Accepted? && r.threadId == was.threadId))
      && (r.turnId.Some? ==> ReportsTurn(s, t, k, r.turnId.value) || r.turnId == was.turnId)
      && (r.queuedSubmissionId.Some? ==>
            ReportsQueued(s, t, k, r.queuedSubmissionId.value) || r.queuedSubmissionId == was.queuedSubmissionId)
  {
    if t.Submission? { MarkedBeforeAcceptance(s, t.skey); }
  }

  ghost predicate AllTold(states: seq<Sys>, steps: seq<Step>, n: nat, k: Key)
    requires n <= |steps| < |states|
  {
    && CalledFirst(states[n], k)
    && forall r :: Copy(states[n].Journal(), k, r) ==> Told(states, steps, n, k, r)
  }

  lemma ToldLater(states: seq<Sys>, steps: seq<Step>, n: nat, k: Key, r: Receipt)
    requires n < |steps| < |states| && Told(states, steps, n, k, r)
    ensures Told(states, steps, n + 1, k, r)
  {
  }

  /** Told from an earlier receipt and from what step `n` reported. */
  lemma ToldNow(states: seq<Sys>, steps: seq<Step>, n: nat, k: Key, was: Receipt, r: Receipt)
    requires n < |steps| < |states| && Told(states, steps, n, k, was)
    requires r.phase.Accepted? ==>
      ReportsThread(states[n], steps[n], k, r.threadId) || (was.phase.Accepted? && r.threadId == was.threadId)
    requires r.turnId.Some? ==> ReportsTurn(states[n], steps[n], k, r.turnId.value) || r.turnId == was.turnId
    requires r.queuedSubmissionId.Some? ==>
      ReportsQueued(states[n], steps[n], k, r.queuedSubmissionId.value)
        || r.queuedSubmissionId == was.queuedSubmissionId
    ensures Told(states, steps, n + 1, k, r)
  {
    ToldLater(states, steps, n, k, was);
  }

  lemma StepTells(states: seq<Sys>, steps: seq<Step>, n: nat, k: Key, r: Receipt)
    requires n < |steps| < |states| && AtMostOnceInv(states[n]) && AllTold(states, steps, n, k)
    requires Enabled(states[n], steps[n]) && JournalStep(states[n], steps[n], states[n + 1].Journal())
    requires Copy(states[n + 1].Journal(), k, r)
    ensures Told(states, steps, n + 1, k, r)
  {
    var s, t := states[n], steps[n];
    if Changes(t) { ChangeCopies(s, t, states[n + 1].Journal(), k, r); }
    else { CopiesMove(s, t, states[n + 1].Journal(), k, r); }
    if Copy(s.Journal(), k, r) {
      ToldLater(states, steps, n, k, r);
    } else if Changes(t) {
      ChangeTells(s, t);
      assert Copy(s.Journal(), k, s.Journal().mem[k]);
      ToldNow(states, steps, n, k, s.Journal().mem[k], r);
    } else if !Bare(r) {
      assert Copy(s.Journal(), k, s.Journal().mem[k]);
      ToldNow(states, steps, n, k, s.Journal().mem[k], r);
    }
  }

  lemma KeepsAllTold(states: seq<Sys>, steps: seq<Step>, n: nat, k: Key)
    requires n < |steps| < |states| && AtMostOnceInv(states[n]) && AllTold(states, steps, n, k)
    requires Enabled(states[n], steps[n]) && JournalStep(states[n], steps[n], states[n + 1].Journal())
    requires FlightStep(states[n], steps[n], states[n + 1])
    ensures AllTold(states, steps, n + 1, k)
  {
    KeepsCalledFirst(states[n], steps[n], states[n + 1], k);
    var j := states[n + 1].Journal();
    forall r | Copy(j, k, r) ensures Told(states, steps, n + 1, k, r) {
      StepTells(states, steps, n, k, r);
    }
  }

  lemma Moves(s: Sys, t: Step, s': Sys)
    requires Enabled(s, t) && s' == Next(s, t)
    ensures JournalStep(s, t, s'.Journal()) && FlightStep(s, t, s')
  {
    JournalMoves(s, t);
    FlightMoves(s, t);
  }

  lemma {:induction false} EveryCopyTold(states: seq<Sys>, steps: seq<Step>, n: nat, k: Key)
    requires Run(states, steps) && n < |states|
    ensures AllTold(states, steps, n, k)
  {
    if n > 0 {
      EveryCopyTold(states, steps, n - 1, k);
      EveryState(states, steps, n - 1);
      Moves(states[n - 1], steps[n - 1], states[n]);
      KeepsAllTold(states, steps, n - 1, k);
    }
  }

  /** An accepted receipt names its own message's evidence.  In every run, in memory, on
      disk and in a torn line: the thread of an accepted receipt was reported by a call of
      this very message (by its acceptance once it took effect, or as the thread it
      created), or by a recovery proof for it; its turn and its queued submission were
      reported by an acceptance of this message or by such a proof. */
  lemma AcceptedNamesItsOwn(states: seq<Sys>, steps: seq<Step>, n: nat, k: Key, r: Receipt)
    requires Run(states, steps) && n < |states|
    requires var j := states[n].Journal();
      || (k in j.mem && j.mem[k] == r) || (k in j.disk && j.disk[k] == r)
      || (j.torn.Some? && j.torn.value == Entry(k, r))
    ensures r.phase.Accepted? ==> exists m :: 0 <= m < n && ReportsThread(states[m], steps[m], k, r.threadId)
    ensures r.turnId.Some? ==> exists m :: 0 <= m < n && ReportsTurn(states[m], steps[m], k, r.turnId.value)
    ensures r.queuedSubmissionId.Some? ==>
      exists m :: 0 <= m < n && ReportsQueued(states[m], steps[m], k, r.queuedSubmissionId.value)
  {
    EveryCopyTold(states, steps, n, k);
    assert Copy(states[n].Journal(), k, r);
  }
}
