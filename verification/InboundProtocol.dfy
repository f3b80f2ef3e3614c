/** The whole forwarding protocol as a transition system: the receipt journal, the
    inbox, the running `handle` calls, the native calls and what the native side
    really did with them.  A step is the code between two awaits, a crash with the
    restart that follows it, or a decision of the native side. */
module InboundProtocol {
  import opened Common
  import opened ReceiptLog
  import opened InboundReceipts
  import opened ForwardingInbox
  import opened InboxRows

  /** What became of a native call.  `Open` may still turn into either of the others. */
  datatype Fate = Open | Effective | Refuted
  datatype Call = Call(key: Key, epoch: nat, fate: Fate)

  /** A `handle` in progress: its action runs, with the last native call it made, or
      it has ended and `deliver` is about to continue. */
  datatype Flight = Acting(call: Option<nat>) | Ended(failed: Option<Failure>)

  /** `saved`, `approved`, `firsts` and `launches` only record history: messages whose
      claim returned true, targets captured by a new row or named by an explicit retry
      of the message, first threads exactly accepted, and the target each dispatch was
      made with. */
  datatype Sys = Sys(world: World, flights: map<Key, Flight>, calls: seq<Call>, epoch: nat,
    saved: set<Key>, approved: map<Key, set<Option<Target>>>, firsts: set<(string, string, string)>,
    launches: seq<(Key, Option<Target>)>)
  {
    function Journal(): Journal { world.journal }
    function Inbox(): Inbox { world.inbox }
  }

  datatype Step =
    | Intake(m: Message, f: Fresh, o: SaveOutcome, w: FileWrite)
    | Restage(rm: Message, rf: Fresh, rw: FileWrite)
    | Tidy(tkey: Key, tw: FileWrite)
    | Deliver(key: Key, initial: bool, e: Weather)
    | NoticeSent(nkey: Key)
    | Submission(skey: Key, scope: Scope, so: SaveOutcome)
    | ThreadCreated(tcall: nat, tscope: Scope, to: SaveOutcome)
    | Acceptance(acall: nat, change: Change, ao: SaveOutcome, acurrent: Option<Target>, aw: FileWrite, aw': FileWrite)
    | TerminalDoubt(dcall: nat, do: SaveOutcome)
    | Finish(fkey: Key, failed: Option<Failure>, fo: SaveOutcome, fo': SaveOutcome)
    | Land(lkey: Key, le: Weather)
    | Recovery(rkey: Key, rchange: Change, ro: SaveOutcome, rcurrent: Option<Target>, rw1: FileWrite, rw2: FileWrite)
    | ResultSent(gkey: Key, gchange: Change, go: SaveOutcome)
    | Retry(ykey: Key, caller: Caller, target: Target, now: int, yw: FileWrite)
    | Cancel(ckey: Key, ccaller: Caller, co: SaveOutcome, cw: FileWrite)
    | Crash(tornSurvived: bool)
    | NativeAccepts(ncall: nat)
    | NativeRefuses(rcall: nat)

  /** A callback belongs to the process that made the call. */
  predicate Alive(s: Sys, call: nat) {
    call < |s.calls| && s.calls[call].epoch == s.epoch && s.calls[call].key in s.Journal().mem
  }

  /** May the action of this flight submit (again)?  Only when it has not called yet
      or its last call was definitely refused. */
  predicate MayCall(s: Sys, key: Key) {
    && key in s.flights && s.flights[key].Acting? && key in s.Journal().mem
    && match s.flights[key].call
       case None => true
       case Some(c) => c < |s.calls| && s.calls[c].fate.Refuted?
  }

  predicate ChangePossible(s: Sys, key: Key, c: Change, o: SaveOutcome) {
    && key in s.Journal().mem && SavePossible(s.Journal(), o)
    && Permits(s.Journal().mem[key], key in s.Journal().processing, c)
  }

  predicate Enabled(s: Sys, t: Step) {
    var j := s.Journal();
    match t
    case Intake(m, _, o, _) => SavePossible(j, o)
    case Restage(m, _, _) => !m.blankId && m.key in j.mem && !Done(j.mem[m.key].phase)
    case Tidy(key, _) => Done(PhaseOf(j, key))
    case Deliver(key, _, e) => SavePossible(j, e.claim) && Has(s.Inbox().rows, key) && key !in s.Inbox().busy
    case NoticeSent(key) => key in s.Inbox().busy && key !in s.flights
    case Submission(key, scope, o) => MayCall(s, key) && ChangePossible(s, key, Submit(scope), o)
    // onThreadCreated comes before turn/start, so the call cannot have taken effect.
    case ThreadCreated(call, scope, o) =>
      Alive(s, call) && s.calls[call].fate.Open? && ChangePossible(s, s.calls[call].key, Submit(scope), o)
    // Acceptance callbacks tell the truth.
    case Acceptance(call, c, o, _, _, _) =>
      && Alive(s, call) && s.calls[call].fate.Effective?
      && (c.NativeAccepted? || c.QueueAccepted? || c.TerminalAccepted?) && ChangePossible(s, s.calls[call].key, c, o)
    case TerminalDoubt(call, o) =>
      Alive(s, call) && !s.calls[call].fate.Refuted? && ChangePossible(s, s.calls[call].key, TerminalUnconfirmed, o)
    // So do definite refusals: the call of this flight had, and will have, no effect.
    case Finish(key, failed, o, o') =>
      && key in s.flights && s.flights[key].Acting? && key in j.mem && HandleSaves(j, key, failed, o, o')
      && (failed.Some? && DefiniteRefusal(failed.value) ==> MayCall(s, key))
    case Land(key, _) => key in s.flights && s.flights[key].Ended?
    case Recovery(key, c, o, _, _, _) =>
      (c.RecoverTerminal? || c.RecoverQueue? || c.RecoverNative?) && ChangePossible(s, key, c, o)
    case ResultSent(key, c, o) => c.ResultDelivered? && ChangePossible(s, key, c, o)
    case Retry(key, caller, target, _, _) => Retryable(s.world, key, caller, target, Some(target))
    case Cancel(key, caller, o, _) => Controllable(s.world, key, caller) && SavePossible(j, o)
    case Crash(_) => true
    case NativeAccepts(call) => call < |s.calls| && s.calls[call].fate.Open?
    case NativeRefuses(call) => call < |s.calls| && s.calls[call].fate.Open?
  }

  function WithTarget(approved: map<Key, set<Option<Target>>>, key: Key,
                      t: Option<Target>): map<Key, set<Option<Target>>> {
    approved[key := (if key in approved then approved[key] else {}) + {t}]
  }

  function Busy(x: Inbox, busy: set<Key>): Inbox { x.(busy := busy) }

  /** What `handle` throws after its action. */
  function ThrownBy(j: Journal, key: Key, failed: Option<Failure>, o: SaveOutcome, o': SaveOutcome): Option<Failure>
    requires key in j.mem
  {
    if HandleReturns(j, key, failed, o) then None
    else if failed.None? then Some(Other)
    else if j.mem[key].phase.Submitting? && !o'.Returned() then Some(Other)
    else failed
  }

  function Firsts(s: Sys, r: Receipt): set<(string, string, string)> {
    if r.sessionId.Some? && r.threadId.Some?
    then s.firsts + {(r.sessionId.value, OrElse(r.hostId, "local"), r.threadId.value)} else s.firsts
  }

  /** A receipt change and, when it is an acceptance that was saved, the inbox's reaction. */
  function Changed(s: Sys, key: Key, c: Change, o: SaveOutcome, accepts: bool, current: Option<Target>, w: FileWrite,
                   w': FileWrite): Sys
    requires key in s.Journal().mem
  {
    var j := AfterChange(s.Journal(), key, c, o);
    if accepts && o.Returned() then
      s.(world := World(j, AfterAccepted(s.Inbox(), key, Patched(s.Journal().mem[key], c), current, w, w')),
         firsts := Firsts(s, Patched(s.Journal().mem[key], c)))
    else s.(world := s.world.(journal := j))
  }

  function Next(s: Sys, t: Step): Sys
    requires Enabled(s, t)
  {
    match t
    case Intake(m, f, o, w) =>
      var (world, reply) := Claimed(s.world, m, f, o, w);
      s.(world := world,
         approved := if !Has(s.Inbox().rows, m.key) && Claimable(s.Journal(), m) && o.Returned()
                     then WithTarget(s.approved, m.key, f.target) else s.approved,
         saved := if reply == Reply.Returned(true) then s.saved + {m.key} else s.saved)
    case Restage(m, f, w) =>
      s.(world := s.world.(inbox := Staged(s.Inbox(), m, f, w).0),
         approved := if Has(s.Inbox().rows, m.key) then s.approved else WithTarget(s.approved, m.key, f.target))
    case Tidy(key, w) => s.(world := s.world.(inbox := AfterRemove(s.Inbox(), key, w)))
    case Deliver(key, initial, e) =>
      var (world, stop) := Delivered(s.world, key, initial, e);
      s.(world := if stop.Settled? then world else world.(inbox := Busy(world.inbox, world.inbox.busy + {key})),
         flights := if stop.Flying? then s.flights[key := Acting(None)] else s.flights,
         launches := if stop.Flying? then s.launches + [(key, At(s.Inbox().rows, key).target)] else s.launches)
    case NoticeSent(key) => s.(world := s.world.(inbox := Busy(s.Inbox(), s.Inbox().busy - {key})))
    // TurnSubmission.run: the durable mark, then at once the native call.
    case Submission(key, scope, o) =>
      var s' := Changed(s, key, Submit(scope), o, false, None, Committed, Committed);
      if !o.Returned() then s'
      else s'.(calls := s.calls + [Call(key, s.epoch, Open)], flights := s.flights[key := Acting(Some(|s.calls|))])
    case ThreadCreated(call, scope, o) =>
      Changed(s, s.calls[call].key, Submit(scope), o, false, None, Committed, Committed)
    case Acceptance(call, c, o, current, w, w') => Changed(s, s.calls[call].key, c, o, true, current, w, w')
    case TerminalDoubt(call, o) =>
      Changed(s, s.calls[call].key, TerminalUnconfirmed, o, false, None, Committed, Committed)
    case Finish(key, failed, o, o') =>
      s.(world := s.world.(journal := AfterHandle(s.Journal(), key, failed, o, o')),
         flights := s.flights[key := Ended(ThrownBy(s.Journal(), key, failed, o, o'))])
    case Land(key, e) =>
      var (world, stop) := Landed(s.world, key, s.flights[key].failed, e);
      s.(world := if stop.Settled? then world.(inbox := Busy(world.inbox, world.inbox.busy - {key})) else world,
         flights := s.flights - {key})
    case Recovery(key, c, o, current, w, w') => Changed(s, key, c, o, true, current, w, w')
    case ResultSent(key, c, o) => Changed(s, key, c, o, false, None, Committed, Committed)
    case Retry(key, _, target, now, w) =>
      s.(world := Retried(s.world, key, target, now, w), approved := WithTarget(s.approved, key, Some(target)))
    case Cancel(key, _, o, w) =>
      if Abandonable(s.Journal(), key) then s.(world := Cancelled(s.world, key, o, w)) else s
    case Crash(torn) =>
      s.(world := World(Restarted(s.Journal(), torn), Loaded(s.Inbox().disk, s.Inbox().clock)),
         flights := map[], epoch := s.epoch + 1)
    case NativeAccepts(call) => s.(calls := s.calls[call := s.calls[call].(fate := Effective)])
    case NativeRefuses(call) => s.(calls := s.calls[call := s.calls[call].(fate := Refuted)])
  }

  /** An account that starts with empty stores. */
  const Initial: Sys :=
    Sys(World(Journal.Journal(map[], map[], None, {}, {}), Loaded([], 0)), map[], [], 0, {}, map[], {}, [])

  ghost predicate Run(states: seq<Sys>, steps: seq<Step>) {
    && |states| == |steps| + 1 && states[0] == Initial
    && forall i :: 0 <= i < |steps| ==> Enabled(states[i], steps[i]) && states[i + 1] == Next(states[i], steps[i])
  }

  // ------------------------------------------------------- receipts everywhere

  /** Facts about a receipt that must hold in memory, on disk and in whatever a
      broken append may bring back. */
  datatype Fact = Submitted | Finished | Owned(m: Message)
  {
    predicate Holds(r: Receipt) {
      match this
      case Submitted => !r.phase.Received?
      case Finished => Done(r.phase) || StaysOpen(r)
      case Owned(m) => m.Owns(r)
    }
  }

  predicate Everywhere(j: Journal, key: Key, fact: Fact) {
    && key in j.mem && fact.Holds(j.mem[key])
    && key in j.disk && fact.Holds(j.disk[key])
    && (j.torn.Some? && j.torn.value.key == key ==> fact.Holds(j.torn.value.receipt))
  }

  lemma TransitionKeeps(j: Journal, key: Key, r: Receipt, o: SaveOutcome, k: Key, fact: Fact)
    requires key in j.mem && Everywhere(j, k, fact) && (k == key ==> fact.Holds(r))
    ensures Everywhere(AfterTransition(j, key, r, o), k, fact)
  {
  }

  /** A change never undoes one of these facts; only a settlement as `received` could. */
  lemma PatchKeeps(r: Receipt, active: bool, c: Change, fact: Fact)
    requires Permits(r, active, c) && fact.Holds(r)
    requires c.Settle? ==> c.to.Handled? || (c.to.Unconfirmed? && !fact.Finished?)
    ensures fact.Holds(Patched(r, c))
  {
  }

  lemma ChangeKeeps(j: Journal, key: Key, c: Change, o: SaveOutcome, k: Key, fact: Fact)
    requires key in j.mem && Permits(j.mem[key], key in j.processing, c) && Everywhere(j, k, fact)
    requires c.Settle? ==> c.to.Handled? || (c.to.Unconfirmed? && !fact.Finished?)
    ensures Everywhere(AfterChange(j, key, c, o), k, fact)
  {
    if k == key { PatchKeeps(j.mem[key], key in j.processing, c, fact); }
    TransitionKeeps(j, key, Patched(j.mem[key], c), o, k, fact);
  }

  lemma ClaimKeeps(j: Journal, m: Message, o: SaveOutcome, k: Key, fact: Fact)
    requires Claimable(j, m) && Everywhere(j, k, fact)
    ensures Everywhere(AfterClaim(j, m, o), k, fact)
  {
  }

  lemma RestartKeeps(j: Journal, torn: bool, k: Key, fact: Fact)
    requires Everywhere(j, k, fact)
    ensures Everywhere(Restarted(j, torn), k, fact)
  {
  }

  lemma EnterKeeps(j: Journal, m: Message, o: SaveOutcome, k: Key, fact: Fact)
    requires Everywhere(j, k, fact)
    ensures Everywhere(EnterHandle(j, m, o).1, k, fact)
  {
    if m.key !in j.processing && m.key !in j.claimed && Claimable(j, m) { ClaimKeeps(j, m, o, k, fact); }
  }

  lemma ActionKeeps(j: Journal, key: Key, failed: Option<Failure>, o: SaveOutcome, k: Key, fact: Fact)
    requires key in j.mem && Everywhere(j, k, fact)
    ensures Everywhere(AfterAction(j, key, failed, o), k, fact)
  {
    ChangeKeeps(j, key, Settle(Handled), o, k, fact);
  }

  lemma VerdictKeeps(j: Journal, key: Key, threw: bool, failed: Option<Failure>, o: SaveOutcome, k: Key, fact: Fact)
    requires key in j.mem && Everywhere(j, k, fact)
    requires k == key && fact.Submitted? ==> Verdicted(failed).Unconfirmed?
    ensures Everywhere(AfterVerdict(j, key, threw, failed, o), k, fact)
  {
    if threw && j.mem[key].phase.Submitting? {
      TransitionKeeps(j, key, Patched(j.mem[key], Settle(Verdicted(failed))), o, k, fact);
    }
  }

  lemma HandleKeeps(j: Journal, key: Key, failed: Option<Failure>, o: SaveOutcome, o': SaveOutcome, k: Key, fact: Fact)
    requires key in j.mem && Everywhere(j, k, fact)
    requires k == key && fact.Submitted? ==> Verdicted(failed).Unconfirmed?
    ensures Everywhere(AfterHandle(j, key, failed, o, o'), k, fact)
  {
    ActionKeeps(j, key, failed, o, k, fact);
    VerdictKeeps(AfterAction(j, key, failed, o), key, !HandleReturns(j, key, failed, o), failed, o', k, fact);
  }

  /** What each step does to the journal. */
  ghost predicate JournalStep(s: Sys, t: Step, j': Journal)
    requires Enabled(s, t)
  {
    var j := s.Journal();
    match t
    case Intake(m, _, o, _) =>
      if Claimable(j, m) then j' == AfterClaim(j, m, o) || j' == AfterRelease(AfterClaim(j, m, o), m.key) else j' == j
    case Deliver(key, _, e) => j' == j || j' == HandleEntry(s.world, key, e).1
    case Submission(key, scope, o) => j' == AfterChange(j, key, Submit(scope), o)
    case ThreadCreated(call, scope, o) => j' == AfterChange(j, s.calls[call].key, Submit(scope), o)
    case Acceptance(call, c, o, _, _, _) => j' == AfterChange(j, s.calls[call].key, c, o)
    case TerminalDoubt(call, o) => j' == AfterChange(j, s.calls[call].key, TerminalUnconfirmed, o)
    case Finish(key, failed, o, o') => j' == AfterHandle(j, key, failed, o, o')
    case Recovery(key, c, o, _, _, _) => j' == AfterChange(j, key, c, o)
    case ResultSent(key, c, o) => j' == AfterChange(j, key, c, o)
    case Cancel(key, _, o, _) => j' == if Abandonable(j, key) then AfterAbandon(j, key, o) else j
    case Crash(torn) => j' == Restarted(j, torn)
    case _ => j' == j
  }

  /** What each step does to the flights, the calls and the keys in delivery. */
  ghost predicate FlightStep(s: Sys, t: Step, s': Sys)
    requires Enabled(s, t)
  {
    var busy, busy' := s.Inbox().busy, s'.Inbox().busy;
    match t
    case Deliver(key, _, e) =>
      && s'.calls == s.calls && s'.epoch == s.epoch
      && ( || (HandleEntry(s.world, key, e) == (Running, s'.Journal())
               && s'.flights == s.flights[key := Acting(None)] && busy' == busy + {key})
           || (s'.flights == s.flights && busy <= busy'
               && (s'.Journal() == s.Journal() || !HandleEntry(s.world, key, e).0.Running?)))
    case NoticeSent(key) =>
      s'.calls == s.calls && s'.epoch == s.epoch && s'.flights == s.flights && busy' == busy - {key}
    case Submission(key, _, o) =>
      && s'.epoch == s.epoch && busy' == busy
      && (if !o.Returned() then s'.calls == s.calls && s'.flights == s.flights
          else (&& s'.calls == s.calls + [Call(key, s.epoch, Open)]
                && s'.flights == s.flights[key := Acting(Some(|s.calls|))]))
    case Finish(key, failed, o, o') =>
      && s'.calls == s.calls && s'.epoch == s.epoch && busy' == busy
      && s'.flights == s.flights[key := Ended(ThrownBy(s.Journal(), key, failed, o, o'))]
    case Land(key, _) =>
      s'.calls == s.calls && s'.epoch == s.epoch && s'.flights == s.flights - {key} && busy - {key} <= busy'
    case Crash(_) => s'.calls == s.calls && s'.epoch == s.epoch + 1 && s'.flights == map[]
    case NativeAccepts(call) =>
      s'.calls == s.calls[call := s.calls[call].(fate := Effective)] && s'.epoch == s.epoch
        && s'.flights == s.flights && busy' == busy
    case NativeRefuses(call) =>
      s'.calls == s.calls[call := s.calls[call].(fate := Refuted)] && s'.epoch == s.epoch
        && s'.flights == s.flights && busy' == busy
    case _ => s'.calls == s.calls && s'.epoch == s.epoch && s'.flights == s.flights && busy' == busy
  }

  lemma JournalMoves(s: Sys, t: Step)
    requires Enabled(s, t)
    ensures JournalStep(s, t, Next(s, t).Journal())
  {
  }

  lemma FlightMoves(s: Sys, t: Step)
    requires Enabled(s, t)
    ensures FlightStep(s, t, Next(s, t))
  {
    if t.Deliver? {
      DeliverMoves(s, t);
    } else if AboutCall(t) {
      CallMoves(s, t);
    } else {
      OtherMoves(s, t);
    }
  }

  predicate AboutCall(t: Step) {
    t.Submission? || t.Finish? || t.Land? || t.NativeAccepts? || t.NativeRefuses? || t.Crash?
  }

  lemma CallMoves(s: Sys, t: Step)
    requires AboutCall(t) && Enabled(s, t)
    ensures FlightStep(s, t, Next(s, t))
  {
  }

  lemma OtherMoves(s: Sys, t: Step)
    requires !AboutCall(t) && !t.Deliver? && Enabled(s, t)
    ensures FlightStep(s, t, Next(s, t))
  {
  }

  lemma DeliverMoves(s: Sys, t: Step)
    requires t.Deliver? && Enabled(s, t)
    ensures FlightStep(s, t, Next(s, t))
  {
  }

  /** No step undoes one of these facts about any message, except a definite refusal
      of that very message, which reopens it. */
  lemma StepKeeps(s: Sys, t: Step, j': Journal, k: Key, fact: Fact)
    requires Enabled(s, t) && JournalStep(s, t, j') && Everywhere(s.Journal(), k, fact)
    requires t.Finish? && t.fkey == k && fact.Submitted? ==> Verdicted(t.failed).Unconfirmed?
    ensures Everywhere(j', k, fact)
  {
    var j := s.Journal();
    match t
    case Intake(m, f, o, w) => if Claimable(j, m) { ClaimKeeps(j, m, o, k, fact); }
    case Deliver(key, initial, e) => EnterKeeps(j, At(s.Inbox().rows, key).message, e.claim, k, fact);
    case Submission(key, scope, o) => ChangeKeeps(j, key, Submit(scope), o, k, fact);
    case ThreadCreated(call, scope, o) => ChangeKeeps(j, s.calls[call].key, Submit(scope), o, k, fact);
    case Acceptance(call, c, o, _, _, _) => ChangeKeeps(j, s.calls[call].key, c, o, k, fact);
    case TerminalDoubt(call, o) => ChangeKeeps(j, s.calls[call].key, TerminalUnconfirmed, o, k, fact);
    case Finish(key, failed, o, o') => HandleKeeps(j, key, failed, o, o', k, fact);
    case Recovery(key, c, o, _, _, _) => ChangeKeeps(j, key, c, o, k, fact);
    case ResultSent(key, c, o) => ChangeKeeps(j, key, c, o, k, fact);
    case Cancel(key, _, o, _) => if Abandonable(j, key) { ChangeKeeps(j, key, Settle(Handled), o, k, fact); }
    case Crash(torn) => RestartKeeps(j, torn, k, fact);
    case _ =>
  }

  // ------------------------------------------------------- the invariant

  /** A later native call for a message means the earlier one was definitely refused. */
  ghost predicate OneLiveCall(s: Sys) {
    forall i, k :: 0 <= i < k < |s.calls| && s.calls[i].key == s.calls[k].key ==> s.calls[i].fate.Refuted?
  }

  predicate Live(s: Sys, i: nat) requires i < |s.calls| { !s.calls[i].fate.Refuted? }

  /** While a native call may have had an effect, no copy of the receipt is `received`. */
  ghost predicate Shielded(s: Sys) {
    forall i :: 0 <= i < |s.calls| && Live(s, i) ==>
      Everywhere(s.Journal(), s.calls[i].key, Submitted)
  }

  predicate ClaimFresh(j: Journal, k: Key) {
    k in j.claimed ==> k in j.mem && j.mem[k].phase.Received? && k !in j.processing
  }

  ghost predicate ClaimsFresh(s: Sys) { forall k :: ClaimFresh(s.Journal(), k) }

  /** A flight is in delivery and, while it acts, in `processing`; it knows the only
      call of its message that may be live; ended well, its receipt is finished. */
  ghost predicate FlightKnown(s: Sys, k: Key) {
    && (k in s.Journal().processing <==> k in s.flights && s.flights[k].Acting?)
    && (k in s.flights ==>
          && k in s.Inbox().busy && k in s.Journal().mem
          && match s.flights[k]
             case Acting(call) =>
               && (call.Some? ==> call.value < |s.calls| && s.calls[call.value].key == k)
               && (forall i :: 0 <= i < |s.calls| && s.calls[i].key == k && Live(s, i) ==> call == Some(i))
             case Ended(failed) => failed.None? ==> Everywhere(s.Journal(), k, Finished))
  }

  ghost predicate FlightsKnown(s: Sys) { forall k :: FlightKnown(s, k) }

  /** Memory is never stronger than the disk about a message being finished. */
  predicate FinishDurable(j: Journal, k: Key) {
    k in j.mem && Finished.Holds(j.mem[k]) ==> Everywhere(j, k, Finished)
  }

  ghost predicate FinishedDurable(j: Journal) { forall k :: FinishDurable(j, k) }

  ghost predicate AtMostOnceInv(s: Sys) {
    OneLiveCall(s) && Shielded(s) && ClaimsFresh(s) && FlightsKnown(s) && FinishedDurable(s.Journal())
  }

  lemma NoLiveCall(s: Sys, key: Key)
    requires Shielded(s)
    requires key in s.Journal().mem ==> s.Journal().mem[key].phase.Received?
    ensures forall i :: 0 <= i < |s.calls| && s.calls[i].key == key ==> !Live(s, i)
  {
  }

  lemma NoCallAfterRefusal(s: Sys, key: Key)
    requires FlightsKnown(s) && MayCall(s, key)
    ensures forall i :: 0 <= i < |s.calls| && s.calls[i].key == key ==> !Live(s, i)
  {
    assert FlightKnown(s, key);
  }

  lemma KeepsOneLiveCall(s: Sys, t: Step, s': Sys)
    requires AtMostOnceInv(s) && Enabled(s, t) && FlightStep(s, t, s')
    ensures OneLiveCall(s')
  {
    if t.Submission? { NoCallAfterRefusal(s, t.skey); }
  }

  lemma KeepsShielded(s: Sys, t: Step, s': Sys, i: nat)
    requires AtMostOnceInv(s) && Enabled(s, t) && FlightStep(s, t, s') && JournalStep(s, t, s'.Journal())
    requires i < |s'.calls| && Live(s', i)
    ensures Everywhere(s'.Journal(), s'.calls[i].key, Submitted)
  {
    if i == |s.calls| {
      assert t.Submission?;
    } else {
      var key := s'.calls[i].key;
      assert Live(s, i) && s.calls[i].key == key;
      if t.Finish? && t.fkey == key && Verdicted(t.failed).Received? { NoCallAfterRefusal(s, key); }
      StepKeeps(s, t, s'.Journal(), key, Submitted);
    }
  }

  lemma ChangeFresh(j: Journal, key: Key, c: Change, o: SaveOutcome, k: Key)
    requires key in j.mem && key !in j.claimed && ClaimFresh(j, k)
    ensures ClaimFresh(AfterChange(j, key, c, o), k)
  {
  }

  lemma ClaimingFresh(j: Journal, m: Message, o: SaveOutcome, k: Key)
    requires Claimable(j, m) && ClaimFresh(j, k)
    ensures ClaimFresh(AfterClaim(j, m, o), k)
  {
  }

  lemma EnterFresh(j: Journal, m: Message, o: SaveOutcome, k: Key)
    requires ClaimFresh(j, k)
    ensures ClaimFresh(EnterHandle(j, m, o).1, k)
  {
    if m.key !in j.processing && m.key !in j.claimed && Claimable(j, m) { ClaimingFresh(j, m, o, k); }
  }

  lemma HandleFresh(j: Journal, key: Key, failed: Option<Failure>, o: SaveOutcome, o': SaveOutcome, k: Key)
    requires key in j.mem && key !in j.claimed && ClaimFresh(j, k)
    ensures ClaimFresh(AfterHandle(j, key, failed, o, o'), k)
  {
    ChangeFresh(j, key, Settle(Handled), o, k);
    ChangeFresh(AfterAction(j, key, failed, o), key, Settle(Verdicted(failed)), o', k);
  }

  /** A claimed message is untouched by every step but its own `handle` or cancellation. */
  lemma KeepsClaimFresh(s: Sys, t: Step, j': Journal, k: Key)
    requires AtMostOnceInv(s) && Enabled(s, t) && JournalStep(s, t, j')
    ensures ClaimFresh(j', k)
  {
    var j := s.Journal();
    assert ClaimFresh(j, k);
    match t
    case Intake(m, _, o, _) => if Claimable(j, m) { ClaimingFresh(j, m, o, k); }
    case Deliver(key, _, e) => EnterFresh(j, At(s.Inbox().rows, key).message, e.claim, k);
    case Submission(key, scope, o) =>
      assert ClaimFresh(j, key) && FlightKnown(s, key);
      ChangeFresh(j, key, Submit(scope), o, k);
    case ThreadCreated(call, scope, o) =>
      assert Live(s, call);
      assert ClaimFresh(j, s.calls[call].key);
      ChangeFresh(j, s.calls[call].key, Submit(scope), o, k);
    case Acceptance(call, c, o, _, _, _) =>
      assert Live(s, call);
      assert ClaimFresh(j, s.calls[call].key);
      ChangeFresh(j, s.calls[call].key, c, o, k);
    case TerminalDoubt(call, o) =>
      assert Live(s, call);
      assert ClaimFresh(j, s.calls[call].key);
      ChangeFresh(j, s.calls[call].key, TerminalUnconfirmed, o, k);
    case Finish(key, failed, o, o') =>
      assert ClaimFresh(j, key) && FlightKnown(s, key);
      HandleFresh(j, key, failed, o, o', k);
    case Recovery(key, c, o, _, _, _) => assert ClaimFresh(j, key); ChangeFresh(j, key, c, o, k);
    case ResultSent(key, c, o) => assert ClaimFresh(j, key); ChangeFresh(j, key, c, o, k);
    case _ =>
  }

  // ------------------------------------------------------- flights

  lemma KeepsFlights(s: Sys, t: Step, s': Sys)
    requires AtMostOnceInv(s) && Enabled(s, t) && FlightStep(s, t, s') && JournalStep(s, t, s'.Journal())
    ensures FlightsKnown(s')
  {
    forall k ensures FlightKnown(s', k) {
      KeepsFinishDurable(s, t, s'.Journal(), k);
      KeepsFlight(s, t, s', k);
    }
  }

  /** `handle` starts an action only for a message that is new or `received`, and only
      for the sender and conversation its receipt names. */
  lemma EnterRunning(j: Journal, m: Message, o: SaveOutcome)
    requires ClaimFresh(j, m.key) && EnterHandle(j, m, o).0.Running?
    ensures m.key in j.mem ==> j.mem[m.key].phase.Received?
    ensures var j' := EnterHandle(j, m, o).1;
      m.key in j'.mem && m.Owns(j'.mem[m.key]) && (m.key in j.mem ==> m.Owns(j.mem[m.key]))
      && m.key !in j.processing && m.key in j'.processing && m.key !in j'.claimed
  {
  }

  lemma ChangeDurable(j: Journal, key: Key, c: Change, o: SaveOutcome, k: Key)
    requires key in j.mem && FinishDurable(j, k) && SavePossible(j, o)
    requires c.Settle? && !c.to.Handled? ==> j.mem[key].phase.Submitting?
    requires c.Settle? || Permits(j.mem[key], key in j.processing, c)
    ensures FinishDurable(AfterChange(j, key, c, o), k)
  {
    if Everywhere(j, k, Finished) && !(c.Settle? && !c.to.Handled? && k == key) { ChangeKeeps'(j, key, c, o, k); }
  }

  lemma ChangeKeeps'(j: Journal, key: Key, c: Change, o: SaveOutcome, k: Key)
    requires key in j.mem && Everywhere(j, k, Finished)
    requires k == key ==> Permits(j.mem[key], key in j.processing, c) && (c.Settle? ==> c.to.Handled?)
    ensures Everywhere(AfterChange(j, key, c, o), k, Finished)
  {
    if k == key { PatchKeeps(j.mem[key], key in j.processing, c, Finished); }
    TransitionKeeps(j, key, Patched(j.mem[key], c), o, k, Finished);
  }

  lemma VerdictDurable(j: Journal, key: Key, threw: bool, failed: Option<Failure>, o: SaveOutcome, k: Key)
    requires key in j.mem && FinishDurable(j, k)
    requires threw && j.mem[key].phase.Submitting? ==> SavePossible(j, o)
    ensures FinishDurable(AfterVerdict(j, key, threw, failed, o), k)
  {
    if threw && j.mem[key].phase.Submitting? { ChangeDurable(j, key, Settle(Verdicted(failed)), o, k); }
  }

  lemma HandleDurable(j: Journal, key: Key, failed: Option<Failure>, o: SaveOutcome, o': SaveOutcome, k: Key)
    requires key in j.mem && FinishDurable(j, k) && HandleSaves(j, key, failed, o, o')
    ensures FinishDurable(AfterHandle(j, key, failed, o, o'), k)
  {
    if failed.None? && !StaysOpen(j.mem[key]) { ChangeDurable(j, key, Settle(Handled), o, k); }
    VerdictDurable(AfterAction(j, key, failed, o), key, !HandleReturns(j, key, failed, o), failed, o', k);
  }

  lemma EnterDurable(j: Journal, m: Message, o: SaveOutcome, k: Key)
    requires FinishDurable(j, k)
    ensures FinishDurable(EnterHandle(j, m, o).1, k)
  {
    if m.key !in j.processing && m.key !in j.claimed && Claimable(j, m) { ClaimDurable(j, m, o, k); }
  }

  lemma ClaimDurable(j: Journal, m: Message, o: SaveOutcome, k: Key)
    requires FinishDurable(j, k) && Claimable(j, m)
    ensures FinishDurable(AfterClaim(j, m, o), k)
  {
    if Everywhere(j, k, Finished) { ClaimKeeps(j, m, o, k, Finished); }
  }

  lemma KeepsFinishDurable(s: Sys, t: Step, j': Journal, k: Key)
    requires Enabled(s, t) && JournalStep(s, t, j') && FinishDurable(s.Journal(), k)
    ensures FinishDurable(j', k)
  {
    var j := s.Journal();
    match t
    case Intake(m, _, o, _) => if Claimable(j, m) { ClaimDurable(j, m, o, k); }
    case Deliver(key, _, e) => EnterDurable(j, At(s.Inbox().rows, key).message, e.claim, k);
    case Submission(key, scope, o) => ChangeDurable(j, key, Submit(scope), o, k);
    case ThreadCreated(call, scope, o) => ChangeDurable(j, s.calls[call].key, Submit(scope), o, k);
    case Acceptance(call, c, o, _, _, _) => ChangeDurable(j, s.calls[call].key, c, o, k);
    case TerminalDoubt(call, o) => ChangeDurable(j, s.calls[call].key, TerminalUnconfirmed, o, k);
    case Finish(key, failed, o, o') => HandleDurable(j, key, failed, o, o', k);
    case Recovery(key, c, o, _, _, _) => ChangeDurable(j, key, c, o, k);
    case ResultSent(key, c, o) => ChangeDurable(j, key, c, o, k);
    case Cancel(key, _, o, _) => if Abandonable(j, key) { ChangeDurable(j, key, Settle(Handled), o, k); }
    case _ =>
  }

  lemma HandleEnds(j: Journal, key: Key, failed: Option<Failure>, o: SaveOutcome, o': SaveOutcome)
    requires key in j.mem
    ensures key in AfterHandle(j, key, failed, o, o').mem
    ensures ThrownBy(j, key, failed, o, o').None? ==> Finished.Holds(AfterHandle(j, key, failed, o, o').mem[key])
  {
  }

  /** What `handle` throws: nothing exactly when its action returned and the receipt was
      settled, or is terminal input left unconfirmed; the action's own error unless
      settling it failed as well. */
  lemma ThrownMeans(j: Journal, key: Key, failed: Option<Failure>, o: SaveOutcome, o': SaveOutcome)
    requires key in j.mem
    ensures
      var open := j.mem[key].runtimeInput && j.mem[key].phase.Unconfirmed?;
      var thrown := ThrownBy(j, key, failed, o, o');
      && (thrown.None? <==> failed.None? && (open || o.Appended? || o.Compacted?))
      && (failed.Some? && (!j.mem[key].phase.Submitting? || o'.Appended? || o'.Compacted?) ==> thrown == failed)
      && (thrown.Some? && thrown != failed ==> thrown.value.Other?)
  {
  }

  lemma KeepsFlight(s: Sys, t: Step, s': Sys, k: Key)
    requires AtMostOnceInv(s) && Enabled(s, t) && FlightStep(s, t, s') && JournalStep(s, t, s'.Journal())
    requires FinishDurable(s'.Journal(), k)
    ensures FlightKnown(s', k)
  {
    assert FlightKnown(s, k);
    if k in s.flights && s.flights[k] == Ended(None) { StepKeeps(s, t, s'.Journal(), k, Finished); }
    if t.Deliver? && t.key == k {
      if k in s'.flights { FlightStarts(s, t, s', k); }
    } else if t.Finish? && t.fkey == k {
      HandleEnds(s.Journal(), k, t.failed, t.fo, t.fo');
    } else if t.Submission? && t.skey == k {
      NoCallAfterRefusal(s, k);
    } else {
      FlightStays(s, t, s', k);
    }
  }

  lemma FlightStarts(s: Sys, t: Step, s': Sys, k: Key)
    requires AtMostOnceInv(s) && Enabled(s, t) && FlightStep(s, t, s') && JournalStep(s, t, s'.Journal())
    requires t.Deliver? && t.key == k && k in s'.flights
    ensures FlightKnown(s', k)
  {
    assert FlightKnown(s, k) && ClaimFresh(s.Journal(), k);
    EnterRunning(s.Journal(), At(s.Inbox().rows, k).message, t.e.claim);
    NoLiveCall(s, k);
  }

  /** Only entering and leaving `handle` changes who is in `processing`. */
  lemma ProcessingStays(s: Sys, t: Step, j': Journal, k: Key)
    requires Enabled(s, t) && JournalStep(s, t, j') && !t.Crash?
    requires !(t.Deliver? && t.key == k) && !(t.Finish? && t.fkey == k)
    ensures k in j'.processing <==> k in s.Journal().processing
    ensures k in s.Journal().mem ==> k in j'.mem
  {
  }

  lemma FlightStays(s: Sys, t: Step, s': Sys, k: Key)
    requires FlightKnown(s, k) && Enabled(s, t) && FlightStep(s, t, s') && JournalStep(s, t, s'.Journal())
    requires !(t.Deliver? && t.key == k) && !(t.Finish? && t.fkey == k) && !(t.Submission? && t.skey == k)
    requires k in s.flights && s.flights[k] == Ended(None) ==> Everywhere(s'.Journal(), k, Finished)
    ensures FlightKnown(s', k)
  {
    if !t.Crash? {
      ProcessingStays(s, t, s'.Journal(), k);
      FlightsStay(s, t, s', k);
    }
  }

  lemma FlightsStay(s: Sys, t: Step, s': Sys, k: Key)
    requires FlightKnown(s, k) && Enabled(s, t) && FlightStep(s, t, s') && !t.Crash?
    requires !(t.Deliver? && t.key == k) && !(t.Finish? && t.fkey == k) && !(t.Submission? && t.skey == k)
    ensures k in s'.flights ==> k in s.flights && s'.flights[k] == s.flights[k] && k in s'.Inbox().busy
    ensures k in s.flights ==> k in s'.flights || s.flights[k].Ended?
    ensures |s.calls| <= |s'.calls| && forall i :: 0 <= i < |s.calls| ==> s'.calls[i].key == s.calls[i].key
    ensures forall i :: 0 <= i < |s'.calls| && s'.calls[i].key == k && Live(s', i) ==> i < |s.calls| && Live(s, i)
  {
  }

  // ------------------------------------------------------- at most once

  lemma KeepsAtMostOnce(s: Sys, t: Step)
    requires AtMostOnceInv(s) && Enabled(s, t)
    ensures AtMostOnceInv(Next(s, t))
  {
    var s' := Next(s, t);
    JournalMoves(s, t);
    FlightMoves(s, t);
    KeepsOneLiveCall(s, t, s');
    forall i | 0 <= i < |s'.calls| && Live(s', i) ensures Everywhere(s'.Journal(), s'.calls[i].key, Submitted) {
      KeepsShielded(s, t, s', i);
    }
    forall k ensures ClaimFresh(s'.Journal(), k) { KeepsClaimFresh(s, t, s'.Journal(), k); }
    forall k ensures FinishDurable(s'.Journal(), k) { KeepsFinishDurable(s, t, s'.Journal(), k); }
    KeepsFlights(s, t, s');
  }

  lemma {:induction false} EveryState(states: seq<Sys>, steps: seq<Step>, n: nat)
    requires Run(states, steps) && n < |states|
    ensures AtMostOnceInv(states[n])
  {
    if n > 0 {
      EveryState(states, steps, n - 1);
      KeepsAtMostOnce(states[n - 1], steps[n - 1]);
    }
  }

  /** In every run, with any crashes, redeliveries, ticks, retries and recoveries:
      a message is submitted again only after the earlier submission was definitely
      refused, so at most one submission of it ever takes effect. */
  lemma AtMostOneNativeEffect(states: seq<Sys>, steps: seq<Step>, n: nat, i: nat, k: nat)
    requires Run(states, steps) && n < |states| && i < k < |states[n].calls|
    requires states[n].calls[i].key == states[n].calls[k].key
    ensures states[n].calls[i].fate.Refuted?
  {
    EveryState(states, steps, n);
  }

  /** The native call comes after a durable mark: whatever a crash right after it
      leaves of the file, the restarted receipt is not `received`. */
  lemma SubmissionIsDurable(s: Sys, t: Step, torn: bool)
    requires AtMostOnceInv(s) && Enabled(s, t) && |Next(s, t).calls| > |s.calls|
    ensures t.Submission?
    ensures var restarted := Restarted(Next(s, t).Journal(), torn);
            t.skey in restarted.mem && !restarted.mem[t.skey].phase.Received?
  {
    FlightMoves(s, t);
    KeepsAtMostOnce(s, t);
    assert Live(Next(s, t), |s.calls|);
    RestartKeeps(Next(s, t).Journal(), torn, t.skey, Submitted);
  }

  /** A message becomes submittable again only by a definite refusal of an attempt
      that was `submitting`, or by a restart when no call of it can be in effect. */
  lemma OnlyRefusalReopens(s: Sys, t: Step, k: Key)
    requires AtMostOnceInv(s) && Enabled(s, t)
    requires k in s.Journal().mem && !s.Journal().mem[k].phase.Received?
    requires k in Next(s, t).Journal().mem && Next(s, t).Journal().mem[k].phase.Received?
    ensures || (t.Finish? && t.fkey == k && DefiniteRefusalOf(t.failed) && s.Journal().mem[k].phase.Submitting?)
            || (t.Crash? && forall i :: 0 <= i < |s.calls| && s.calls[i].key == k ==> s.calls[i].fate.Refuted?)
  {
    JournalMoves(s, t);
    if t.Crash? {
      forall i | 0 <= i < |s.calls| && s.calls[i].key == k ensures s.calls[i].fate.Refuted? {
        if Live(s, i) { RestartKeeps(s.Journal(), t.tornSurvived, k, Submitted); }
      }
    } else {
      Reopened(s, t, Next(s, t).Journal(), k);
    }
  }

  predicate DefiniteRefusalOf(failed: Option<Failure>) { failed.Some? && DefiniteRefusal(failed.value) }

  lemma FinishReopened(j: Journal, key: Key, failed: Option<Failure>, o: SaveOutcome, o': SaveOutcome, k: Key)
    requires key in j.mem && k in j.mem && !j.mem[k].phase.Received?
    requires var j' := AfterHandle(j, key, failed, o, o'); k in j'.mem && j'.mem[k].phase.Received?
    ensures key == k && DefiniteRefusalOf(failed) && j.mem[k].phase.Submitting?
  {
    if key == k { assert Verdicted(failed).Received?; }
  }

  lemma Reopened(s: Sys, t: Step, j': Journal, k: Key)
    requires Enabled(s, t) && JournalStep(s, t, j') && !t.Crash?
    requires k in s.Journal().mem && !s.Journal().mem[k].phase.Received? && k in j'.mem && j'.mem[k].phase.Received?
    ensures t.Finish? && t.fkey == k && DefiniteRefusalOf(t.failed) && s.Journal().mem[k].phase.Submitting?
  {
    if t.Finish? { FinishReopened(s.Journal(), t.fkey, t.failed, t.fo, t.fo', k); }
  }
}
