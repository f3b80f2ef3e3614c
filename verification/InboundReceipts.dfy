/** `InboundReceiptJournal`: which incoming message has been claimed, handed to
    the native side, accepted or settled.

    `Journal` is the journal as a value: the receipts in memory, the map the file
    stands for, the fact a broken append may have left behind, and the two in-memory
    sets.  The class below it keeps the file as bytes and is tied to these functions
    method by method. */
module InboundReceipts {
  import opened Common
  import opened Bytes
  import opened ReceiptLog

  datatype Journal = Journal(
    mem: map<Key, Receipt>, disk: map<Key, Receipt>, torn: Option<Entry>,
    claimed: set<Key>, processing: set<Key>)
  {
    predicate Blocked() { torn.Some? }

    /** Readable after a restart, whatever the broken append left. */
    ghost predicate WellFormed() {
      && (forall k :: k in mem ==> mem[k].WellFormed())
      && (forall k :: k in disk ==> disk[k].WellFormed())
      && (torn.Some? ==> torn.value.receipt.WellFormed())
    }
  }

  // ------------------------------------------------------------ saving

  /** How one `save` ended.  `Blocked`: no append was attempted.  `Unchanged`: the
      append failed and was cut off again.  `Torn`: it failed and could not be cut
      off.  `CompactionFailed`: the fact is on disk, but rewriting the file failed. */
  datatype SaveOutcome = Blocked | Unchanged | Torn | Appended | Compacted | CompactionFailed(renamed: bool)
  {
    predicate Returned() { Appended? || Compacted? }
  }

  predicate SavePossible(j: Journal, o: SaveOutcome) { o.Blocked? <==> j.Blocked() }

  function AfterSave(j: Journal, key: Key, o: SaveOutcome): (j': Journal)
    requires key in j.mem
    ensures j'.mem == j.mem && j'.claimed == j.claimed && j'.processing == j.processing
  {
    match o
    case Blocked => j
    case Unchanged => j
    case Torn => j.(torn := Some(Entry(key, j.mem[key])))
    case Appended => j.(disk := j.disk[key := j.mem[key]])
    case Compacted => j.(disk := j.mem)
    case CompactionFailed(renamed) => j.(disk := if renamed then j.mem else j.disk[key := j.mem[key]])
  }

  /** Change one receipt; a save that throws puts the old value back in memory. */
  function AfterTransition(j: Journal, key: Key, r: Receipt, o: SaveOutcome): (j': Journal)
    requires key in j.mem
    ensures j'.claimed == j.claimed && j'.processing == j.processing
    ensures j'.mem == if o.Returned() then j.mem[key := r] else j.mem
  {
    var tried := AfterSave(j.(mem := j.mem[key := r]), key, o);
    if o.Returned() then tried else tried.(mem := j.mem)
  }

  // ------------------------------------------------------------ changes

  /** A field of a scope object: absent, or assigned (perhaps to undefined). */
  datatype Assign = Leave | Write(field: Option<string>)
  function Assigned(old_: Option<string>, a: Assign): Option<string> { if a.Write? then a.field else old_ }

  datatype Scope = Scope(sessionId: Assign, hostId: Assign, threadId: Assign, nativeInput: bool, runtimeInput: bool)

  datatype QueueProof = QueueProof(actorId: string, conversationId: string, sessionId: string, hostId: string,
    threadId: string, queuedSubmissionId: Option<string>, turnId: Option<string>)

  /** Every way a stored receipt changes after it was claimed. */
  datatype Change =
    | Submit(scope: Scope)
    | NativeAccepted(thread: string, turn: string)
    | QueueAccepted(qthread: string, queued: string, qturn: Option<string>)
    | TerminalAccepted(tthread: string)
    | TerminalUnconfirmed
    | Settle(to: Phase)
    | RecoverTerminal(tproof: QueueProof)
    | RecoverQueue(qexpected: Receipt, qproof: QueueProof)
    | RecoverNative(nexpected: Receipt, nhost: string, nthread: string, nturn: string)
    | ResultDelivered(dexpected: Receipt)

  predicate Filled(field: Option<string>) { field.Some? && !Blank(field.value) }
  predicate Recoverable(r: Receipt) { r.phase.Submitting? || r.phase.Unconfirmed? }
  predicate NativeEvidence(r: Receipt) { r.nativeInput || Truthy(r.turnId) || Truthy(r.queuedSubmissionId) }

  /** The check a change makes before touching the receipt. */
  predicate Permits(r: Receipt, active: bool, c: Change) {
    match c
    case Submit(s) => !((s.runtimeInput || r.runtimeInput) && (s.nativeInput || NativeEvidence(r)))
    case NativeAccepted(_, _) => !r.runtimeInput
    case QueueAccepted(_, _, _) => !r.runtimeInput
    case TerminalAccepted(_) => r.runtimeInput && !r.nativeInput && !Truthy(r.turnId)
    case TerminalUnconfirmed => r.runtimeInput
    case Settle(_) => true
    case RecoverTerminal(p) =>
      && !active && r.runtimeInput && !NativeEvidence(r) && Recoverable(r)
      && r.sessionId == Some(p.sessionId) && r.threadId == Some(p.threadId)
      && OrElse(r.hostId, "local") == p.hostId
      && r.actorId == Some(p.actorId) && r.conversationId == Some(p.conversationId)
    case RecoverQueue(expected, p) =>
      && !active && Recoverable(r) && !r.nativeInput && !r.runtimeInput && r == expected
      && r.actorId == Some(p.actorId) && r.conversationId == Some(p.conversationId)
      && r.sessionId == Some(p.sessionId) && OrElse(r.hostId, "local") == p.hostId && r.threadId == Some(p.threadId)
      && (Filled(p.queuedSubmissionId) || Filled(p.turnId))
      && (Truthy(r.queuedSubmissionId) ==> r.queuedSubmissionId == p.queuedSubmissionId)
      && (Truthy(r.turnId) ==> r.turnId == p.turnId)
    case RecoverNative(expected, host, thread, turn) =>
      && !active && Recoverable(r) && !r.runtimeInput && r == expected && !Blank(turn)
      && OrElse(r.hostId, "local") == host && r.threadId == Some(thread)
      && (Truthy(r.turnId) ==> r.turnId == Some(turn))
    case ResultDelivered(expected) => r.phase.Accepted? && r.recoveredNativeInput && r == expected
  }

  function Patched(r: Receipt, c: Change): Receipt {
    match c
    case Submit(s) => r.(
        sessionId := Assigned(r.sessionId, s.sessionId), hostId := Assigned(r.hostId, s.hostId),
        threadId := Assigned(r.threadId, s.threadId),
        nativeInput := r.nativeInput || s.nativeInput, runtimeInput := r.runtimeInput || s.runtimeInput,
        phase := if r.phase.Received? then Submitting else r.phase)
    case NativeAccepted(thread, turn) => r.(phase := Accepted, threadId := Some(thread), turnId := Some(turn))
    case QueueAccepted(thread, queued, turn) =>
      r.(phase := Accepted, threadId := Some(thread), queuedSubmissionId := Some(queued),
         turnId := if Truthy(turn) then turn else r.turnId)
    case TerminalAccepted(thread) => r.(phase := Accepted, threadId := Some(thread))
    case TerminalUnconfirmed => r.(phase := Unconfirmed)
    case Settle(to) => r.(phase := to)
    case RecoverTerminal(_) => r.(phase := Accepted)
    case RecoverQueue(_, p) => r.(phase := Accepted,
        queuedSubmissionId := if Truthy(p.queuedSubmissionId) then p.queuedSubmissionId else r.queuedSubmissionId,
        turnId := if Truthy(p.turnId) then p.turnId else r.turnId)
    case RecoverNative(_, _, _, turn) => r.(phase := Accepted, turnId := Some(turn), recoveredNativeInput := true)
    case ResultDelivered(_) => r.(phase := Handled)
  }

  /** What each change writes, field by field; nothing else of the receipt changes. */
  lemma ChangeRecords(r: Receipt, c: Change)
    ensures
      var r' := Patched(r, c);
      && r'.actorId == r.actorId && r'.conversationId == r.conversationId
      && (!c.Submit? ==>
            && r'.sessionId == r.sessionId && r'.hostId == r.hostId
            && r'.nativeInput == r.nativeInput && r'.runtimeInput == r.runtimeInput)
      && (!c.RecoverNative? ==> r'.recoveredNativeInput == r.recoveredNativeInput)
      && match c
         case Submit(scope) =>
           && (scope.sessionId.Write? ==> r'.sessionId == scope.sessionId.field)
           && (scope.sessionId.Leave? ==> r'.sessionId == r.sessionId)
           && (scope.hostId.Write? ==> r'.hostId == scope.hostId.field)
           && (scope.hostId.Leave? ==> r'.hostId == r.hostId)
           && (scope.threadId.Write? ==> r'.threadId == scope.threadId.field)
           && (scope.threadId.Leave? ==> r'.threadId == r.threadId)
           && r'.turnId == r.turnId && r'.queuedSubmissionId == r.queuedSubmissionId
           && (r'.nativeInput <==> r.nativeInput || scope.nativeInput)
           && (r'.runtimeInput <==> r.runtimeInput || scope.runtimeInput)
           && (r.phase.Received? ==> r'.phase.Submitting?) && (!r.phase.Received? ==> r'.phase == r.phase)
         case NativeAccepted(thread, turn) =>
           && r'.phase.Accepted? && r'.threadId == Some(thread) && r'.turnId == Some(turn)
           && r'.queuedSubmissionId == r.queuedSubmissionId
         case QueueAccepted(thread, queued, turn) =>
           && r'.phase.Accepted? && r'.threadId == Some(thread) && r'.queuedSubmissionId == Some(queued)
           && (turn.Some? && turn.value != "" ==> r'.turnId == turn)
           && (turn.None? || turn.value == "" ==> r'.turnId == r.turnId)
         case TerminalAccepted(thread) =>
           && r'.phase.Accepted? && r'.threadId == Some(thread)
           && r'.turnId == r.turnId && r'.queuedSubmissionId == r.queuedSubmissionId
         case RecoverQueue(_, proof) =>
           && r'.phase.Accepted? && r'.threadId == r.threadId
           && (Truthy(proof.queuedSubmissionId) ==> r'.queuedSubmissionId == proof.queuedSubmissionId)
           && (!Truthy(proof.queuedSubmissionId) ==> r'.queuedSubmissionId == r.queuedSubmissionId)
           && (Truthy(proof.turnId) ==> r'.turnId == proof.turnId)
           && (!Truthy(proof.turnId) ==> r'.turnId == r.turnId)
         case RecoverNative(_, _, _, turn) =>
           && r'.phase.Accepted? && r'.turnId == Some(turn) && r'.recoveredNativeInput
           && r'.threadId == r.threadId && r'.queuedSubmissionId == r.queuedSubmissionId
         case _ =>
           && r'.threadId == r.threadId && r'.turnId == r.turnId && r'.queuedSubmissionId == r.queuedSubmissionId
           && (c.TerminalUnconfirmed? ==> r'.phase.Unconfirmed?)
           && (c.Settle? ==> r'.phase == c.to) && (c.RecoverTerminal? ==> r'.phase.Accepted?)
           && (c.ResultDelivered? ==> r'.phase.Handled?)
  {
  }

  /** Which changes go ahead: no change ever mixes terminal input with native evidence,
      a recovery needs an idle doubtful receipt of exactly the identity its proof names,
      and within these bounds none is refused. */
  lemma PermittedIff(r: Receipt, active: bool, c: Change)
    requires r.WellFormed()
    ensures
      var doubtful := !active && (r.phase.Submitting? || r.phase.Unconfirmed?);
      var host := if r.hostId.None? then "local" else r.hostId.value;
      match c
      case RecoverTerminal(p) => Permits(r, active, c) <==>
        doubtful && r.runtimeInput
        && r.actorId == Some(p.actorId) && r.conversationId == Some(p.conversationId)
        && r.sessionId == Some(p.sessionId) && r.threadId == Some(p.threadId) && host == p.hostId
      case RecoverQueue(expected, p) => Permits(r, active, c) <==>
        doubtful && !r.runtimeInput && !r.nativeInput && r == expected
        && r.actorId == Some(p.actorId) && r.conversationId == Some(p.conversationId)
        && r.sessionId == Some(p.sessionId) && r.threadId == Some(p.threadId) && host == p.hostId
        && (p.queuedSubmissionId.None? || Blank(p.queuedSubmissionId.value) ==>
              p.turnId.Some? && !Blank(p.turnId.value))
        && (r.queuedSubmissionId.Some? && r.queuedSubmissionId.value != "" ==>
              r.queuedSubmissionId == p.queuedSubmissionId)
        && (r.turnId.Some? && r.turnId.value != "" ==> r.turnId == p.turnId)
      case RecoverNative(expected, host', thread, turn) => Permits(r, active, c) <==>
        doubtful && !r.runtimeInput && r == expected && r.threadId == Some(thread) && host == host'
        && !Blank(turn) && (r.turnId.Some? && r.turnId.value != "" ==> r.turnId == Some(turn))
      case ResultDelivered(expected) => Permits(r, active, c) <==>
        r.phase.Accepted? && r.recoveredNativeInput && r == expected
      case Submit(scope) => Permits(r, active, c) <==> Patched(r, c).WellFormed()
      case NativeAccepted(_, _) => Permits(r, active, c) <==> !r.runtimeInput
      case QueueAccepted(_, _, _) => Permits(r, active, c) <==> !r.runtimeInput
      case TerminalAccepted(_) => Permits(r, active, c) <==> r.runtimeInput
      case TerminalUnconfirmed => Permits(r, active, c) <==> r.runtimeInput
      case Settle(_) => Permits(r, active, c)
  {
  }

  /** A change that is permitted, with the save it makes. */
  function AfterChange(j: Journal, key: Key, c: Change, o: SaveOutcome): Journal
    requires key in j.mem
  {
    AfterTransition(j, key, Patched(j.mem[key], c), o)
  }

  // ------------------------------------------------------------ claiming

  datatype Message = Message(key: Key, blankId: bool, senderId: string, replyTargetId: Option<string>)
  {
    function Conversation(): string { OrElse(replyTargetId, senderId) }
    predicate Owns(r: Receipt) { r.actorId == Some(senderId) && r.conversationId == Some(Conversation()) }
    function Fresh(): Receipt {
      Receipt(Received, Some(senderId), Some(Conversation()), None, None, None, None, None, false, false, false)
    }
  }

  /** `claim` goes on to save only for an unclaimed, idle, received or new message
      of the same sender and conversation. */
  predicate Claimable(j: Journal, m: Message) {
    && !m.blankId && m.key !in j.claimed && m.key !in j.processing
    && (m.key in j.mem ==> j.mem[m.key].phase.Received? && m.Owns(j.mem[m.key]))
  }

  /** The new receipt stays in memory even when saving it fails. */
  function AfterClaim(j: Journal, m: Message, o: SaveOutcome): Journal
    requires Claimable(j, m)
  {
    var tried := AfterSave(if m.key in j.mem then j else j.(mem := j.mem[m.key := m.Fresh()]), m.key, o);
    if o.Returned() then tried.(claimed := tried.claimed + {m.key}) else tried
  }

  // ------------------------------------------------------------ handling

  /** Errors by what they say about the submission. */
  datatype Failure =
    | Communication(submission: Verdict)
    | BackendCapability | QueueAdmission | RunAdmission
    | TurnExecution | RawTransport | Deferred
    | Delivery | Application | Other
  datatype Verdict = NotSubmitted | Unknown | WasAccepted

  /** The errors after which `handle` lets a message be submitted again. */
  predicate DefiniteRefusal(f: Failure) {
    f == Communication(NotSubmitted) || f.BackendCapability? || f.QueueAdmission? || f.RunAdmission?
  }

  datatype Entered = Skipped | Refused | Running

  /** `handle` up to the point where the action starts. */
  function EnterHandle(j: Journal, m: Message, o: SaveOutcome): (Entered, Journal) {
    if m.key in j.processing then (Skipped, j)
    else if m.key !in j.claimed && !Claimable(j, m) then (Skipped, j)
    else
      var claimed := if m.key in j.claimed then j else AfterClaim(j, m, o);
      if m.key !in j.claimed && !o.Returned() then (Refused, claimed)
      else if m.key !in claimed.mem || !m.Owns(claimed.mem[m.key]) then
        (Refused, claimed.(claimed := claimed.claimed - {m.key}))
      else (Running, claimed.(claimed := claimed.claimed - {m.key}, processing := claimed.processing + {m.key}))
  }

  /** Terminal input whose delivery is unconfirmed is never marked handled. */
  predicate StaysOpen(r: Receipt) { r.runtimeInput && r.phase.Unconfirmed? }

  predicate HandleReturns(j: Journal, key: Key, failed: Option<Failure>, o: SaveOutcome)
    requires key in j.mem
  {
    failed.None? && (StaysOpen(j.mem[key]) || o.Returned())
  }

  function AfterAction(j: Journal, key: Key, failed: Option<Failure>, o: SaveOutcome): (j': Journal)
    requires key in j.mem
    ensures key in j'.mem
  {
    if failed.Some? || StaysOpen(j.mem[key]) then j else AfterChange(j, key, Settle(Handled), o)
  }

  /** Where a failed action leaves a receipt that was already `submitting`. */
  function Verdicted(failed: Option<Failure>): Phase {
    if failed.Some? && DefiniteRefusal(failed.value) then Received else Unconfirmed
  }

  /** `handle` after the action: success settles the receipt as handled, a failure
      (also of that save) settles one still `submitting`. */
  function AfterHandle(j: Journal, key: Key, failed: Option<Failure>, o: SaveOutcome, o': SaveOutcome): Journal
    requires key in j.mem
  {
    AfterVerdict(AfterAction(j, key, failed, o), key, !HandleReturns(j, key, failed, o), failed, o')
  }

  function AfterVerdict(j: Journal, key: Key, threw: bool, failed: Option<Failure>, o: SaveOutcome): Journal
    requires key in j.mem
  {
    var settled :=
      if threw && j.mem[key].phase.Submitting? then AfterChange(j, key, Settle(Verdicted(failed)), o) else j;
    settled.(processing := settled.processing - {key})
  }

  /** Which ends the (up to two) saves of `AfterHandle` can have. */
  predicate HandleSaves(j: Journal, key: Key, failed: Option<Failure>, o: SaveOutcome, o': SaveOutcome)
    requires key in j.mem
  {
    && (failed.None? && !StaysOpen(j.mem[key]) ==> SavePossible(j, o))
    && (!HandleReturns(j, key, failed, o) && AfterAction(j, key, failed, o).mem[key].phase.Submitting?
        ==> SavePossible(AfterAction(j, key, failed, o), o'))
  }

  predicate Abandonable(j: Journal, key: Key) {
    key in j.mem && j.mem[key].phase.Received? && key !in j.processing
  }

  function AfterAbandon(j: Journal, key: Key, o: SaveOutcome): Journal
    requires Abandonable(j, key)
  {
    var settled := AfterChange(j, key, Settle(Handled), o);
    if o.Returned() then settled.(claimed := settled.claimed - {key}) else settled
  }

  function AfterRelease(j: Journal, key: Key): Journal {
    if key !in j.processing && key in j.mem && j.mem[key].phase.Received?
    then j.(claimed := j.claimed - {key}) else j
  }

  // ------------------------------------------------------------ restart

  /** A restart: memory becomes the map the file stands for; a broken append
      counts exactly when its whole line survived. */
  function Restarted(j: Journal, tornSurvived: bool): Journal {
    var disk := if tornSurvived && j.torn.Some? then j.disk[j.torn.value.key := j.torn.value.receipt] else j.disk;
    Journal(disk, disk, None, {}, {})
  }

  // ------------------------------------------------------------ what each call means

  /** What a save leaves of the file: nothing new when no append was tried, as after a torn
      one, or it was cut off again; a line in doubt when that failed; and otherwise the fact of `key`, or
      the whole of memory once the file was rewritten. */
  lemma SaveMeans(j: Journal, key: Key, o: SaveOutcome)
    requires key in j.mem
    ensures
      var n := AfterSave(j, key, o);
      && (SavePossible(j, o) <==> (j.torn.Some? <==> o.Blocked?))
      && n.torn == (if o.Torn? then Some(Entry(key, j.mem[key])) else j.torn)
      && (o.Blocked? || o.Unchanged? || o.Torn? ==> n.disk == j.disk)
      && (o.Appended? || o == CompactionFailed(false) ==> n.disk == j.disk[key := j.mem[key]])
      && (o.Compacted? || o == CompactionFailed(true) ==> n.disk == j.mem)
  {
  }

  /** Exactly when a message can be claimed, and what a claim leaves: a new receipt names
      the sender and the conversation and nothing else, and stays in memory; the claim
      holds only once the receipt was saved. */
  lemma ClaimMeans(j: Journal, m: Message, o: SaveOutcome)
    ensures
      var conversation := if m.replyTargetId.Some? then m.replyTargetId.value else m.senderId;
      && (Claimable(j, m) <==>
            && !m.blankId && m.key !in j.claimed && m.key !in j.processing
            && (m.key in j.mem ==>
                  && j.mem[m.key].phase.Received? && j.mem[m.key].actorId == Some(m.senderId)
                  && j.mem[m.key].conversationId == Some(conversation)))
      && (Claimable(j, m) ==>
            var n := AfterClaim(j, m, o);
            && m.key in n.mem && n.mem - {m.key} == j.mem - {m.key} && n.processing == j.processing
            && (m.key in j.mem ==> n.mem == j.mem)
            && (m.key !in j.mem ==>
                  && n.mem[m.key].phase.Received? && n.mem[m.key].actorId == Some(m.senderId)
                  && n.mem[m.key].conversationId == Some(conversation)
                  && n.mem[m.key].sessionId.None? && n.mem[m.key].hostId.None? && n.mem[m.key].threadId.None?
                  && n.mem[m.key].turnId.None? && n.mem[m.key].queuedSubmissionId.None?
                  && !n.mem[m.key].nativeInput && !n.mem[m.key].runtimeInput && !n.mem[m.key].recoveredNativeInput)
            && n.claimed == (if o.Appended? || o.Compacted? then j.claimed + {m.key} else j.claimed))
  {
  }

  /** `handle` starts an action exactly for a message that is idle, can be claimed or has
      been, and belongs to the sender and conversation on its receipt.  It then is in
      `processing` and claimed no more; a foreign one loses its claim. */
  lemma EnterMeans(j: Journal, m: Message, o: SaveOutcome)
    ensures
      var (entered, n) := EnterHandle(j, m, o);
      var idle := m.key !in j.processing && (m.key in j.claimed || Claimable(j, m));
      var saved := m.key in j.claimed || o.Appended? || o.Compacted?;
      && (entered.Skipped? <==> !idle) && (entered.Skipped? ==> n == j)
      && (entered.Running? <==> idle && saved && (m.key in j.claimed ==> m.key in j.mem && m.Owns(j.mem[m.key])))
      && (entered.Running? ==> n.processing == j.processing + {m.key} && n.claimed == j.claimed - {m.key})
      && (!entered.Running? ==> n.processing == j.processing)
      && (entered.Refused? ==> n.claimed == j.claimed - {m.key})
      && (m.key in j.claimed ==> n.mem == j.mem && n.disk == j.disk)
  {
  }

  /** How a receipt is left by an action that ended.  Success makes it handled, except for
      terminal input that is unconfirmed; a failure leaves one that was `submitting` open
      for another attempt only if the error says for certain that nothing was
      submitted, and unconfirmed otherwise; any other receipt keeps its phase.  Nothing
      but the phase changes, and the message is idle again. */
  lemma HandleMeans(j: Journal, key: Key, failed: Option<Failure>, o: SaveOutcome, o': SaveOutcome)
    requires key in j.mem
    ensures
      var n, was := AfterHandle(j, key, failed, o, o'), j.mem[key];
      var open := was.runtimeInput && was.phase.Unconfirmed?;
      var handled := failed.None? && !open && (o.Appended? || o.Compacted?);
      var refused := failed.Some? && match failed.value
        case Communication(submission) => submission.NotSubmitted?
        case BackendCapability => true
        case QueueAdmission => true
        case RunAdmission => true
        case _ => false;
      var judged := (failed.Some? || (!open && !handled)) && was.phase.Submitting? && (o'.Appended? || o'.Compacted?);
      && n.processing == j.processing - {key} && n.claimed == j.claimed
      && key in n.mem && n.mem - {key} == j.mem - {key}
      && n.mem[key] == was.(phase := if handled then Handled
                                     else if judged then (if refused then Received else Unconfirmed)
                                     else was.phase)
  {
  }

  /** Only an idle message whose receipt is `received` can be abandoned or released, and
      nobody else's claim is touched. */
  lemma GiveUpMeans(j: Journal, key: Key, o: SaveOutcome)
    ensures
      var idle := key in j.mem && j.mem[key].phase.Received? && key !in j.processing;
      && (Abandonable(j, key) <==> idle)
      && AfterRelease(j, key) == (if idle then j.(claimed := j.claimed - {key}) else j)
      && (idle ==>
            var n := AfterAbandon(j, key, o);
            var saved := o.Appended? || o.Compacted?;
            && n.mem == (if saved then j.mem[key := j.mem[key].(phase := Handled)] else j.mem)
            && n.claimed == (if saved then j.claimed - {key} else j.claimed) && n.processing == j.processing)
  {
  }

  // ------------------------------------------------------------ shape

  /** No permitted change writes a receipt that the next start would refuse. */
  lemma PatchedWellFormed(r: Receipt, active: bool, c: Change)
    requires r.WellFormed() && Permits(r, active, c)
    ensures Patched(r, c).WellFormed()
  {
  }

  lemma ChangeKeepsShape(j: Journal, key: Key, c: Change, o: SaveOutcome)
    requires j.WellFormed() && key in j.mem && Permits(j.mem[key], key in j.processing, c)
    ensures AfterChange(j, key, c, o).WellFormed()
  {
    PatchedWellFormed(j.mem[key], key in j.processing, c);
  }

  // ------------------------------------------------------------ the class

  datatype WriteStep = Wrote(count: nat) | Failed(landed: nat)

  /** What the operating system does to one append and to the compaction that may
      follow it.  When `steps` runs out the next write takes the rest of the line. */
  datatype Faults = Faults(opens: bool, steps: seq<WriteStep>, flushes: bool, truncates: bool, flushesTruncation: bool,
    stats: bool, rewrite: FileWrite)

  datatype Reply = Returned(value: bool) | Threw

  const COMPACT_WRITES := 1024
  const COMPACT_BYTES := 1024 * 1024

  function Min(a: nat, b: nat): nat { if a < b then a else b }

  class InboundReceiptJournal {
    const wire: Wire
    var file: seq<Byte>
    var receipts: map<Key, Receipt>
    var claimed: set<Key>
    var processing: set<Key>
    var writes: nat
    var appendUnavailable: bool
    /** The file without a torn line, and the facts it holds. */
    ghost var base: seq<Byte>
    ghost var log: seq<Entry>
    ghost var torn: Option<Entry>
    ghost var landed: nat

    ghost predicate Valid() reads this {
      && wire.Lawful() && Holds(wire, base, log)
      && (forall k :: k in receipts ==> receipts[k].WellFormed())
      && appendUnavailable == torn.Some?
      && (torn.Some? ==> torn.value.receipt.WellFormed())
      && (if torn.None? then file == base
          else landed <= |wire.Line(torn.value)| && file == base + wire.Line(torn.value)[..landed])
    }

    /** The contents a crash may leave: the whole file, or, once an append could
        not be repaired, that file and any part of the broken line. */
    ghost predicate Survives(image: seq<Byte>) reads this {
      if torn.None? then image == base
      else exists n: nat {:trigger wire.Line(torn.value)[..n]} ::
        n <= |wire.Line(torn.value)| && image == base + wire.Line(torn.value)[..n]
    }

    ghost function Abs(): Journal reads this {
      Journal(receipts, Replay(log), torn, claimed, processing)
    }

    /** Any crash image reads back as one of the two restarts of the value. */
    lemma CrashReads(image: seq<Byte>)
      requires Valid() && Survives(image)
      ensures Survives(file)
      ensures var r := Parse(wire, image);
              && r.Some?
              && Holds(wire, image[..r.value.1], r.value.0)
              && (Replay(r.value.0) == Restarted(Abs(), false).mem || Replay(r.value.0) == Restarted(Abs(), true).mem)
    {
      if torn.None? {
        ParseTorn(wire, base, log, []);
        assert image + [] == image && image[..|image|] == image;
      } else {
        var n: nat :| n <= |wire.Line(torn.value)| && image == base + wire.Line(torn.value)[..n];
        TornAppendRefinesMap(wire, base, log, torn.value, n);
      }
    }

    method Compact(w: FileWrite) returns (ok: bool)
      requires Valid() && torn.None?
      modifies `file, `base, `log
      ensures Valid() && ok == w.Returned()
      ensures Abs() == old(Abs()).(disk := if w.Replaced() then receipts else Replay(old(log)))
    {
      var text := wire.header + [NEWLINE];
      ghost var entries: seq<Entry> := [];
      var rest := receipts.Keys;
      while rest != {}
        invariant rest <= receipts.Keys
        invariant text == Render(wire, entries) && AllWellFormed(entries)
        invariant Replay(entries) == map k | k in receipts && k !in rest :: receipts[k]
        modifies {}
      {
        var key :| key in rest;
        var e := Entry(key, receipts[key]);
        RenderAppend(wire, entries, e);
        ReplayMore(entries, e, receipts, rest);
        text, entries, rest := text + wire.Line(e), entries + [e], rest - {key};
      }
      assert (map k | k in receipts && k !in rest :: receipts[k]) == receipts;
      RenderHolds(wire, entries);
      if w.Replaced() {
        file, base, log := text, text, entries;
      }
      ok := w.Returned();
    }

    /** The write loop.  A crash between two writes leaves what the invariant says:
        the old file and a prefix of the line. */
    method WriteLine(body: seq<Byte>, steps: seq<WriteStep>) returns (offset: nat, failed: bool)
      modifies `file
      ensures offset <= |body| && file == old(file) + body[..offset]
      ensures !failed ==> offset == |body|
    {
      offset, failed := 0, false;
      var i := 0;
      while offset < |body| && !failed
        invariant 0 <= offset <= |body|
        invariant file == old(file) + body[..offset]
        decreases |body| - offset, if failed then 0 else 1
      {
        var step := if i < |steps| then steps[i] else Wrote(|body| - offset);
        var count := Min(match step case Wrote(n) => n case Failed(n) => n, |body| - offset);
        file := file + body[offset..offset + count];
        assert body[..offset] + body[offset..offset + count] == body[..offset + count];
        failed := step.Failed? || count == 0;
        offset, i := offset + count, i + 1;
      }
    }

    /** Cut a failed append off again, or give up appending until a restart. */
    method Repair(position: nat, f: Faults) returns (o: SaveOutcome)
      requires position <= |file|
      modifies `file, `appendUnavailable
      ensures file == if f.truncates then old(file)[..position] else old(file)
      ensures o == if f.truncates && f.flushesTruncation then Unchanged else Torn
      ensures appendUnavailable == (old(appendUnavailable) || o.Torn?)
    {
      if f.truncates {
        file := file[..position];
        if f.flushesTruncation { return Unchanged; }
      }
      appendUnavailable := true;
      return Torn;
    }

    /** Append one line; on failure cut it off again, or refuse every later append
        when even that fails. */
    method Append(key: Key, f: Faults) returns (o: SaveOutcome)
      requires Valid() && key in receipts && torn.None? && f.opens
      modifies `file, `base, `log, `torn, `landed, `appendUnavailable
      ensures Valid()
      ensures o.Unchanged? || o.Torn? || o.Appended?
      ensures Abs() == AfterSave(old(Abs()), key, o)
    {
      var position := |file|;
      var body := wire.Line(Entry(key, receipts[key]));
      var offset, failed := WriteLine(body, f.steps);
      if !failed && f.flushes {
        assert body[..offset] == body;
        Landed(Entry(key, receipts[key]));
        return Appended;
      }
      o := Undo(Entry(key, receipts[key]), position, offset, f);
    }

    /** The whole line is in the file: it is part of the log from now on. */
    ghost method Landed(e: Entry)
      requires wire.Lawful() && Holds(wire, base, log) && e.receipt.WellFormed() && torn.None? && !appendUnavailable
      requires forall k :: k in receipts ==> receipts[k].WellFormed()
      requires file == base + wire.Line(e)
      modifies `base, `log
      ensures Valid() && log == old(log) + [e] && Replay(log) == Replay(old(log))[e.key := e.receipt]
    {
      HoldsAppend(wire, base, log, e);
      ReplayAppend(log, e);
      base, log := file, log + [e];
    }

    /** A part of the line is in the file. */
    method Undo(e: Entry, position: nat, offset: nat, f: Faults) returns (o: SaveOutcome)
      requires wire.Lawful() && Holds(wire, base, log) && e.receipt.WellFormed() && torn.None? && !appendUnavailable
      requires forall k :: k in receipts ==> receipts[k].WellFormed()
      requires offset <= |wire.Line(e)| && file == base + wire.Line(e)[..offset]
      requires position == |base|
      modifies `file, `torn, `landed, `appendUnavailable
      ensures Valid() && (o.Unchanged? || o.Torn?)
      ensures torn == if o.Torn? then Some(e) else None
    {
      o := Repair(position, f);
      if o.Torn? {
        torn, landed := Some(e), |file| - position;
        assert wire.Line(e)[..landed] == if f.truncates then [] else wire.Line(e)[..offset];
      }
    }

    /** `save`: append the changed fact, and from time to time rewrite a long file. */
    method Save(key: Key, f: Faults) returns (o: SaveOutcome)
      requires Valid() && key in receipts
      modifies `file, `base, `log, `torn, `landed, `writes, `appendUnavailable
      ensures Valid()
      ensures SavePossible(old(Abs()), o) && Abs() == AfterSave(old(Abs()), key, o)
      // Every 1024 facts the file is rewritten if it is larger than a mebibyte.
      ensures o.Compacted? || o.CompactionFailed? ==> old(writes) + 1 >= 1024 && writes == 0
      ensures o.Appended? ==>
        if old(writes) + 1 >= 1024 then writes == 0 && |file| <= 0x10_0000 else writes == old(writes) + 1
      ensures o.Blocked? || o.Unchanged? || o.Torn? ==> writes == old(writes)
    {
      if appendUnavailable { return Blocked; }
      if !f.opens { return Unchanged; }
      o := Append(key, f);
      if !o.Appended? { return; }
      writes := writes + 1;
      if writes >= COMPACT_WRITES {
        writes := 0;
        if !f.stats { return CompactionFailed(false); }
        if |file| > COMPACT_BYTES {
          var ok := Compact(f.rewrite);
          return if ok then Compacted else CompactionFailed(f.rewrite.Replaced());
        }
      }
    }

    method Transition(key: Key, r: Receipt, f: Faults) returns (o: SaveOutcome)
      requires Valid() && key in receipts && r.WellFormed()
      modifies this
      ensures Valid()
      ensures SavePossible(old(Abs()), o) && Abs() == AfterTransition(old(Abs()), key, r, o)
    {
      var previous := receipts[key];
      receipts := receipts[key := r];
      o := Save(key, f);
      if !o.Returned() {
        receipts := receipts[key := previous];
        assert receipts == old(receipts);
      }
    }

    method Move(key: Key, to: Phase, f: Faults) returns (o: SaveOutcome)
      requires Valid() && key in receipts
      modifies this
      ensures Valid()
      ensures SavePossible(old(Abs()), o) && Abs() == AfterChange(old(Abs()), key, Settle(to), o)
    {
      o := Transition(key, receipts[key].(phase := to), f);
    }

    /** Any of the captured callbacks and recoveries: refuse, or change and save. */
    method Apply(key: Key, c: Change, f: Faults) returns (reply: Reply, o: SaveOutcome)
      requires Valid() && key in receipts
      modifies this
      ensures Valid()
      ensures !Permits(old(receipts)[key], key in old(processing), c) ==>
                Abs() == old(Abs()) && (reply.Threw? || reply == Returned(false))
      ensures Permits(old(receipts)[key], key in old(processing), c) ==>
                && SavePossible(old(Abs()), o) && Abs() == AfterChange(old(Abs()), key, c, o)
                && reply == if o.Returned() then Returned(true) else Threw
    {
      o := Unchanged;
      if !Permits(receipts[key], key in processing, c) {
        return if c.Submit? || c.NativeAccepted? || c.QueueAccepted? || c.TerminalAccepted? || c.TerminalUnconfirmed?
          then Threw else Returned(false), o;
      }
      PatchedWellFormed(receipts[key], key in processing, c);
      o := Transition(key, Patched(receipts[key], c), f);
      reply := if o.Returned() then Returned(true) else Threw;
    }

    method Claim(m: Message, f: Faults) returns (reply: Reply, o: SaveOutcome)
      requires Valid()
      modifies this
      ensures Valid()
      ensures !Claimable(old(Abs()), m) ==> Abs() == old(Abs()) && reply == Returned(false)
      ensures Claimable(old(Abs()), m) ==>
                && SavePossible(old(Abs()), o) && Abs() == AfterClaim(old(Abs()), m, o)
                && reply == if o.Returned() then Returned(true) else Threw
    {
      o := Unchanged;
      if m.blankId { return Returned(false), o; }
      if m.key in claimed || m.key in processing || (m.key in receipts && !receipts[m.key].phase.Received?) {
        return Returned(false), o;
      }
      if m.key in receipts && !m.Owns(receipts[m.key]) { return Returned(false), o; }
      if m.key !in receipts {
        receipts := receipts[m.key := m.Fresh()];
      }
      o := Save(m.key, f);
      if !o.Returned() { return Threw, o; }
      claimed := claimed + {m.key};
      return Returned(true), o;
    }

    method BeginHandle(m: Message, f: Faults) returns (entered: Entered, o: SaveOutcome)
      requires Valid()
      modifies this
      ensures Valid()
      ensures m.key !in old(processing) && m.key !in old(claimed) && Claimable(old(Abs()), m) ==>
        SavePossible(old(Abs()), o)
      ensures entered == EnterHandle(old(Abs()), m, o).0 && Abs() == EnterHandle(old(Abs()), m, o).1
    {
      o := Appended;
      if m.key in processing { return Skipped, o; }
      if m.key !in claimed {
        var reply, saved := Claim(m, f);
        if reply == Returned(false) { return Skipped, o; }
        o := saved;
        if reply.Threw? { return Refused, o; }
      }
      if m.key !in receipts || !m.Owns(receipts[m.key]) {
        claimed := claimed - {m.key};
        return Refused, o;
      }
      claimed := claimed - {m.key};
      processing := processing + {m.key};
      return Running, o;
    }

    method Finish(key: Key, failed: Option<Failure>, f: Faults) returns (threw: bool, o: SaveOutcome)
      requires Valid() && key in receipts
      modifies this
      ensures Valid()
      ensures failed.None? && !StaysOpen(old(receipts)[key]) ==> SavePossible(old(Abs()), o)
      ensures Abs() == AfterAction(old(Abs()), key, failed, o)
      ensures threw == !HandleReturns(old(Abs()), key, failed, o)
    {
      o, threw := Unchanged, failed.Some?;
      if !threw && !StaysOpen(receipts[key]) {
        o := Move(key, Handled, f);
        threw := !o.Returned();
      }
    }

    method Conclude(key: Key, threw: bool, failed: Option<Failure>, f: Faults) returns (o: SaveOutcome)
      requires Valid() && key in receipts
      modifies this
      ensures Valid()
      ensures threw && old(receipts)[key].phase.Submitting? ==> SavePossible(old(Abs()), o)
      ensures Abs() == AfterVerdict(old(Abs()), key, threw, failed, o)
    {
      o := Unchanged;
      if threw && receipts[key].phase.Submitting? {
        o := Move(key, Verdicted(failed), f);
      }
      processing := processing - {key};
    }

    method EndHandle(key: Key, failed: Option<Failure>, f: Faults, f': Faults)
      returns (returned: bool, o: SaveOutcome, o': SaveOutcome)
      requires Valid() && key in receipts && key in processing
      modifies this
      ensures Valid()
      ensures Abs() == AfterHandle(old(Abs()), key, failed, o, o')
      ensures HandleSaves(old(Abs()), key, failed, o, o')
      ensures returned == HandleReturns(old(Abs()), key, failed, o)
    {
      var threw;
      threw, o := Finish(key, failed, f);
      o' := Conclude(key, threw, failed, f');
      returned := !threw;
    }

    method Abandon(key: Key, f: Faults) returns (reply: Reply, o: SaveOutcome)
      requires Valid()
      modifies this
      ensures Valid()
      ensures !Abandonable(old(Abs()), key) ==> Abs() == old(Abs()) && reply == Returned(false)
      ensures Abandonable(old(Abs()), key) ==>
                && SavePossible(old(Abs()), o) && Abs() == AfterAbandon(old(Abs()), key, o)
                && reply == if o.Returned() then Returned(true) else Threw
    {
      o := Unchanged;
      if key !in receipts || !receipts[key].phase.Received? || key in processing { return Returned(false), o; }
      o := Transition(key, receipts[key].(phase := Handled), f);
      if !o.Returned() { return Threw, o; }
      claimed := claimed - {key};
      return Returned(true), o;
    }

    method ReleasePreparation(key: Key)
      requires Valid()
      modifies this
      ensures Valid() && Abs() == AfterRelease(old(Abs()), key)
    {
      if key !in processing && key in receipts && receipts[key].phase.Received? {
        claimed := claimed - {key};
      }
    }

    /** A start on any file it can read: replay its whole lines, cut off an unfinished
        last one.  Fields are those of a restart of whatever wrote the file.  Whether the
        file can be read again after an append is a question of its own
        (`ReadsAgainIff`). */
    constructor Reopen(wire: Wire, raw: seq<Byte>)
      requires wire.Lawful() && Parse(wire, raw).Some?
      ensures this.wire == wire && file == raw[..Parse(wire, raw).value.1] && !appendUnavailable
      ensures Holds(wire, file, Parse(wire, raw).value.0) ==> Valid()
      ensures forall k :: k in receipts ==> receipts[k].WellFormed()
      ensures Abs() == Journal(Replay(Parse(wire, raw).value.0), Replay(Parse(wire, raw).value.0), None, {}, {})
    {
      var (facts, end) := Parse(wire, raw).value;
      var replayed: map<Key, Receipt> := map[];
      var i := 0;
      while i < |facts|
        invariant 0 <= i <= |facts|
        invariant replayed == Replay(facts[..i])
      {
        assert facts[..i + 1] == facts[..i] + [facts[i]];
        ReplayAppend(facts[..i], facts[i]);
        replayed := replayed[facts[i].key := facts[i].receipt];
        i := i + 1;
      }
      assert facts[..i] == facts;
      DecodedWellFormed(wire, Split(TrimEnd(raw[..end]))[1..]);
      WellFormedReplay(facts);
      this.wire := wire;
      file := raw[..end];
      receipts := replayed;
      claimed, processing, writes, appendUnavailable := {}, {}, 0, false;
      base, log, torn, landed := raw[..end], facts, None, 0;
    }
  }

  /** One more fact of `m` is in the log. */
  lemma ReplayMore(entries: seq<Entry>, e: Entry, m: map<Key, Receipt>, rest: set<Key>)
    requires rest <= m.Keys && e.key in rest && m[e.key] == e.receipt
    requires Replay(entries) == map k | k in m && k !in rest :: m[k]
    ensures Replay(entries + [e]) == map k | k in m && k !in rest - {e.key} :: m[k]
  {
    ReplayAppend(entries, e);
  }

  lemma {:induction false} WellFormedReplay(log: seq<Entry>)
    requires AllWellFormed(log)
    ensures forall k :: k in Replay(log) ==> Replay(log)[k].WellFormed()
  {
    if log != [] { WellFormedReplay(log[..|log| - 1]); }
  }
}
