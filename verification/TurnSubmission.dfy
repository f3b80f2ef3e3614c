/** `TurnSubmission`: what a failed native call says about the submission, once
    transport and presentation errors are told apart from native evidence.

    The errors are those the receipt journal's `handle` judges. */
module TurnSubmission {
  import opened Common
  import opened InboundReceipts

  datatype Attempt = Attempt(completed: bool, entered: bool, threadId: Option<string>, turnId: Option<string>)

  const FRESH := Attempt(false, false, None, None)

  /** `isCodexCommunicationFailure`: execution deadlines and explicit task failures
      keep their own meaning. */
  predicate CommunicationFailure(f: Failure) { f.Communication? || f.RawTransport? }

  /** `communicationError` in the phase the attempt has reached. */
  function Phrased(a: Attempt, f: Failure): Failure {
    if !CommunicationFailure(f) then f
    else if f.Communication? then (if Truthy(a.turnId) then Communication(WasAccepted) else f)
    else if Truthy(a.turnId) then Communication(WasAccepted)
    else if a.entered then Communication(Verdict.Unknown)
    else Communication(NotSubmitted)
  }

  /** `error`. */
  function ErrorOf(a: Attempt, f: Failure): Failure {
    if a.completed then Delivery
    else if Truthy(a.turnId) && !f.TurnExecution? && !CommunicationFailure(f) then Application
    else Phrased(a, f)
  }

  // ---------------------------------------------------------------- steps

  datatype Event =
    | Enter(threadId: Option<string>, current: bool, saved: bool)
    | ThreadCreated(id: string, saved: bool)
    | TurnStarted(thread: string, turn: string, saved: bool)
    | Result(threadId: Option<string>, turnId: Option<string>, saved: bool)

  function Either(next: Option<string>, was: Option<string>): Option<string> { if next.Some? then next else was }

  /** `saved` is whether the receipt journal's write went through; otherwise the step
      throws after what it had already noted. */
  function Next(a: Attempt, e: Event): Attempt {
    match e
    case Enter(threadId, current, saved) =>
      if !current || a.entered then a
      else a.(threadId := threadId, entered := saved)
    case ThreadCreated(id, _) => if a.entered then a.(threadId := Some(id)) else a
    case TurnStarted(thread, turn, _) =>
      if a.entered then a.(threadId := Some(thread), turnId := Some(turn)) else a
    case Result(threadId, turnId, saved) =>
      if !a.entered || (Truthy(threadId) && Truthy(turnId) && !saved) then a
      else a.(threadId := Either(threadId, a.threadId), turnId := Either(turnId, a.turnId), completed := true)
  }

  function After(events: seq<Event>): Attempt {
    if events == [] then FRESH else Next(After(events[..|events| - 1]), events[|events| - 1])
  }

  // ---------------------------------------------------------------- main results

  /** Exactly when a failure lets the message be submitted again: nothing is known to
      have run, and the error is a definite refusal itself, or a transport failure
      from before the native call. */
  lemma ReopensIff(a: Attempt, f: Failure)
    ensures DefiniteRefusal(ErrorOf(a, f)) <==>
      !a.completed && !Truthy(a.turnId) && (DefiniteRefusal(f) || (f.RawTransport? && !a.entered))
    ensures Verdicted(Some(ErrorOf(a, f))).Received? <==> DefiniteRefusal(ErrorOf(a, f))
  {
  }

  /** Once the native call was entered an ambiguous failure is never turned into
      "not submitted", and the receipt stays unconfirmed. */
  lemma AmbiguityStays(a: Attempt, f: Failure)
    requires a.entered && !DefiniteRefusal(f)
    ensures !DefiniteRefusal(ErrorOf(a, f)) && Verdicted(Some(ErrorOf(a, f))).Unconfirmed?
  {
  }

  /** Which error a failure becomes: after the result, delivery; with a known turn, a
      transport or communication error says that the input was accepted, an execution
      error keeps its meaning and anything else is the application's; without one, only a
      transport error gets a meaning, by whether the native call was entered. */
  lemma ErrorMeans(a: Attempt, f: Failure)
    ensures
      var e := ErrorOf(a, f);
      var known := a.turnId.Some? && a.turnId.value != "";
      && (a.completed ==> e == Delivery)
      && (!a.completed && known ==>
            match f
            case RawTransport => e == Communication(WasAccepted)
            case Communication(_) => e == Communication(WasAccepted)
            case TurnExecution => e == TurnExecution
            case _ => e == Application)
      && (!a.completed && !known ==>
            if f.RawTransport? then e == Communication(if a.entered then Verdict.Unknown else NotSubmitted) else e == f)
  {
  }

  /** What each step notes.  Nothing is noted before the native call was entered, which
      takes a current source and a saved mark; afterwards the latest report counts. */
  lemma StepMeans(a: Attempt, e: Event)
    ensures
      var n := Next(a, e);
      match e
      case Enter(threadId, current, saved) =>
        && (n.entered <==> a.entered || (current && saved)) && n.turnId == a.turnId && n.completed == a.completed
        && n.threadId == if current && !a.entered then threadId else a.threadId
      case ThreadCreated(id, _) =>
        && n.entered == a.entered && n.turnId == a.turnId && n.completed == a.completed
        && n.threadId == if a.entered then Some(id) else a.threadId
      case TurnStarted(thread, turn, _) =>
        && n.entered == a.entered && n.completed == a.completed
        && (a.entered ==> n.threadId == Some(thread) && n.turnId == Some(turn)) && (!a.entered ==> n == a)
      case Result(thread, turn, saved) =>
        // An acceptance that could not be saved is an error of this step.
        var noted := a.entered && (saved || !Truthy(thread) || !Truthy(turn));
        && n.entered == a.entered && (n.completed <==> a.completed || noted) && (!noted ==> n == a)
        && (noted ==>
              && n.threadId == (if thread.None? then a.threadId else thread)
              && n.turnId == (if turn.None? then a.turnId else turn))
  {
  }

  /** The native call has been entered if and only if some step entered it with a current
      source and a saved mark; it is completed only by a result after that. */
  lemma {:induction false} EnteredIff(events: seq<Event>)
    ensures After(events).entered <==> exists i ::
      0 <= i < |events| && events[i].Enter? && events[i].current && events[i].saved
    ensures After(events).completed ==> exists i, k ::
      0 <= i < k < |events| && events[i].Enter? && events[i].current && events[i].saved && events[k].Result?
    ensures After(events).turnId.Some? ==> exists k ::
      0 <= k < |events| && (
        (events[k].TurnStarted? && After(events).turnId == Some(events[k].turn))
        || (events[k].Result? && After(events).turnId == events[k].turnId))
  {
    if events != [] {
      var before := events[..|events| - 1];
      EnteredIff(before);
      StepMeans(After(before), events[|events| - 1]);
    }
  }

  /** Entering is remembered, and so is the fact that a turn ran. */
  lemma {:induction false} EnteredForGood(events: seq<Event>, more: seq<Event>)
    ensures After(events).entered ==> After(events + more).entered
    ensures After(events).completed ==> After(events + more).completed
    ensures After(events).completed ==> After(events).entered
    decreases |more| + |events|
  {
    if more == [] {
      assert events + more == events;
      if events != [] { EnteredForGood(events[..|events| - 1], []); }
    } else {
      var all := events + more;
      assert all[..|all| - 1] == events + more[..|more| - 1];
      EnteredForGood(events, more[..|more| - 1]);
    }
  }

  /** Over every course of a call: whatever fails after the durable `submitting`
      record and the native call, the message is reopened only by an error that is
      itself a definite refusal, and never once a turn is known or the call is done. */
  lemma OnlyRefusalReopensAfterEntry(events: seq<Event>, more: seq<Event>, f: Failure)
    requires After(events).entered && Verdicted(Some(ErrorOf(After(events + more), f))).Received?
    ensures DefiniteRefusal(f) && !Truthy(After(events + more).turnId) && !After(events + more).completed
  {
    EnteredForGood(events, more);
    ReopensIff(After(events + more), f);
  }

  // ---------------------------------------------------------------- the object

  class TurnSubmission {
    var completed: bool
    var entered: bool
    var threadId: Option<string>
    var turnId: Option<string>

    function Abs(): Attempt reads this { Attempt(completed, entered, threadId, turnId) }

    constructor ()
      ensures Abs() == FRESH
    {
      completed, entered, threadId, turnId := false, false, None, None;
    }

    /** `run` up to the native call, which is made exactly when `call` is true. */
    method Enter(thread: Option<string>, current: bool, saved: bool) returns (call: bool)
      requires !entered
      modifies this
      ensures Abs() == Next(old(Abs()), Event.Enter(thread, current, saved))
      ensures call <==> current && saved
    {
      if !current { return false; }
      threadId := thread;
      if !saved { return false; }
      entered := true;
      return true;
    }

    method OnThreadCreated(id: string, saved: bool)
      requires entered
      modifies this
      ensures Abs() == Next(old(Abs()), ThreadCreated(id, saved))
    {
      threadId := Some(id);
    }

    method OnTurnStarted(thread: string, turn: string, saved: bool)
      requires entered
      modifies this
      ensures Abs() == Next(old(Abs()), TurnStarted(thread, turn, saved))
    {
      threadId, turnId := Some(thread), Some(turn);
    }

    method Finish(thread: Option<string>, turn: Option<string>, saved: bool)
      requires entered
      modifies this
      ensures Abs() == Next(old(Abs()), Result(thread, turn, saved))
    {
      if Truthy(thread) && Truthy(turn) && !saved { return; }
      threadId := Either(thread, threadId);
      turnId := Either(turn, turnId);
      completed := true;
    }

    method Error(f: Failure) returns (e: Failure)
      ensures e == ErrorOf(Abs(), f)
      ensures DefiniteRefusal(e) ==> !Truthy(turnId) && !completed && (entered ==> DefiniteRefusal(f))
    {
      if completed { return Delivery; }
      if Truthy(turnId) && !f.TurnExecution? && !CommunicationFailure(f) { return Application; }
      e := Phrased(Abs(), f);
    }
  }
}
