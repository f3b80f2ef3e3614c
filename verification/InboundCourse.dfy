/** One message from its arrival to its end: a run of the whole protocol, state by state,
    which shows that the steps that keep it safe also let it through. */
module InboundCourse {
  import opened Common
  import opened ReceiptLog
  import opened InboundReceipts
  import opened ForwardingInbox
  import opened InboxRows
  import opened InboundProtocol

  const CALM := Weather.Weather(0, 0, None, true, false, Appended, Committed, Committed, Committed)
  const NATIVE := Scope.Scope(Leave, Leave, Leave, true, false)

  /** The row and the receipt of a message on its way. */
  function Waiting(m: Message, target: Option<Target>, attempts: nat): Row {
    Row(m, "", target, true, false, attempts, 0, Pending, {}, 0)
  }

  function OnWay(m: Message, phase: Phase, thread: Option<string>, turn: Option<string>): Receipt {
    m.Fresh().(phase := phase, threadId := thread, turnId := turn, nativeInput := !phase.Received?)
  }

  function Stage(m: Message, r: Receipt, claimed: bool, processing: bool, rows: seq<Row>, busy: bool,
                 flights: map<Key, Flight>, calls: seq<Call>, launches: seq<(Key, Option<Target>)>,
                 target: Option<Target>, firsts: set<(string, string, string)>): Sys
  {
    Sys(World(Journal.Journal(map[m.key := r], map[m.key := r], None, if claimed then {m.key} else {},
                              if processing then {m.key} else {}),
              Inbox.Inbox(rows, rows, if busy then {m.key} else {}, 1, {})),
        flights, calls, 0, {m.key}, map[m.key := {target}], firsts, launches)
  }

  lemma TakenIn(m: Message, target: Option<Target>, t: Step)
    requires !m.blankId && t == Intake(m, Fresh.Fresh("", target, true, false, 0), Appended, Committed)
    ensures Enabled(Initial, t)
    ensures Next(Initial, t)
      == Stage(m, m.Fresh(), true, false, [Waiting(m, target, 0)], false, map[], [], [], target, {})
  {
    var x := Initial.Inbox();
    assert Unaimed([]) == {};
    assert x == Inbox.Inbox([], [], {}, 0, {});
    var rows := [Waiting(m, target, 0)];
    assert [] + rows == rows && x.bare - {m.key} == {} && {} + {target} == {target};
    assert !Has(x.rows, m.key);
    assert Staged(x, m, t.f, Committed) == (Inbox.Inbox(rows, rows, {}, 1, {}), true);
    var j := AfterClaim(Initial.Journal(), m, Appended);
    assert j == Journal.Journal(map[m.key := m.Fresh()], map[m.key := m.Fresh()], None, {m.key}, {});
    assert Claimed(Initial.world, m, t.f, Appended, Committed)
      == (World(j, Inbox.Inbox(rows, rows, {}, 1, {})), Reply.Returned(true));
    assert WithTarget(map[], m.key, target) == map[m.key := {target}];
  }

  lemma HandedOver(m: Message, target: Option<Target>, t: Step)
    requires !m.blankId && t == Deliver(m.key, true, CALM.(current := target))
    ensures
      var s := Stage(m, m.Fresh(), true, false, [Waiting(m, target, 0)], false, map[], [], [], target, {});
      && Enabled(s, t)
      && Next(s, t) == Stage(m, m.Fresh(), false, true, [Waiting(m, target, 1)], true, map[m.key := Acting(None)], [],
                             [(m.key, target)], target, {})
  {
    var s := Stage(m, m.Fresh(), true, false, [Waiting(m, target, 0)], false, map[], [], [], target, {});
    var row := Waiting(m, target, 0);
    assert s.Inbox().rows[0].Key() == m.key;
    assert Find(s.Inbox().rows, m.key) == 0 && At(s.Inbox().rows, m.key) == row;
    assert !Preceded(s.world, m.key);
    assert Decide(s.world, m.key, true, target, true).Dispatch?;
    var tried := Attempted(s.Inbox(), row, Committed);
    assert Put(s.Inbox().rows, Waiting(m, target, 1)) == [Waiting(m, target, 1)];
    assert tried == Inbox.Inbox([Waiting(m, target, 1)], [Waiting(m, target, 1)], {}, 1, {});
    assert At(tried.rows, m.key) == Waiting(m, target, 1);
    assert {m.key} - {m.key} == {} && {} + {m.key} == {m.key};
    var (entered, j) := EnterHandle(s.Journal(), m, Appended);
    assert entered.Running?
      && j == Journal.Journal(map[m.key := m.Fresh()], map[m.key := m.Fresh()], None, {}, {m.key});
    assert Delivered(s.world, m.key, true, t.e) == (World(j, tried), Flying);
  }

  lemma MarkedAndCalled(m: Message, target: Option<Target>, t: Step)
    requires t == Submission(m.key, NATIVE, Appended)
    ensures
      var s := Stage(m, m.Fresh(), false, true, [Waiting(m, target, 1)], true, map[m.key := Acting(None)], [],
                     [(m.key, target)], target, {});
      && Enabled(s, t)
      && Next(s, t) == Stage(m, OnWay(m, Submitting, None, None), false, true, [Waiting(m, target, 1)], true,
                             map[m.key := Acting(Some(0))], [Call(m.key, 0, Open)], [(m.key, target)], target, {})
  {
    var calls := [Call(m.key, 0, Open)];
    assert [] + calls == calls;
    assert Patched(m.Fresh(), Submit(NATIVE)) == OnWay(m, Submitting, None, None);
  }

  lemma TookEffect(m: Message, target: Option<Target>, t: Step)
    requires t == NativeAccepts(0)
    ensures
      var s := Stage(m, OnWay(m, Submitting, None, None), false, true, [Waiting(m, target, 1)], true,
                     map[m.key := Acting(Some(0))], [Call(m.key, 0, Open)], [(m.key, target)], target, {});
      && Enabled(s, t)
      && Next(s, t) == Stage(m, OnWay(m, Submitting, None, None), false, true, [Waiting(m, target, 1)], true,
                             map[m.key := Acting(Some(0))], [Call(m.key, 0, Effective)], [(m.key, target)], target, {})
  {
  }

  lemma Reported(m: Message, target: Option<Target>, thread: string, turn: string, t: Step)
    requires thread != "" && turn != ""
    requires t == Acceptance(0, NativeAccepted(thread, turn), Appended, None, Committed, Committed)
    ensures
      var s := Stage(m, OnWay(m, Submitting, None, None), false, true, [Waiting(m, target, 1)], true,
                     map[m.key := Acting(Some(0))], [Call(m.key, 0, Effective)], [(m.key, target)], target, {});
      && Enabled(s, t)
      && Next(s, t) == Stage(m, OnWay(m, Accepted, Some(thread), Some(turn)), false, true, [], true,
                             map[m.key := Acting(Some(0))], [Call(m.key, 0, Effective)], [(m.key, target)], target, {})
  {
    var r := OnWay(m, Accepted, Some(thread), Some(turn));
    assert Patched(OnWay(m, Submitting, None, None), t.change) == r;
    RowGoes(m, target, r, {m.key});
  }

  lemma RowGoes(m: Message, target: Option<Target>, r: Receipt, busy: set<Key>)
    requires Truthy(r.threadId) && Truthy(r.turnId)
    ensures
      var rows := [Waiting(m, target, 1)];
      AfterAccepted(Inbox.Inbox(rows, rows, busy, 1, {}), m.key, r, None, Committed, Committed)
      == Inbox.Inbox([], [], busy, 1, {})
  {
    var row := Waiting(m, target, 1);
    assert row.Key() == m.key && Find([row], m.key) == 0;
    assert Without([row], m.key) == [];
    assert !FirstThread(r, target, None);
  }

  lemma SettledWell(m: Message, target: Option<Target>, thread: string, turn: string, t: Step)
    requires t == Finish(m.key, None, Appended, Appended)
    ensures
      var s := Stage(m, OnWay(m, Accepted, Some(thread), Some(turn)), false, true, [], true,
                     map[m.key := Acting(Some(0))], [Call(m.key, 0, Effective)], [(m.key, target)], target, {});
      && Enabled(s, t)
      && Next(s, t) == Stage(m, OnWay(m, Handled, Some(thread), Some(turn)), false, false, [], true,
                             map[m.key := Ended(None)], [Call(m.key, 0, Effective)], [(m.key, target)], target, {})
  {
    var s := Stage(m, OnWay(m, Accepted, Some(thread), Some(turn)), false, true, [], true,
                   map[m.key := Acting(Some(0))], [Call(m.key, 0, Effective)], [(m.key, target)], target, {});
    assert {m.key} - {m.key} == {};
    assert AfterHandle(s.Journal(), m.key, None, Appended, Appended)
      == Journal.Journal(map[m.key := OnWay(m, Handled, Some(thread), Some(turn))],
                         map[m.key := OnWay(m, Handled, Some(thread), Some(turn))], None, {}, {});
  }

  lemma LandedAndGone(m: Message, target: Option<Target>, thread: string, turn: string, t: Step)
    requires t == Land(m.key, CALM)
    ensures
      var s := Stage(m, OnWay(m, Handled, Some(thread), Some(turn)), false, false, [], true,
                     map[m.key := Ended(None)], [Call(m.key, 0, Effective)], [(m.key, target)], target, {});
      && Enabled(s, t)
      && Next(s, t) == Stage(m, OnWay(m, Handled, Some(thread), Some(turn)), false, false, [], false, map[],
                             [Call(m.key, 0, Effective)], [(m.key, target)], target, {})
  {
    assert {m.key} - {m.key} == {};
    assert map[m.key := Ended(None)] - {m.key} == map[];
  }

  lemma RunMore(states: seq<Sys>, steps: seq<Step>, t: Step, s: Sys, n: Sys)
    requires Run(states, steps) && s == states[|steps|] && Enabled(s, t) && n == Next(s, t)
    ensures Run(states + [n], steps + [t]) && (states + [n])[|steps + [t]|] == n
  {
    var all, more := states + [n], steps + [t];
    forall i | 0 <= i < |more| ensures Enabled(all[i], more[i]) && all[i + 1] == Next(all[i], more[i]) {
      if i < |steps| { assert all[i] == states[i] && all[i + 1] == states[i + 1] && more[i] == steps[i]; }
    }
  }

  /** The steps of the protocol get a message through: there is a run that takes it in,
      submits it once, learns that it was accepted, and ends with a handled receipt that
      names what was reported, in memory and on disk, and with no row left. */
  lemma MessageGoesThrough(m: Message, target: Option<Target>, thread: string, turn: string)
    returns (states: seq<Sys>, steps: seq<Step>)
    requires !m.blankId && thread != "" && turn != ""
    ensures Run(states, steps)
    ensures states[|steps|] == Stage(m, OnWay(m, Handled, Some(thread), Some(turn)), false, false, [], false, map[],
                                     [Call(m.key, 0, Effective)], [(m.key, target)], target, {})
  {
    var t := Intake(m, Fresh.Fresh("", target, true, false, 0), Appended, Committed);
    TakenIn(m, target, t);
    var s, n := Initial, Next(Initial, t);
    states, steps := [Initial], [];
    RunMore(states, steps, t, s, n);
    states, steps, s := states + [n], steps + [t], n;
    t := Deliver(m.key, true, CALM.(current := target));
    HandedOver(m, target, t);
    n := Next(s, t);
    RunMore(states, steps, t, s, n);
    states, steps, s := states + [n], steps + [t], n;
    t := Submission(m.key, NATIVE, Appended);
    MarkedAndCalled(m, target, t);
    n := Next(s, t);
    RunMore(states, steps, t, s, n);
    states, steps, s := states + [n], steps + [t], n;
    t := NativeAccepts(0);
    TookEffect(m, target, t);
    n := Next(s, t);
    RunMore(states, steps, t, s, n);
    states, steps, s := states + [n], steps + [t], n;
    t := Acceptance(0, NativeAccepted(thread, turn), Appended, None, Committed, Committed);
    Reported(m, target, thread, turn, t);
    n := Next(s, t);
    RunMore(states, steps, t, s, n);
    states, steps, s := states + [n], steps + [t], n;
    states, steps := GoesHome(m, target, thread, turn, states, steps, s);
  }

  lemma GoesHome(m: Message, target: Option<Target>, thread: string, turn: string, before: seq<Sys>, done: seq<Step>,
                 s: Sys)
    returns (states: seq<Sys>, steps: seq<Step>)
    requires Run(before, done) && s == before[|done|]
    requires s == Stage(m, OnWay(m, Accepted, Some(thread), Some(turn)), false, true, [], true,
                        map[m.key := Acting(Some(0))], [Call(m.key, 0, Effective)], [(m.key, target)], target, {})
    ensures Run(states, steps)
    ensures states[|steps|] == Stage(m, OnWay(m, Handled, Some(thread), Some(turn)), false, false, [], false, map[],
                                     [Call(m.key, 0, Effective)], [(m.key, target)], target, {})
  {
    var t := Finish(m.key, None, Appended, Appended);
    SettledWell(m, target, thread, turn, t);
    var n := Next(s, t);
    RunMore(before, done, t, s, n);
    states, steps := before + [n], done + [t];
    t := Land(m.key, CALM);
    LandedAndGone(m, target, thread, turn, t);
    RunMore(states, steps, t, n, Next(n, t));
    states, steps := states + [Next(n, t)], steps + [t];
  }
}
