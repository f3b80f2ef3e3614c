/** `TurnAudienceJournal` for one turn: who took part, and one notification each.

    A save writes what memory holds; memory keeps a change whose save failed, and a
    later save for any other turn writes it too.  Which card a batch was planned for
    and whether it is on hand now is an input (`ready`). */
module TurnAudience {
  import opened Common

  datatype Mention = Mention(userId: string, name: Option<string>)
  datatype Participant = Participant(actorId: string, mention: Option<Mention>, acceptedAt: nat)

  datatype Status = Pending | Attempted | Delivered | Unconfirmed

  /** The notices: their frozen batches, and beside them how far each one got. */
  datatype Plan = Plan(batches: seq<seq<Mention>>, statuses: seq<Status>)

  datatype Audience = Audience(participants: seq<Participant>, notices: Option<Plan>, unavailable: bool)

  // ---------------------------------------------------------------- the roster

  predicate Plain(c: char) {
    'A' <= c <= 'Z' || 'a' <= c <= 'z' || '0' <= c <= '9' || c in "_.:@+-"
  }

  function Lower(s: string): string {
    seq(|s|, i requires 0 <= i < |s| => if 'A' <= s[i] <= 'Z' then (s[i] as int + 32) as char else s[i])
  }

  predicate Directed(userId: string) {
    1 <= |userId| <= 256 && (forall c :: c in userId ==> Plain(c)) && Lower(userId) != "all" && Lower(userId) != "@all"
  }

  function Named(ps: seq<Participant>): seq<Mention> {
    if ps == [] then []
    else
      var first := ps[0].mention;
      (if first.Some? && Directed(first.value.userId) then [first.value] else []) + Named(ps[1..])
  }

  predicate Names(ms: seq<Mention>, u: string) { exists m :: m in ms && m.userId == u }

  /** Keep the first mention of each user. */
  function Unique(ms: seq<Mention>): seq<Mention> {
    if ms == [] then []
    else
      var before := Unique(ms[..|ms| - 1]);
      if Names(before, ms[|ms| - 1].userId) then before else before + [ms[|ms| - 1]]
  }

  function Mentions(a: Audience): seq<Mention> { Unique(Named(a.participants)) }

  predicate NoUserTwice(ms: seq<Mention>) {
    forall i, j :: 0 <= i < j < |ms| ==> ms[i].userId != ms[j].userId
  }

  lemma {:induction false} UniqueKeepsUsers(ms: seq<Mention>)
    ensures NoUserTwice(Unique(ms))
    ensures forall u :: Names(Unique(ms), u) <==> Names(ms, u)
    ensures forall m :: m in Unique(ms) ==> m in ms
  {
    if ms != [] {
      var before, last := ms[..|ms| - 1], ms[|ms| - 1];
      UniqueKeepsUsers(before);
      assert ms == before + [last];
      forall u ensures Names(Unique(ms), u) <==> Names(ms, u) {
        assert Names(ms, u) <==> Names(before, u) || last.userId == u;
        if !Names(Unique(before), last.userId) {
          assert Unique(ms) == Unique(before) + [last];
          assert Names(Unique(ms), u) <==> Names(Unique(before), u) || last.userId == u;
        }
      }
    }
  }

  // ---------------------------------------------------------------- batches

  function Batches(ms: seq<Mention>, limit: nat): seq<seq<Mention>>
    requires limit > 0
    decreases |ms|
  {
    if |ms| <= limit then (if ms == [] then [] else [ms])
    else [ms[..limit]] + Batches(ms[limit..], limit)
  }

  /** One slice more. */
  lemma BatchesStep(ms: seq<Mention>, index: nat, limit: nat, cut: seq<seq<Mention>>)
    requires limit > 0 && index < |ms|
    ensures var end := if index + limit < |ms| then index + limit else |ms|;
      var rest := if index + limit < |ms| then ms[index + limit..] else [];
      cut + Batches(ms[index..], limit) == (cut + [ms[index..end]]) + Batches(rest, limit)
  {
    var rest := ms[index..];
    if |rest| <= limit {
      assert ms[index..|ms|] == rest;
    } else {
      assert rest[..limit] == ms[index..index + limit] && rest[limit..] == ms[index + limit..];
    }
  }

  function Joined(batches: seq<seq<Mention>>): seq<Mention> {
    if batches == [] then [] else batches[0] + Joined(batches[1..])
  }

  /** The batches are the roster, cut: nobody is lost, repeated or moved, and no
      batch is empty or over the limit. */
  lemma {:induction false} BatchesPartition(ms: seq<Mention>, limit: nat)
    requires limit > 0
    ensures Joined(Batches(ms, limit)) == ms
    ensures forall b :: b in Batches(ms, limit) ==> 1 <= |b| <= limit
    decreases |ms|
  {
    if |ms| > limit {
      BatchesPartition(ms[limit..], limit);
      JoinedCons(ms[..limit], Batches(ms[limit..], limit));
      Halves(ms, limit);
    } else if ms != [] {
      JoinedCons(ms, []);
    }
  }

  lemma JoinedCons(head: seq<Mention>, rest: seq<seq<Mention>>)
    ensures Joined([head] + rest) == head + Joined(rest)
    ensures [head] + [] == [head]
  {
    assert ([head] + rest)[1..] == rest;
  }

  lemma Halves(ms: seq<Mention>, n: nat)
    requires n <= |ms|
    ensures ms[..n] + ms[n..] == ms
  {
  }

  function Planned(ms: seq<Mention>, limit: nat): Plan
    requires limit > 0
  {
    var batches := Batches(ms, limit);
    Plan(batches, seq(|batches|, i => Pending))
  }

  /** No user is in two batches, nor twice in one. */
  ghost predicate Apart(batches: seq<seq<Mention>>) {
    && (forall i, j, u :: 0 <= i < j < |batches| ==> !(Names(batches[i], u) && Names(batches[j], u)))
    && (forall i :: 0 <= i < |batches| ==> NoUserTwice(batches[i]))
  }

  lemma {:induction false} BatchInRoster(batches: seq<seq<Mention>>, i: nat, u: string)
    requires i < |batches| && Names(batches[i], u)
    ensures Names(Joined(batches), u)
  {
    if i > 0 { BatchInRoster(batches[1..], i - 1, u); }
  }

  lemma SplitApart(a: seq<Mention>, b: seq<Mention>)
    requires NoUserTwice(a + b)
    ensures NoUserTwice(a) && NoUserTwice(b)
    ensures forall m, n :: m in a && n in b ==> m.userId != n.userId
  {
    var all := a + b;
    assert forall i :: 0 <= i < |a| ==> all[i] == a[i];
    assert forall i :: 0 <= i < |b| ==> all[|a| + i] == b[i];
    forall m, n | m in a && n in b ensures m.userId != n.userId {
      var i :| 0 <= i < |a| && a[i] == m;
      var j :| 0 <= j < |b| && b[j] == n;
      assert all[i].userId != all[|a| + j].userId;
    }
  }

  lemma {:induction false} BatchesApart(batches: seq<seq<Mention>>)
    requires NoUserTwice(Joined(batches))
    ensures Apart(batches)
  {
    if batches != [] {
      var head, rest := batches[0], batches[1..];
      SplitApart(head, Joined(rest));
      BatchesApart(rest);
      forall j, u | 1 <= j < |batches| ensures !(Names(head, u) && Names(batches[j], u)) {
        if Names(batches[j], u) { BatchInRoster(rest, j - 1, u); }
      }
    }
  }

  lemma PlannedApart(ms: seq<Mention>, limit: nat)
    requires limit > 0 && NoUserTwice(ms)
    ensures Apart(Planned(ms, limit).batches)
  {
    BatchesPartition(ms, limit);
    BatchesApart(Batches(ms, limit));
  }

  // ---------------------------------------------------------------- one turn

  /** A running `notify`: the notice it is at, and whether its send is in flight. */
  datatype Loop = Loop(at: nat, sending: bool)

  datatype Turn = Turn(mem: Audience, disk: Audience, holds: nat, deferred: bool,
                       loops: map<nat, Loop>, sent: map<string, nat>)

  function Count(sent: map<string, nat>, u: string): nat { if u in sent then sent[u] else 0 }

  function SentTo(sent: map<string, nat>, ms: seq<Mention>): map<string, nat>
    decreases |ms|
  {
    if ms == [] then sent
    else SentTo(sent[ms[0].userId := Count(sent, ms[0].userId) + 1], ms[1..])
  }

  function Saved(t: Turn, w: FileWrite): Turn { t.(disk := FileAfter(t.disk, t.mem, w)) }

  /** Stable insertion by acceptance time, as `sort` leaves a list that was sorted
      but for one entry. */
  function InsertByTime(ps: seq<Participant>, p: Participant): seq<Participant> {
    if ps == [] || p.acceptedAt < ps[0].acceptedAt then [p] + ps else [ps[0]] + InsertByTime(ps[1..], p)
  }

  function ByTime(ps: seq<Participant>): seq<Participant> {
    if ps == [] then [] else InsertByTime(ByTime(ps[..|ps| - 1]), ps[|ps| - 1])
  }

  function Find(ps: seq<Participant>, actorId: string): (i: nat)
    ensures i <= |ps| && (i < |ps| ==> ps[i].actorId == actorId)
    ensures forall k :: 0 <= k < i ==> ps[k].actorId != actorId
  {
    if ps == [] || ps[0].actorId == actorId then 0 else 1 + Find(ps[1..], actorId)
  }

  /** `record`. */
  function Recorded(a: Audience, p: Participant): Audience {
    if a.notices.Some? || a.unavailable then a
    else
      var i := Find(a.participants, p.actorId);
      if i == |a.participants| then a.(participants := ByTime(a.participants + [p]))
      else
        var was := a.participants[i];
        var at := if p.acceptedAt < was.acceptedAt then p.acceptedAt else was.acceptedAt;
        if at == was.acceptedAt && (was.mention.Some? || p.mention.None?) then a
        else
          var now := was.(acceptedAt := at, mention := if was.mention.Some? then was.mention else p.mention);
          a.(participants := ByTime(a.participants[i := now]))
  }

  /** `notify` before its loop: the roster is frozen into batches, or given up. */
  function Frozen(a: Audience, capability: Option<int>): Audience {
    if a.participants == [] || a.unavailable || a.notices.Some? then a
    else if Mentions(a) == [] || capability.None? then a.(unavailable := true)
    else if capability.value < 1 then a
    else a.(notices := Some(Planned(Mentions(a), capability.value)))
  }

  function Marked(a: Audience, i: nat, status: Status): Audience {
    if a.notices.None? || i >= |a.notices.value.statuses| then a
    else a.(notices := Some(a.notices.value.(statuses := a.notices.value.statuses[i := status])))
  }

  datatype Event =
    | Record(p: Participant, w: FileWrite)
    | Notify(loop: nat, current: bool, capability: Option<int>, w: FileWrite)
    | Step(loop: nat, current: bool, ready: bool, w: FileWrite)
    | Answer(loop: nat, delivered: bool, w1: FileWrite, w2: FileWrite)
    | Hold
    | Release
    | Flush(w: FileWrite)
    | Crash

  predicate Enabled(t: Turn, e: Event) {
    match e
    case Notify(loop, _, _, _) => loop !in t.loops
    case Step(loop, _, _, _) => loop in t.loops && !t.loops[loop].sending && t.mem.notices.Some?
    case Answer(loop, _, _, _) => loop in t.loops && t.loops[loop].sending
    case Release => t.holds > 0
    case _ => true
  }

  function Next(t: Turn, e: Event): Turn {
    if !Enabled(t, e) then t else
    match e
    case Record(p, w) => if Recorded(t.mem, p) == t.mem then t else Saved(t.(mem := Recorded(t.mem, p)), w)
    case Notify(loop, current, capability, w) =>
      if !current then t
      else if t.holds > 0 then t.(deferred := true)
      else
        var frozen := Frozen(t.mem, capability);
        var next := if frozen == t.mem then t else Saved(t.(mem := frozen), w);
        var failed := frozen != t.mem && !w.Returned();
        if failed || frozen.unavailable || frozen.notices.None? then next
        else next.(loops := next.loops[loop := Loop(0, false)])
    case Step(loop, current, ready, w) =>
      var i := t.loops[loop].at;
      var plan := t.mem.notices.value;
      if i >= |plan.statuses| || i >= |plan.batches| || !current then t.(loops := t.loops - {loop})
      else if !plan.statuses[i].Pending? || !ready then t.(loops := t.loops[loop := Loop(i + 1, false)])
      else
        var next := Saved(t.(mem := Marked(t.mem, i, Attempted)), w);
        if !w.Returned() then next.(loops := next.loops - {loop})
        else next.(loops := next.loops[loop := Loop(i, true)],
                   sent := SentTo(next.sent, plan.batches[i]))
    case Answer(loop, delivered, w1, w2) =>
      var i := t.loops[loop].at;
      var ok := Saved(t.(mem := Marked(t.mem, i, Delivered)), w1);
      if delivered && w1.Returned() then ok.(loops := ok.loops[loop := Loop(i + 1, false)])
      else
        var from := if delivered then ok else t;
        var unsure := Saved(from.(mem := Marked(from.mem, i, Unconfirmed)), w2);
        if w2.Returned() then unsure.(loops := unsure.loops[loop := Loop(i + 1, false)])
        else unsure.(loops := unsure.loops - {loop})
    case Hold => t.(holds := t.holds + 1)
    case Release => if t.holds == 1 then t.(holds := 0, deferred := false) else t.(holds := t.holds - 1)
    case Flush(w) => Saved(t, w)
    case Crash => t.(mem := t.disk, holds := 0, deferred := false, loops := map[])
  }

  const NOBODY := Audience([], None, false)

  function After(events: seq<Event>): Turn {
    if events == [] then Turn(NOBODY, NOBODY, 0, false, map[], map[])
    else Next(After(events[..|events| - 1]), events[|events| - 1])
  }

  // ---------------------------------------------------------------- at most once

  /** The plan is frozen: `b` has the same batches, and nothing became pending again. */
  predicate Extends(a: Option<Plan>, b: Option<Plan>) {
    a.Some? ==>
      && b.Some? && b.value.batches == a.value.batches && |b.value.statuses| == |a.value.statuses|
      && (forall i :: 0 <= i < |a.value.statuses| && b.value.statuses[i].Pending? ==> a.value.statuses[i].Pending?)
  }

  predicate Tried(p: Plan, u: string) {
    exists i :: 0 <= i < |p.batches| && i < |p.statuses| && Names(p.batches[i], u) && !p.statuses[i].Pending?
  }

  ghost predicate Proper(p: Option<Plan>) {
    p.Some? ==> Apart(p.value.batches) && |p.value.statuses| == |p.value.batches|
  }

  predicate Fits(mem: Option<Plan>, l: Loop) {
    mem.Some? && (l.sending ==> l.at < |mem.value.statuses| && !mem.value.statuses[l.at].Pending?)
  }

  ghost predicate Planful(t: Turn) {
    && Extends(t.disk.notices, t.mem.notices)
    && Proper(t.mem.notices) && Proper(t.disk.notices)
    && (forall l :: l in t.loops ==> Fits(t.mem.notices, t.loops[l]))
  }

  /** Who was sent something is in a notice that the file no longer calls pending. */
  ghost predicate Once(t: Turn, u: string) {
    && Count(t.sent, u) <= 1
    && (Count(t.sent, u) == 1 ==> t.disk.notices.Some? && Tried(t.disk.notices.value, u))
  }

  lemma {:induction false} SentToAdds(sent: map<string, nat>, ms: seq<Mention>, u: string)
    requires NoUserTwice(ms)
    ensures Count(SentTo(sent, ms), u) == Count(sent, u) + if Names(ms, u) then 1 else 0
    decreases |ms|
  {
    if ms != [] {
      var rest := ms[1..];
      assert forall m :: m in ms <==> m == ms[0] || m in rest;
      SentToAdds(sent[ms[0].userId := Count(sent, ms[0].userId) + 1], rest, u);
      forall m | m in rest ensures m.userId != ms[0].userId {
        var k :| 0 <= k < |rest| && rest[k] == m;
        assert ms[k + 1] == m;
      }
    }
  }

  lemma TriedExtends(a: Option<Plan>, b: Option<Plan>, u: string)
    requires Extends(a, b) && a.Some? && Tried(a.value, u)
    ensures b.Some? && Tried(b.value, u)
  {
    var i :| 0 <= i < |a.value.batches| && i < |a.value.statuses| && Names(a.value.batches[i], u)
      && !a.value.statuses[i].Pending?;
    assert Names(b.value.batches[i], u);
  }

  lemma FrozenProper(a: Audience, capability: Option<int>)
    requires Proper(a.notices)
    ensures Proper(Frozen(a, capability).notices) && Extends(a.notices, Frozen(a, capability).notices)
  {
    if capability.Some? && capability.value >= 1 {
      UniqueKeepsUsers(Named(a.participants));
      PlannedApart(Mentions(a), capability.value);
    }
  }

  /** Marking a notice and saving keeps the plan and every running loop. */
  lemma MarkPlanful(t: Turn, i: nat, status: Status, w: FileWrite)
    requires Planful(t) && !status.Pending?
    ensures var next := Saved(t.(mem := Marked(t.mem, i, status)), w);
      && Planful(next)
      && Extends(t.disk.notices, next.disk.notices) && Extends(t.mem.notices, next.mem.notices)
  {
  }

  lemma StepPlanful(t: Turn, e: Event)
    requires Planful(t) && Enabled(t, e) && e.Step?
    ensures Planful(Next(t, e)) && Extends(t.disk.notices, Next(t, e).disk.notices)
    ensures Extends(t.mem.notices, Next(t, e).mem.notices)
  {
    MarkPlanful(t, t.loops[e.loop].at, Attempted, e.w);
  }

  lemma AnswerPlanful(t: Turn, e: Event)
    requires Planful(t) && Enabled(t, e) && e.Answer?
    ensures Planful(Next(t, e)) && Extends(t.disk.notices, Next(t, e).disk.notices)
    ensures Extends(t.mem.notices, Next(t, e).mem.notices)
  {
    var i := t.loops[e.loop].at;
    var ok := Saved(t.(mem := Marked(t.mem, i, Delivered)), e.w1);
    var from := if e.delivered then ok else t;
    var unsure := Saved(from.(mem := Marked(from.mem, i, Unconfirmed)), e.w2);
    MarkPlanful(t, i, Delivered, e.w1);
    MarkPlanful(from, i, Unconfirmed, e.w2);
    assert Fits(t.mem.notices, t.loops[e.loop]);
    var next := if e.delivered && e.w1.Returned() then ok else unsure;
    assert Planful(next);
    assert Next(t, e) == next.(loops := Next(t, e).loops);
  }

  lemma NotifyPlanful(t: Turn, e: Event)
    requires Planful(t) && e.Notify?
    ensures Planful(Next(t, e)) && Extends(t.disk.notices, Next(t, e).disk.notices)
    ensures Extends(t.mem.notices, Next(t, e).mem.notices)
  {
    FrozenProper(t.mem, e.capability);
    var frozen := Frozen(t.mem, e.capability);
    var next := if frozen == t.mem then t else Saved(t.(mem := frozen), e.w);
    assert Planful(next);
  }

  lemma NextPlanful(t: Turn, e: Event)
    requires Planful(t)
    ensures Planful(Next(t, e)) && Extends(t.disk.notices, Next(t, e).disk.notices)
    ensures !e.Crash? ==> Extends(t.mem.notices, Next(t, e).mem.notices)
  {
    if Enabled(t, e) {
      match e
      case Notify(_, _, _, _) => NotifyPlanful(t, e);
      case Step(_, _, _, _) => StepPlanful(t, e);
      case Answer(_, _, _, _) => AnswerPlanful(t, e);
      case _ =>
    }
  }

  /** A notice that is still pending names nobody who was tried. */
  lemma PendingIsUntried(a: Option<Plan>, b: Option<Plan>, i: nat, u: string)
    requires Extends(a, b) && b.Some? && Proper(b) && i < |b.value.statuses|
    requires b.value.statuses[i].Pending? && Names(b.value.batches[i], u)
    ensures a.Some? ==> !Tried(a.value, u)
  {
    if a.Some? {
      forall j | 0 <= j < |a.value.statuses| && Names(a.value.batches[j], u) ensures a.value.statuses[j].Pending? {
        assert j == i;
      }
    }
  }

  lemma SendOnce(t: Turn, e: Event, u: string)
    requires Planful(t) && Once(t, u) && Enabled(t, e) && e.Step? && Next(t, e).sent != t.sent
    ensures Once(Next(t, e), u)
  {
    NextPlanful(t, e);
    var i := t.loops[e.loop].at;
    var batch := t.mem.notices.value.batches[i];
    SentToAdds(t.sent, batch, u);
    if Names(batch, u) {
      PendingIsUntried(t.disk.notices, t.mem.notices, i, u);
      assert Names(Next(t, e).mem.notices.value.batches[i], u) && Next(t, e).disk == Next(t, e).mem;
    } else if Count(t.sent, u) == 1 {
      TriedExtends(t.disk.notices, Next(t, e).disk.notices, u);
    }
  }

  lemma NextOnce(t: Turn, e: Event, u: string)
    requires Planful(t) && Once(t, u)
    ensures Once(Next(t, e), u)
  {
    if Next(t, e).sent != t.sent {
      SendOnce(t, e, u);
    } else if Count(t.sent, u) == 1 {
      NextPlanful(t, e);
      TriedExtends(t.disk.notices, Next(t, e).disk.notices, u);
    }
  }

  /** Over all runs, with crashes, holds, overlapping calls of `notify` and saves that
      fail on either side of the rename: nobody is sent two notifications for a turn. */
  lemma {:induction false} NotifiedAtMostOnce(events: seq<Event>, u: string)
    ensures Planful(After(events)) && Once(After(events), u)
    ensures Count(After(events).sent, u) <= 1
  {
    if events != [] {
      NotifiedAtMostOnce(events[..|events| - 1], u);
      NextPlanful(After(events[..|events| - 1]), events[|events| - 1]);
      NextOnce(After(events[..|events| - 1]), events[|events| - 1], u);
    }
  }

  /** A saved plan is final: late events add nobody, and no batch is ever re-planned. */
  lemma PlanIsFrozen(events: seq<Event>, e: Event, i: nat)
    requires var n := After(events).disk.notices; n.Some? && i < |n.value.statuses|
    ensures var n, m := After(events).disk.notices, Next(After(events), e).disk.notices;
      && m.Some? && m.value.batches == n.value.batches && i < |m.value.statuses|
      && (!n.value.statuses[i].Pending? ==> !m.value.statuses[i].Pending?)
  {
    NotifiedAtMostOnce(events, "");
    NextPlanful(After(events), e);
  }

  function Onward(t: Turn, events: seq<Event>): Turn
    decreases |events|
  {
    if events == [] then t else Onward(Next(t, events[0]), events[1..])
  }

  /** The turn is held before each of the events. */
  predicate HeldThroughout(t: Turn, events: seq<Event>)
    decreases |events|
  {
    events != [] ==> t.holds > 0 && HeldThroughout(Next(t, events[0]), events[1..])
  }

  /** While a receipt is being observed, no new notification starts: nothing is planned,
      a call is deferred, and whatever is still sent is sent by a call that was already
      at it when the hold began. */
  lemma {:induction false} HeldTurnStartsNothing(t: Turn, events: seq<Event>)
    requires HeldThroughout(t, events)
    ensures var n := Onward(t, events);
      && n.loops.Keys <= t.loops.Keys
      && (t.loops == map[] ==> n.sent == t.sent)
      && (t.mem.notices.None? && t.disk.notices.None? ==> n.mem.notices.None? && n.disk.notices.None?)
      && (n.holds > 0 && (exists e :: e in events && e.Notify? && e.current && e.loop !in t.loops) ==> n.deferred)
    decreases |events|
  {
    if events != [] {
      HeldStep(t, events[0]);
      HeldTurnStartsNothing(Next(t, events[0]), events[1..]);
      if Next(t, events[0]).deferred && Onward(t, events).holds > 0 {
        HeldStaysDeferred(Next(t, events[0]), events[1..]);
      }
      assert events == [events[0]] + events[1..];
    }
  }

  lemma HeldStep(t: Turn, e: Event)
    requires t.holds > 0
    ensures var n := Next(t, e);
      && n.loops.Keys <= t.loops.Keys
      && (n.sent != t.sent ==> e.Step? && e.loop in t.loops)
      && (t.mem.notices.None? && t.disk.notices.None? ==> n.mem.notices.None? && n.disk.notices.None?)
      && (e.Notify? && e.current && e.loop !in t.loops ==> n.deferred)
      && (t.deferred && n.holds > 0 ==> n.deferred)
  {
  }

  lemma {:induction false} HeldStaysDeferred(t: Turn, events: seq<Event>)
    requires HeldThroughout(t, events) && t.deferred && Onward(t, events).holds > 0
    ensures Onward(t, events).deferred
    decreases |events|
  {
    if events != [] {
      HeldStep(t, events[0]);
      HeldStaysDeferred(Next(t, events[0]), events[1..]);
    }
  }

  // ---------------------------------------------------------------- who takes part

  predicate Sorted(ps: seq<Participant>) { forall i, k :: 0 <= i < k < |ps| ==> ps[i].acceptedAt <= ps[k].acceptedAt }

  predicate NoActorTwice(ps: seq<Participant>) { forall i, k :: 0 <= i < k < |ps| ==> ps[i].actorId != ps[k].actorId }

  /** `p` has its place at `n`: after all of its time or earlier, before all later ones. */
  predicate Placed(ps: seq<Participant>, p: Participant, n: nat) {
    && n <= |ps|
    && (forall i :: 0 <= i < n ==> ps[i].acceptedAt <= p.acceptedAt)
    && (forall i :: n <= i < |ps| ==> p.acceptedAt < ps[i].acceptedAt)
  }

  lemma {:induction false} InsertPlaces(ps: seq<Participant>, p: Participant) returns (n: nat)
    requires Sorted(ps)
    ensures Placed(ps, p, n) && InsertByTime(ps, p) == ps[..n] + [p] + ps[n..]
  {
    if ps == [] || p.acceptedAt < ps[0].acceptedAt {
      n := 0;
      assert ps[..0] + [p] + ps[0..] == [p] + ps;
    } else {
      var k := InsertPlaces(ps[1..], p);
      n := k + 1;
      assert [ps[0]] + (ps[1..][..k] + [p] + ps[1..][k..]) == ps[..n] + [p] + ps[n..];
      assert forall i :: 1 <= i < |ps| ==> ps[i] == ps[1..][i - 1];
    }
  }

  lemma {:induction false} ByTimeKeeps(ps: seq<Participant>)
    requires Sorted(ps)
    ensures ByTime(ps) == ps
  {
    if ps != [] {
      var before, last := ps[..|ps| - 1], ps[|ps| - 1];
      ByTimeKeeps(before);
      var n := InsertPlaces(before, last);
      assert n == |before|;
      assert before[..n] + [last] + before[n..] == ps;
    }
  }

  lemma SortedPrefix(a: seq<Participant>, b: seq<Participant>)
    requires Sorted(a + b)
    ensures Sorted(a)
  {
    assert forall i :: 0 <= i < |a| ==> (a + b)[i] == a[i];
  }

  lemma SplitLast(ps: seq<Participant>, p: Participant, before: seq<Participant>, last: Participant)
    ensures ps + [p] + (before + [last]) == (ps + [p] + before) + [last]
    ensures ps + (before + [last]) == (ps + before) + [last]
  {
  }

  lemma ByTimeAppends(ps: seq<Participant>, last: Participant)
    ensures ByTime(ps + [last]) == InsertByTime(ByTime(ps), last)
  {
    assert (ps + [last])[..|ps|] == ps;
  }

  /** A sort of a sorted list with one entry made earlier: that entry takes its place and
      the others keep their order. */
  lemma {:induction false} ByTimeMoves(ps: seq<Participant>, p: Participant, tail: seq<Participant>) returns (n: nat)
    requires Sorted(ps + tail) && forall t :: t in tail ==> p.acceptedAt <= t.acceptedAt
    ensures Placed(ps, p, n) && ByTime(ps + [p] + tail) == ps[..n] + [p] + ps[n..] + tail
    decreases |tail|
  {
    if tail == [] {
      n := MovesLast(ps, p, tail);
    } else {
      var before, last := tail[..|tail| - 1], tail[|tail| - 1];
      assert tail == before + [last];
      SplitLast(ps, p, before, last);
      SortedPrefix(ps + before, [last]);
      n := ByTimeMoves(ps, p, before);
      AppendLast(ps, p, before, last, n);
    }
  }

  lemma MovesLast(ps: seq<Participant>, p: Participant, tail: seq<Participant>) returns (n: nat)
    requires Sorted(ps + tail) && tail == []
    ensures Placed(ps, p, n) && ByTime(ps + [p] + tail) == ps[..n] + [p] + ps[n..] + tail
  {
    SortedPrefix(ps, tail);
    ByTimeKeeps(ps);
    n := InsertPlaces(ps, p);
    ByTimeAppends(ps, p);
    assert ps + [p] + tail == ps + [p] && ps[..n] + [p] + ps[n..] + tail == ps[..n] + [p] + ps[n..];
  }

  lemma AppendLast(ps: seq<Participant>, p: Participant, before: seq<Participant>, last: Participant, n: nat)
    requires Placed(ps, p, n) && ByTime(ps + [p] + before) == ps[..n] + [p] + ps[n..] + before
    requires Sorted(ps + before + [last]) && p.acceptedAt <= last.acceptedAt
    requires forall t :: t in before ==> p.acceptedAt <= t.acceptedAt
    ensures ByTime(ps + [p] + (before + [last])) == ps[..n] + [p] + ps[n..] + (before + [last])
  {
    var sorted := ps[..n] + [p] + ps[n..] + before;
    SplitLast(ps, p, before, last);
    ByTimeAppends(ps + [p] + before, last);
    LastStays(sorted, last, ps, p, before, n);
    assert sorted + [last] == ps[..n] + [p] + ps[n..] + (before + [last]);
  }

  lemma LastStays(sorted: seq<Participant>, last: Participant, ps: seq<Participant>, p: Participant,
                  before: seq<Participant>, n: nat)
    requires Placed(ps, p, n) && sorted == ps[..n] + [p] + ps[n..] + before && Sorted(ps + before + [last])
    requires p.acceptedAt <= last.acceptedAt && forall t :: t in before ==> p.acceptedAt <= t.acceptedAt
    ensures InsertByTime(sorted, last) == sorted + [last]
  {
    var all := ps + before + [last];
    assert forall i :: 0 <= i < |ps| ==> all[i] == ps[i];
    assert forall i :: 0 <= i < |before| ==> all[|ps| + i] == before[i];
    assert all[|all| - 1] == last;
    forall x | x in sorted ensures x.acceptedAt <= last.acceptedAt {
      if x != p { assert x in ps || x in before; }
    }
    InsertLast(sorted, last);
  }

  lemma {:induction false} InsertLast(ps: seq<Participant>, p: Participant)
    requires forall x :: x in ps ==> x.acceptedAt <= p.acceptedAt
    ensures InsertByTime(ps, p) == ps + [p]
  {
    if ps != [] {
      InsertLast(ps[1..], p);
      assert [ps[0]] + (ps[1..] + [p]) == ps + [p];
    }
  }

  /** A sorted roster that names nobody twice. */
  predicate Roster(ps: seq<Participant>) { Sorted(ps) && NoActorTwice(ps) }

  /** What the roster keeps of one actor who is heard again: the earlier time, and the
      first mention. */
  function Merged(was: Participant, p: Participant): (now: Participant)
    requires was.actorId == p.actorId
    ensures now.actorId == p.actorId && now.acceptedAt <= was.acceptedAt && now.acceptedAt <= p.acceptedAt
    ensures now.acceptedAt == was.acceptedAt || now.acceptedAt == p.acceptedAt
    ensures now.mention == if was.mention.None? then p.mention else was.mention
  {
    Participant(p.actorId, if was.mention.Some? then was.mention else p.mention,
                if was.acceptedAt <= p.acceptedAt then was.acceptedAt else p.acceptedAt)
  }

  /** What `record` does before a plan exists: a new actor is entered behind everybody
      accepted by then; one who is heard again keeps the earlier time and the first
      mention and moves to the place of that time.  All others keep their order. */
  lemma RecordMeans(a: Audience, p: Participant) returns (i: nat, n: nat)
    requires Roster(a.participants) && a.notices.None? && !a.unavailable
    ensures i <= |a.participants| && (forall k :: 0 <= k < i ==> a.participants[k].actorId != p.actorId)
    ensures i < |a.participants| ==> a.participants[i].actorId == p.actorId
    ensures
      var ps := a.participants;
      var now := if i < |ps| then Merged(ps[i], p) else p;
      && Placed(ps[..i], now, n)
      && Recorded(a, p) == Audience(ps[..i][..n] + [now] + ps[..i][n..] + (if i < |ps| then ps[i + 1..] else []),
                                    None, false)
  {
    var ps := a.participants;
    i := Find(ps, p.actorId);
    if i == |ps| {
      assert ps[..i] == ps && ps + [p] + [] == ps + [p];
      assert ps + [] == ps;
      n := ByTimeMoves(ps, p, []);
    } else {
      n := AgainMoves(ps, i, Merged(ps[i], p));
    }
  }

  lemma AgainMoves(ps: seq<Participant>, i: nat, now: Participant) returns (n: nat)
    requires i < |ps| && Sorted(ps) && now.acceptedAt <= ps[i].acceptedAt
    ensures Placed(ps[..i], now, n) && ByTime(ps[i := now]) == ps[..i][..n] + [now] + ps[..i][n..] + ps[i + 1..]
    ensures now == ps[i] ==> ByTime(ps[i := now]) == ps
  {
    Around(ps, i, now);
    SkipOne(ps, i);
    n := ByTimeMoves(ps[..i], now, ps[i + 1..]);
    if now == ps[i] {
      assert ps[i := now] == ps;
      ByTimeKeeps(ps);
    }
  }

  lemma Around(ps: seq<Participant>, i: nat, now: Participant)
    requires i < |ps|
    ensures ps[i := now] == ps[..i] + [now] + ps[i + 1..]
  {
  }

  lemma SkipOne(ps: seq<Participant>, i: nat)
    requires i < |ps| && Sorted(ps)
    ensures Sorted(ps[..i] + ps[i + 1..])
    ensures forall t :: t in ps[i + 1..] ==> ps[i].acceptedAt <= t.acceptedAt
  {
    var rest := ps[..i] + ps[i + 1..];
    assert forall k :: 0 <= k < |rest| ==> rest[k] == ps[if k < i then k else k + 1];
    forall t | t in ps[i + 1..] ensures ps[i].acceptedAt <= t.acceptedAt {
      var k :| 0 <= k < |ps| - i - 1 && ps[i + 1..][k] == t;
      assert ps[i + 1 + k] == t;
    }
  }

  lemma InsertedRoster(rest: seq<Participant>, now: Participant, n: nat)
    requires Roster(rest) && n <= |rest| && forall x :: x in rest ==> x.actorId != now.actorId
    requires forall i :: 0 <= i < n ==> rest[i].acceptedAt <= now.acceptedAt
    requires forall i :: n <= i < |rest| ==> now.acceptedAt <= rest[i].acceptedAt
    ensures Roster(rest[..n] + [now] + rest[n..])
  {
    var all := rest[..n] + [now] + rest[n..];
    assert forall i :: 0 <= i < |all| ==> all[i] == if i < n then rest[i] else if i == n then now else rest[i - 1];
  }

  /** The roster without its entry `i`. */
  lemma LessRoster(ps: seq<Participant>, i: nat)
    requires Roster(ps) && i < |ps|
    ensures Roster(ps[..i] + ps[i + 1..])
    ensures forall x :: x in ps[..i] + ps[i + 1..] ==> x.actorId != ps[i].actorId
  {
    var rest := ps[..i] + ps[i + 1..];
    assert forall k :: 0 <= k < |rest| ==> rest[k] == ps[if k < i then k else k + 1];
  }

  /** An entry that was moved, put among the others of a roster. */
  lemma MovedRoster(head: seq<Participant>, now: Participant, n: nat, tail: seq<Participant>)
    requires Roster(head + tail) && Placed(head, now, n)
    requires forall x :: x in head + tail ==> x.actorId != now.actorId
    requires forall x :: x in tail ==> now.acceptedAt <= x.acceptedAt
    ensures Roster(head[..n] + [now] + head[n..] + tail)
  {
    var rest := head + tail;
    assert rest[..n] == head[..n] && rest[n..] == head[n..] + tail;
    forall i | n <= i < |rest| ensures now.acceptedAt <= rest[i].acceptedAt {
      if i >= |head| { assert rest[i] == tail[i - |head|]; }
    }
    forall i | 0 <= i < n ensures rest[i].acceptedAt <= now.acceptedAt { assert rest[i] == head[i]; }
    InsertedRoster(rest, now, n);
    Rejoined(head, now, n, tail);
  }

  lemma RecordKeepsRoster(a: Audience, p: Participant)
    requires Roster(a.participants)
    ensures Roster(Recorded(a, p).participants)
  {
    if a.notices.None? && !a.unavailable {
      var i, n := RecordMeans(a, p);
      if i < |a.participants| {
        LessRoster(a.participants, i);
        SkipOne(a.participants, i);
        MovedRoster(a.participants[..i], Merged(a.participants[i], p), n, a.participants[i + 1..]);
      } else {
        assert a.participants[..i] == a.participants && a.participants + [] == a.participants;
        MovedRoster(a.participants, p, n, []);
      }
    }
  }

  lemma Rejoined(a: seq<Participant>, now: Participant, n: nat, tail: seq<Participant>)
    requires n <= |a|
    ensures a[..n] + [now] + (a[n..] + tail) == a[..n] + [now] + a[n..] + tail
  {
  }

  /** Every participant ever recorded in a run, as history. */
  function Heard(events: seq<Event>): set<Participant> {
    if events == [] then {}
    else
      var e := events[|events| - 1];
      Heard(events[..|events| - 1]) + if e.Record? then {e.p} else {}
  }

  /** The time and the mention on record were reported for this actor. */
  predicate TookPart(h: set<Participant>, x: Participant) {
    && (exists q :: q in h && q.actorId == x.actorId && q.acceptedAt == x.acceptedAt)
    && (x.mention.Some? ==> exists q :: q in h && q.actorId == x.actorId && q.mention == x.mention)
  }

  lemma MergedTookPart(h: set<Participant>, was: Participant, p: Participant)
    requires TookPart(h, was) && p in h && p.actorId == was.actorId
    ensures TookPart(h, Merged(was, p))
  {
  }

  lemma RecordTookPart(h: set<Participant>, a: Audience, p: Participant, x: Participant)
    requires Roster(a.participants) && (forall y :: y in a.participants ==> TookPart(h, y)) && p in h
    requires x in Recorded(a, p).participants
    ensures TookPart(h, x)
  {
    if a.notices.None? && !a.unavailable {
      var i, n := RecordMeans(a, p);
      if i < |a.participants| { MergedTookPart(h, a.participants[i], p); }
    }
  }

  ghost predicate Rostered(t: Turn, h: set<Participant>) {
    && Roster(t.mem.participants) && Roster(t.disk.participants)
    && (forall x :: x in t.mem.participants || x in t.disk.participants ==> TookPart(h, x))
  }

  /** From `t` to `n` no roster is new. */
  predicate SameRosters(t: Turn, n: Turn) {
    && (n.mem.participants == t.mem.participants || n.mem.participants == t.disk.participants)
    && (n.disk.participants == t.mem.participants || n.disk.participants == t.disk.participants)
  }

  lemma MarkStays(t: Turn, i: nat, status: Status, w: FileWrite)
    ensures var n := Saved(t.(mem := Marked(t.mem, i, status)), w);
      SameRosters(t, n) && n.mem.participants == t.mem.participants
  {
  }

  lemma AnswerStays(t: Turn, e: Event)
    requires e.Answer? && Enabled(t, e)
    ensures SameRosters(t, Next(t, e))
  {
    var i := t.loops[e.loop].at;
    var ok := Saved(t.(mem := Marked(t.mem, i, Delivered)), e.w1);
    var from := if e.delivered then ok else t;
    MarkStays(t, i, Delivered, e.w1);
    MarkStays(from, i, Unconfirmed, e.w2);
    var unsure := Saved(from.(mem := Marked(from.mem, i, Unconfirmed)), e.w2);
    var next := if e.delivered && e.w1.Returned() then ok else unsure;
    assert Next(t, e) == next.(loops := Next(t, e).loops);
  }

  lemma StepStays(t: Turn, e: Event)
    requires e.Step? && Enabled(t, e)
    ensures SameRosters(t, Next(t, e))
  {
    MarkStays(t, t.loops[e.loop].at, Attempted, e.w);
  }

  lemma ParticipantsStay(t: Turn, e: Event)
    requires !e.Record?
    ensures SameRosters(t, Next(t, e))
  {
    if Enabled(t, e) {
      match e
      case Answer(_, _, _, _) => AnswerStays(t, e);
      case Step(_, _, _, _) => StepStays(t, e);
      case _ =>
    }
  }

  lemma NextRostered(t: Turn, e: Event, h: set<Participant>)
    requires Rostered(t, h) && (e.Record? ==> e.p in h)
    ensures Rostered(Next(t, e), h)
  {
    if e.Record? {
      RecordRostered(t, e.p, h);
    } else {
      ParticipantsStay(t, e);
    }
  }

  lemma RecordRostered(t: Turn, p: Participant, h: set<Participant>)
    requires Rostered(t, h) && p in h
    ensures Roster(Recorded(t.mem, p).participants)
    ensures forall x :: x in Recorded(t.mem, p).participants ==> TookPart(h, x)
  {
    RecordKeepsRoster(t.mem, p);
    forall x | x in Recorded(t.mem, p).participants ensures TookPart(h, x) { RecordTookPart(h, t.mem, p, x); }
  }

  /** Over all runs the roster, in memory and on disk, is in the order of acceptance and
      has one entry for an actor, whose time and mention were reported for that actor. */
  lemma {:induction false} RosterIsHonest(events: seq<Event>)
    ensures Rostered(After(events), Heard(events))
  {
    if events != [] {
      var before := events[..|events| - 1];
      RosterIsHonest(before);
      assert forall x :: TookPart(Heard(before), x) ==> TookPart(Heard(events), x);
      NextRostered(After(before), events[|events| - 1], Heard(events));
    }
  }

  // ---------------------------------------------------------------- who is notified

  /** Which ids can be addressed: 1 to 256 letters, digits and signs, and never everybody,
      in any case. */
  lemma DirectedIff(u: string)
    ensures Directed(u) <==>
      && 1 <= |u| <= 256
      && (forall c :: c in u ==>
            || 65 <= c as int <= 90 || 97 <= c as int <= 122 || 48 <= c as int <= 57
            || c == '_' || c == '.' || c == ':' || c == '@' || c == '+' || c == '-')
      && !(|u| == 3 && u[0] in {'a', 'A'} && u[1] in {'l', 'L'} && u[2] in {'l', 'L'})
      && !(|u| == 4 && u[0] == '@' && u[1] in {'a', 'A'} && u[2] in {'l', 'L'} && u[3] in {'l', 'L'})
  {
    forall c: char ensures Plain(c) <==>
      || 65 <= c as int <= 90 || 97 <= c as int <= 122 || 48 <= c as int <= 57
      || c == '_' || c == '.' || c == ':' || c == '@' || c == '+' || c == '-'
    {
      PlainIff(c);
    }
    LowerIs(u);
  }

  lemma PlainIff(c: char)
    ensures Plain(c) <==>
      || 65 <= c as int <= 90 || 97 <= c as int <= 122 || 48 <= c as int <= 57
      || c == '_' || c == '.' || c == ':' || c == '@' || c == '+' || c == '-'
  {
    var signs := "_.:@+-";
    assert signs[0] == '_' && signs[1] == '.' && signs[2] == ':' && signs[3] == '@' && signs[4] == '+'
      && signs[5] == '-';
  }

  lemma LowerIs(u: string)
    ensures Lower(u) == "all" <==> |u| == 3 && u[0] in {'a', 'A'} && u[1] in {'l', 'L'} && u[2] in {'l', 'L'}
    ensures Lower(u) == "@all" <==>
      |u| == 4 && u[0] == '@' && u[1] in {'a', 'A'} && u[2] in {'l', 'L'} && u[3] in {'l', 'L'}
  {
    LowerHas(u, "all");
    LowerHas(u, "@all");
    forall i | 0 <= i < |u|
      ensures (Lower(u)[i] == 'a' <==> u[i] in {'a', 'A'}) && (Lower(u)[i] == 'l' <==> u[i] in {'l', 'L'})
      ensures Lower(u)[i] == '@' <==> u[i] == '@'
    {
      LowerAt(u, i);
    }
  }

  lemma LowerAt(u: string, i: nat)
    requires i < |u|
    ensures (Lower(u)[i] == 'a' <==> u[i] in {'a', 'A'}) && (Lower(u)[i] == 'l' <==> u[i] in {'l', 'L'})
    ensures Lower(u)[i] == '@' <==> u[i] == '@'
  {
    if 'A' <= u[i] <= 'Z' { assert Lower(u)[i] as int == u[i] as int + 32; }
  }

  lemma LowerHas(u: string, word: string)
    ensures Lower(u) == word <==> |u| == |word| && forall i :: 0 <= i < |u| ==> Lower(u)[i] == word[i]
  {
  }

  lemma {:induction false} NamedMembers(ps: seq<Participant>, m: Mention)
    ensures m in Named(ps) <==> Directed(m.userId) && exists x :: x in ps && x.mention == Some(m)
  {
    if ps != [] {
      NamedMembers(ps[1..], m);
      assert ps == [ps[0]] + ps[1..];
    }
  }

  /** A participant can be addressed under `u`. */
  ghost predicate Reachable(a: Audience, u: string) {
    Directed(u) && exists x :: x in a.participants && x.mention.Some? && x.mention.value.userId == u
  }

  lemma MentionsMembers(a: Audience, u: string)
    ensures Names(Mentions(a), u) <==> Reachable(a, u)
    ensures NoUserTwice(Mentions(a))
  {
    UniqueKeepsUsers(Named(a.participants));
    if Names(Mentions(a), u) {
      var m :| m in Named(a.participants) && m.userId == u;
      NamedMembers(a.participants, m);
    } else if Reachable(a, u) {
      var x :| x in a.participants && x.mention.Some? && x.mention.value.userId == u;
      NamedMembers(a.participants, x.mention.value);
    }
  }

  lemma {:induction false} JoinedNames(batches: seq<seq<Mention>>, u: string)
    ensures Names(Joined(batches), u) <==> exists i :: 0 <= i < |batches| && Names(batches[i], u)
  {
    if batches != [] {
      JoinedNames(batches[1..], u);
      assert Names(Joined(batches), u) <==> Names(batches[0], u) || Names(Joined(batches[1..]), u);
      assert forall i :: 1 <= i < |batches| ==> batches[i] == batches[1..][i - 1];
    }
  }

  /** What the end of a turn plans: nothing can ever be sent when nobody can be addressed
      or the channel has no mentions; nothing happens yet under an invalid limit;
      otherwise pending batches within the limit that name every reachable participant
      once and nobody else. */
  lemma FreezeMeans(a: Audience, capability: Option<int>, u: string)
    requires a.participants != [] && a.notices.None? && !a.unavailable
    ensures
      var b := Frozen(a, capability);
      && b.participants == a.participants
      && (b.unavailable <==> capability.None? || forall v :: !Reachable(a, v))
      && (b.notices.Some? <==> capability.Some? && capability.value >= 1 && exists v :: Reachable(a, v))
      && (b.notices.Some? ==>
            var plan := b.notices.value;
            && |plan.statuses| == |plan.batches| && (forall i :: 0 <= i < |plan.statuses| ==> plan.statuses[i].Pending?)
            && (forall i :: 0 <= i < |plan.batches| ==> 1 <= |plan.batches[i]| <= capability.value)
            && Apart(plan.batches)
            && (Reachable(a, u) <==> exists i :: 0 <= i < |plan.batches| && Names(plan.batches[i], u)))
  {
    MentionsMembers(a, u);
    if Mentions(a) != [] {
      var m := Mentions(a)[0];
      assert m in Mentions(a);
      MentionsMembers(a, m.userId);
      assert Reachable(a, m.userId);
    } else {
      forall v ensures !Reachable(a, v) { MentionsMembers(a, v); }
    }
    if capability.Some? && capability.value >= 1 {
      BatchesPartition(Mentions(a), capability.value);
      PlannedApart(Mentions(a), capability.value);
      JoinedNames(Batches(Mentions(a), capability.value), u);
    }
  }

  /** A current call of `notify`: while a receipt is observed it is put off; with a plan it
      starts at the first notice; a turn that has none is given its plan, and the call
      goes on once that is saved. */
  lemma NotifyMeans(t: Turn, loop: nat, capability: Option<int>, w: FileWrite)
    requires loop !in t.loops
    ensures Next(t, Notify(loop, false, capability, w)) == t
    ensures
      var n := Next(t, Notify(loop, true, capability, w));
      && n.holds == t.holds && n.sent == t.sent && (n.deferred <==> t.deferred || t.holds > 0)
      && (t.holds > 0 || t.mem.unavailable || (t.mem.notices.None? && t.mem.participants == []) ==>
            n.mem == t.mem && n.disk == t.disk && n.loops == t.loops)
      && (t.holds == 0 && t.mem.notices.Some? && !t.mem.unavailable ==>
            n.mem == t.mem && n.disk == t.disk && n.loops == t.loops[loop := Loop(0, false)])
      && (t.holds == 0 && t.mem.notices.None? && !t.mem.unavailable && t.mem.participants != [] ==>
            && n.mem == Frozen(t.mem, capability)
            && (n.mem != t.mem ==> n.disk == if w.LostBeforeRename? then t.disk else n.mem)
            && n.loops == if n.mem.notices.Some? && w.Committed? then t.loops[loop := Loop(0, false)] else t.loops)
  {
  }

  /** One round of a call: a notice that is pending and at hand is marked `attempted` on
      file and only then sent, to exactly its batch; any other notice is passed over; a
      call that is no longer current, or cannot save its mark, ends. */
  lemma StepMeans(t: Turn, loop: nat, current: bool, ready: bool, w: FileWrite)
    requires loop in t.loops && !t.loops[loop].sending && t.mem.notices.Some? && Proper(t.mem.notices)
    ensures
      var n, i, plan := Next(t, Step(loop, current, ready, w)), t.loops[loop].at, t.mem.notices.value;
      var due := current && i < |plan.statuses| && plan.statuses[i].Pending? && ready;
      && n.holds == t.holds && n.deferred == t.deferred && n.loops - {loop} == t.loops - {loop}
      && (!current || i >= |plan.statuses| ==> loop !in n.loops && n.mem == t.mem && n.disk == t.disk)
      && (current && i < |plan.statuses| && !due ==>
            n.loops == t.loops[loop := Loop(i + 1, false)] && n.mem == t.mem && n.disk == t.disk)
      && (!due ==> n.sent == t.sent)
      && (due ==>
            && n.mem == Audience(t.mem.participants, Some(Plan(plan.batches, plan.statuses[i := Attempted])),
                                 t.mem.unavailable)
            && n.disk == (if w.LostBeforeRename? then t.disk else n.mem)
            && (if w.Committed? then n.loops[loop := Loop(i, true)] == n.loops && loop in n.loops
                  && forall u :: Count(n.sent, u) == Count(t.sent, u) + (if Names(plan.batches[i], u) then 1 else 0)
                else loop !in n.loops && n.sent == t.sent))
  {
    var i, plan := t.loops[loop].at, t.mem.notices.value;
    if i < |plan.statuses| {
      forall u ensures
        Count(SentTo(t.sent, plan.batches[i]), u) == Count(t.sent, u) + if Names(plan.batches[i], u) then 1 else 0
      {
        SentToAdds(t.sent, plan.batches[i], u);
      }
    }
  }

  /** The rest of a round: a send that was acknowledged is `delivered` once that is saved;
      anything else leaves the notice `unconfirmed`; and it is never sent again. */
  lemma AnswerMeans(t: Turn, loop: nat, delivered: bool, w1: FileWrite, w2: FileWrite)
    requires loop in t.loops && t.loops[loop].sending && t.mem.notices.Some?
    requires t.loops[loop].at < |t.mem.notices.value.statuses|
    ensures
      var n, i, plan := Next(t, Answer(loop, delivered, w1, w2)), t.loops[loop].at, t.mem.notices.value;
      var ok := delivered && w1.Committed?;
      && n.sent == t.sent && n.loops - {loop} == t.loops - {loop} && n.mem.notices.Some?
      && n.mem.notices.value.batches == plan.batches
      && n.mem.notices.value.statuses == plan.statuses[i := if ok then Delivered else Unconfirmed]
      && (ok || w2.Committed? ==> n.disk == n.mem && loop in n.loops && n.loops[loop] == Loop(i + 1, false))
      && (!ok && !w2.Committed? ==> loop !in n.loops)
  {
  }

  /** A record that changes the roster is saved; memory keeps it even if that fails. */
  lemma RecordSaves(t: Turn, p: Participant, w: FileWrite)
    ensures
      var n := Next(t, Record(p, w));
      && n.mem == Recorded(t.mem, p) && n.holds == t.holds && n.deferred == t.deferred && n.loops == t.loops
      && n.disk == if n.mem == t.mem || w.LostBeforeRename? then t.disk else n.mem
    ensures t.mem.notices.Some? || t.mem.unavailable ==> Next(t, Record(p, w)) == t
    ensures After([]).mem == Audience([], None, false) && After([]).disk == After([]).mem && After([]).holds == 0
    ensures !After([]).deferred
  {
  }

  /** An observation holds the turn until its release; the last one lets a call that was
      put off run, once; a new process holds nothing and knows what the file says. */
  lemma HoldMeans(t: Turn)
    ensures Next(t, Hold) == t.(holds := t.holds + 1)
    ensures t.holds > 0 ==>
      var n := Next(t, Release);
      n == t.(holds := t.holds - 1, deferred := n.deferred) && (n.deferred <==> t.deferred && t.holds > 1)
    ensures
      var n := Next(t, Crash);
      n.mem == t.disk && n.disk == t.disk && n.holds == 0 && !n.deferred && n.loops == map[] && n.sent == t.sent
  {
  }

  /** A round in which all goes well. */
  function Round(t: Turn, loop: nat): Turn {
    Next(Next(t, Step(loop, true, true, Committed)), Answer(loop, true, Committed, Committed))
  }

  function Rounds(t: Turn, loop: nat, n: nat): Turn { if n == 0 then t else Round(Rounds(t, loop, n - 1), loop) }

  /** The call stands before notice `i`: all before it are delivered, the rest pending. */
  ghost predicate Underway(t: Turn, loop: nat, batches: seq<seq<Mention>>, i: nat) {
    && i <= |batches| && Apart(batches) && loop in t.loops && t.loops[loop] == Loop(i, false)
    && t.mem.notices.Some? && t.mem.notices.value.batches == batches
    && t.mem.notices.value.statuses == seq(|batches|, k => if k < i then Delivered else Status.Pending)
  }

  lemma RoundDelivers(t: Turn, loop: nat, batches: seq<seq<Mention>>, i: nat, u: string)
    requires Underway(t, loop, batches, i) && i < |batches|
    ensures Underway(Round(t, loop), loop, batches, i + 1)
    ensures Count(Round(t, loop).sent, u) == Count(t.sent, u) + if Names(batches[i], u) then 1 else 0
    ensures Round(t, loop).disk == Round(t, loop).mem
  {
    StepMeans(t, loop, true, true, Committed);
    var sending := Next(t, Step(loop, true, true, Committed));
    AnswerMeans(sending, loop, true, Committed, Committed);
    var was := t.mem.notices.value.statuses;
    assert was[i := Attempted][i := Delivered] == seq(|batches|, k => if k < i + 1 then Delivered else Status.Pending);
  }

  ghost predicate NamedBefore(batches: seq<seq<Mention>>, n: nat, u: string) {
    exists i :: 0 <= i < n && i < |batches| && Names(batches[i], u)
  }

  lemma NamedOnce(batches: seq<seq<Mention>>, n: nat, u: string)
    requires Apart(batches) && n < |batches|
    ensures NamedBefore(batches, n + 1, u) <==> NamedBefore(batches, n, u) || Names(batches[n], u)
    ensures !(NamedBefore(batches, n, u) && Names(batches[n], u))
  {
  }

  /** After `n` rounds. */
  ghost predicate Advanced(t: Turn, was: Turn, loop: nat, batches: seq<seq<Mention>>, n: nat, u: string) {
    && Underway(t, loop, batches, n)
    && Count(t.sent, u) == Count(was.sent, u) + (if NamedBefore(batches, n, u) then 1 else 0)
    && (n > 0 ==> t.disk == t.mem)
  }

  lemma OneRoundMore(t: Turn, was: Turn, loop: nat, batches: seq<seq<Mention>>, n: nat, u: string)
    requires Advanced(t, was, loop, batches, n, u) && n < |batches|
    ensures Advanced(Round(t, loop), was, loop, batches, n + 1, u)
  {
    RoundDelivers(t, loop, batches, n, u);
    NamedOnce(batches, n, u);
  }

  lemma {:induction false} RoundsDeliver(t: Turn, loop: nat, batches: seq<seq<Mention>>, n: nat, u: string)
    requires Underway(t, loop, batches, 0) && n <= |batches|
    ensures Advanced(Rounds(t, loop, n), t, loop, batches, n, u)
  {
    if n > 0 {
      RoundsDeliver(t, loop, batches, n - 1, u);
      OneRoundMore(Rounds(t, loop, n - 1), t, loop, batches, n - 1, u);
    }
  }

  /** Everybody is notified: when a turn ends with a capable channel, every save returns and
      every send is acknowledged, each reachable participant is sent one notification and
      nobody else is sent any, and every notice is delivered on file. */
  lemma EverybodyIsNotified(t: Turn, loop: nat, limit: int, u: string) returns (rounds: nat)
    requires t.holds == 0 && loop !in t.loops && t.mem.notices.None? && !t.mem.unavailable && t.sent == map[]
    requires limit >= 1 && exists v :: Reachable(t.mem, v)
    ensures
      var n := Rounds(Next(t, Notify(loop, true, Some(limit), Committed)), loop, rounds);
      && Count(n.sent, u) == (if Reachable(t.mem, u) then 1 else 0)
      && n.disk.notices.Some?
      && (forall i :: 0 <= i < |n.disk.notices.value.statuses| ==> n.disk.notices.value.statuses[i].Delivered?)
      && loop !in Next(n, Step(loop, true, true, Committed)).loops
  {
    assert t.mem.participants != [];
    FreezeMeans(t.mem, Some(limit), u);
    NotifyMeans(t, loop, Some(limit), Committed);
    var begun := Next(t, Notify(loop, true, Some(limit), Committed));
    var plan := begun.mem.notices.value;
    rounds := |plan.batches|;
    assert plan.statuses == seq(|plan.batches|, k => if k < 0 then Delivered else Status.Pending);
    RoundsDeliver(begun, loop, plan.batches, rounds, u);
    var v :| Reachable(t.mem, v);
    FreezeMeans(t.mem, Some(limit), v);
  }

  // ---------------------------------------------------------------- the object

  class TurnAudienceJournal {
    var mem: Audience
    var disk: Audience
    var holds: nat
    var deferred: bool
    var loops: map<nat, Loop>
    ghost var sent: map<string, nat>

    ghost function Abs(): Turn reads this { Turn(mem, disk, holds, deferred, loops, sent) }

    constructor Load(disk: Audience, ghost before: Turn)
      requires disk == before.disk
      ensures Abs() == Next(before, Crash)
    {
      mem, this.disk, holds, deferred, loops, sent := disk, disk, 0, false, map[], before.sent;
    }

    method Save(w: FileWrite) returns (failed: bool)
      modifies `disk
      ensures disk == FileAfter(old(disk), mem, w) && failed == !w.Returned()
    {
      if w.Replaced() { disk := mem; }
      failed := !w.Returned();
    }

    /** The release closure is one-shot: `released` is its own flag. */
    method Release(released: bool) returns (run: bool)
      requires !released ==> holds > 0
      modifies `holds, `deferred
      ensures Abs() == if released then old(Abs()) else Next(old(Abs()), Event.Release)
      ensures run <==> !released && old(holds) == 1 && old(deferred)
    {
      if released { return false; }
      holds := holds - 1;
      if holds > 0 { return false; }
      run := deferred;
      deferred := false;
    }

    method Record(p: Participant, w: FileWrite) returns (failed: bool)
      modifies `mem, `disk
      ensures Abs() == Next(old(Abs()), Event.Record(p, w))
    {
      var recorded := Recorded(mem, p);
      if recorded == mem { return false; }
      mem := recorded;
      failed := Save(w);
    }

    /** The batches, pushed one slice after the other. */
    method Slice(mentions: seq<Mention>, limit: nat) returns (notices: Plan)
      requires limit > 0
      ensures notices == Planned(mentions, limit)
    {
      var cut: seq<seq<Mention>> := [];
      var index := 0;
      assert mentions[0..] == mentions;
      while index < |mentions|
        invariant 0 <= index
        invariant cut + Batches(if index < |mentions| then mentions[index..] else [], limit) == Batches(mentions, limit)
      {
        var end := if index + limit < |mentions| then index + limit else |mentions|;
        BatchesStep(mentions, index, limit, cut);
        cut := cut + [mentions[index..end]];
        index := index + limit;
      }
      notices := Plan(cut, seq(|cut|, i => Pending));
    }

    /** `notify` before its loop. */
    method Notify(loop: nat, current: bool, capability: Option<int>, w: FileWrite)
      requires Enabled(Abs(), Event.Notify(loop, current, capability, w))
      modifies this
      ensures Abs() == Next(old(Abs()), Event.Notify(loop, current, capability, w))
    {
      if !current { return; }
      if holds > 0 { deferred := true; return; }
      if mem.participants == [] || mem.unavailable {
        if mem.unavailable || mem.notices.None? { return; }
      } else if mem.notices.None? {
        var mentions := Mentions(mem);
        if mentions == [] || capability.None? {
          mem := mem.(unavailable := true);
          var failed := Save(w);
          return;
        }
        if capability.value < 1 { return; }
        var notices := Slice(mentions, capability.value);
        mem := mem.(notices := Some(notices));
        var failed := Save(w);
        if failed { return; }
      }
      loops := loops[loop := Loop(0, false)];
    }

    /** One round of the loop up to its send. */
    method Attempt(loop: nat, current: bool, ready: bool, w: FileWrite) returns (send: seq<Mention>)
      requires Enabled(Abs(), Step(loop, current, ready, w))
      modifies this
      ensures Abs() == Next(old(Abs()), Step(loop, current, ready, w))
      ensures send != [] ==> current && w.Returned()
    {
      send := [];
      var i, plan := loops[loop].at, mem.notices.value;
      if i >= |plan.statuses| || i >= |plan.batches| || !current { loops := loops - {loop}; return; }
      if !plan.statuses[i].Pending? || !ready { loops := loops[loop := Loop(i + 1, false)]; return; }
      mem := Marked(mem, i, Attempted);
      var failed := Save(w);
      if failed { loops := loops - {loop}; return; }
      loops := loops[loop := Loop(i, true)];
      sent := SentTo(sent, plan.batches[i]);
      send := plan.batches[i];
    }

    /** The rest of the round, once the channel answered or failed. */
    method Settle(loop: nat, delivered: bool, w1: FileWrite, w2: FileWrite)
      requires Enabled(Abs(), Answer(loop, delivered, w1, w2))
      modifies this
      ensures Abs() == Next(old(Abs()), Answer(loop, delivered, w1, w2))
    {
      var i := loops[loop].at;
      if delivered {
        mem := Marked(mem, i, Delivered);
        var failed := Save(w1);
        if !failed { loops := loops[loop := Loop(i + 1, false)]; return; }
      }
      mem := Marked(mem, i, Unconfirmed);
      var failed := Save(w2);
      loops := if failed then loops - {loop} else loops[loop := Loop(i + 1, false)];
    }
  }
}
