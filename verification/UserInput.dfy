/** `ChannelUserInputController`: a native question group is answered by one object
    at most, also across restarts.

    Memory keeps a change whose save failed, and any later save writes it.  The
    asynchronous `runRequest` runs from one wait to the next without interruption;
    writes, the validity of the binding and everything a user does are inputs.  A
    group is the fixed list of its questions.  Cards and acknowledgements are left
    out. */
module UserInput {
  import opened Common

  type Key = string
  datatype QKey = QKey(group: Key, question: string)

  datatype Status = Pending | Answered | Submitting | Confirmed | Withdrawn | Unconfirmed | Expired

  datatype Record = Record(status: Status, answer: Option<string>, detached: bool, attempted: bool)
  {
    /** Never asked, answered or submitted again. */
    predicate Spent() {
      status.Submitting? || status.Unconfirmed? || status.Confirmed? || (status.Withdrawn? && !detached)
    }
    predicate Decided() { status.Answered? || status.Expired? }
  }

  type Store = map<QKey, Record>

  /** A `runRequest` under way: the question it is at and the answers so far. */
  datatype Run = Run(index: nat, answers: map<string, string>)

  datatype Groups = Groups(questions: map<Key, seq<string>>)
  {
    function Of(k: Key): seq<string> { if k in questions then questions[k] else [] }
    function At(k: Key, i: nat): QKey requires i < |Of(k)| { QKey(k, Of(k)[i]) }
  }

  /** `resolved` holds what a released waiter's promise brings.  The rest is history:
      the objects returned, and the records dropped; and, as far as they reached the
      file, the answers users gave and the questions that were skipped or expired. */
  datatype Desk = Desk(
    mem: Store, disk: Store, waiters: set<QKey>, resolved: map<QKey, Option<string>>, live: map<Key, Run>,
    returned: map<Key, seq<map<string, string>>>, given: set<(QKey, string)>,
    unanswered: set<QKey>, pruned: set<QKey>)
  {
    function Returned(k: Key): seq<map<string, string>> { if k in returned then returned[k] else [] }
  }

  function Saved(d: Desk, w: FileWrite): Desk { d.(disk := FileAfter(d.disk, d.mem, w)) }

  function Put(d: Desk, key: QKey, r: Record, w: FileWrite): Desk { Saved(d.(mem := d.mem[key := r]), w) }

  function Released(d: Desk, key: QKey, answer: Option<string>): Desk {
    if key !in d.waiters then d
    else d.(waiters := d.waiters - {key}, resolved := d.resolved[key := answer])
  }

  // ---------------------------------------------------------------- runRequest

  /** What a stretch of `runRequest` meets: the outcome of each save, whether the
      binding is valid, and whether there is room for a new record. */
  datatype World = World(write: nat -> FileWrite, matches: bool, room: bool)

  function Ended(d: Desk, k: Key): Desk { d.(live := d.live - {k}) }

  function Marked(mem: Store, k: Key): Store {
    map key | key in mem :: if key.group == k && mem[key].Decided() then mem[key].(status := Submitting) else mem[key]
  }

  /** Mark, save, and only then return the answers. */
  function Finished(d: Desk, k: Key, answers: map<string, string>, w: FileWrite): Desk {
    var saved := Saved(d.(mem := Marked(d.mem, k)), w);
    if !w.Returned() then Ended(saved, k)
    else Ended(saved.(returned := saved.returned[k := saved.Returned(k) + [answers]]), k)
  }

  /** The record of the question at hand: new, or found, and revived if its binding
      is back. */
  function Found(m: Store, key: QKey, matches: bool): Record {
    if key !in m then Record(Pending, None, false, false)
    else if m[key].status.Withdrawn? && m[key].detached && matches then m[key].(status := Pending, detached := false)
    else m[key]
  }

  /** A new or revived record is saved before it is used. */
  function Fetched(d: Desk, key: QKey, matches: bool, w: FileWrite): (n: Desk)
    ensures key in n.mem && n.mem[key] == Found(d.mem, key, matches)
    ensures n == d.(mem := n.mem, disk := n.disk)
  {
    if key in d.mem && d.mem[key] == Found(d.mem, key, matches) then d
    else Put(d, key, Found(d.mem, key, matches), w)
  }

  /** One question: the request ends or waits, or goes on to the next one. */
  datatype Stretch = Stop(d: Desk) | Go(d: Desk, answers: map<string, string>)

  function Turn(g: Groups, d: Desk, k: Key, i: nat, answers: map<string, string>, w: World): Stretch
    requires i < |g.Of(k)|
  {
    var key := g.At(k, i);
    var now := Fetched(d, key, w.matches, w.write(2 * i));
    var r := now.mem[key];
    if key !in d.mem && !w.room then Stop(Ended(d, k))
    else if now.mem != d.mem && !w.write(2 * i).Returned() then Stop(Ended(now, k))
    else if r.status.Answered? then
      Go(now, if r.answer.Some? then answers[key.question := r.answer.value] else answers)
    else if !r.status.Pending? || !w.matches then Stop(Ended(now, k))
    else Stop(Asked(now, key, k, i, answers, w.write(2 * i + 1)))
  }

  /** From the question at `i` to the next wait or the end. */
  function Advance(g: Groups, d: Desk, k: Key, i: nat, answers: map<string, string>, w: World): Desk
    decreases |g.Of(k)| - i
  {
    if i >= |g.Of(k)| then Finished(d, k, answers, w.write(2 * i))
    else
      var turn := Turn(g, d, k, i, answers, w);
      if turn.Stop? then turn.d else Advance(g, turn.d, k, i + 1, turn.answers, w)
  }

  /** `ask`: the card is announced on disk before it is sent, and then one waits. */
  function Asked(d: Desk, key: QKey, k: Key, i: nat, answers: map<string, string>, w: FileWrite): Desk
    requires key in d.mem
  {
    if d.mem[key].attempted then Waiting(d, key, k, i, answers)
    else
      var told := Put(d, key, d.mem[key].(attempted := true), w);
      if w.Returned() then Waiting(told, key, k, i, answers) else Ended(told.(mem := told.mem[key := d.mem[key]]), k)
  }

  function Waiting(d: Desk, key: QKey, k: Key, i: nat, answers: map<string, string>): Desk {
    d.(waiters := d.waiters + {key}, live := d.live[k := Run(i, answers)])
  }

  /** What `ask` moves: where the request stands, who waits, and never a status. */
  predicate AskMoved(d: Desk, n: Desk, k: Key, i: nat, answers: map<string, string>, key: QKey) {
    && n == d.(mem := n.mem, disk := n.disk, waiters := n.waiters, live := n.live)
    && (n.live == d.live - {k} || n.live == d.live[k := Run(i, answers)])
    && (key in d.waiters ==> key in n.waiters)
    && (key in n.mem ==> key in d.mem && n.mem[key].status == d.mem[key].status)
  }

  lemma AskedMoves(d: Desk, at: QKey, k: Key, i: nat, answers: map<string, string>, w: FileWrite, key: QKey)
    requires at in d.mem
    ensures AskMoved(d, Asked(d, at, k, i, answers, w), k, i, answers, key)
  {
  }

  // ---------------------------------------------------------------- events

  datatype Verdict = Accepted | Failed | Gone | Suspended

  datatype Event =
    | Request(k: Key, world: World)
    | Resume(k: Key, world: World)
    | Settle(key: QKey, answer: Option<string>, w: FileWrite)
    | Expire(key: QKey, w: FileWrite)
    | Report(key: QKey, result: Verdict, w: FileWrite)
    | Suspend(invalid: set<QKey>, w: FileWrite)
    | Cancel(keys: set<QKey>, w: FileWrite)
    | Prune(key: QKey)
    | Flush(w: FileWrite)
    | Crash

  /** A request that is live is shared; a wait ends once its waiter was released;
      timers and users reach only questions that somebody waits for. */
  predicate Enabled(g: Groups, d: Desk, e: Event) {
    match e
    case Request(k, _) => k !in d.live && k in g.questions
    case Resume(k, _) =>
      && k in d.live && d.live[k].index < |g.Of(k)|
      && g.At(k, d.live[k].index) !in d.waiters && g.At(k, d.live[k].index) in d.resolved
    case Settle(key, _, _) => key in d.waiters && key in d.mem && d.mem[key].status.Pending?
    case Expire(key, _) => key in d.waiters && key in d.mem
    case Report(key, _, _) => key in d.mem
    case Cancel(keys, _) => keys <= d.waiters
    case Prune(key) =>
      key in d.mem && (d.mem[key].status.Confirmed? || d.mem[key].status.Withdrawn? || d.mem[key].status.Expired?)
    case _ => true
  }

  function Detached(r: Record): Record {
    match r.status
    case Pending => r.(detached := true, status := Withdrawn, answer := None)
    case Answered => r.(detached := true, status := Withdrawn, answer := None)
    case Submitting => r.(detached := true)
    case Unconfirmed => r.(detached := true)
    case _ => r
  }

  function DetachedIn(m: Store, invalid: set<QKey>): Store {
    map key | key in m :: if key in invalid then Detached(m[key]) else m[key]
  }

  function WithdrawnIn(m: Store, keys: set<QKey>): Store {
    map key | key in m :: if key in keys then m[key].(status := Withdrawn, answer := None) else m[key]
  }

  function Reported(r: Record, result: Verdict): Record {
    match result
    case Accepted => r.(status := Confirmed, answer := None)
    case Failed => r.(status := Unconfirmed, answer := None)
    case Gone => r.(status := Withdrawn, answer := None, detached := false)
    case Suspended => r
  }

  function ReleasedAll(d: Desk, keys: set<QKey>): Desk {
    d.(waiters := d.waiters - keys, resolved := d.resolved + map key | key in keys * d.waiters :: None)
  }

  /** A restart cannot know whether a submission arrived. */
  function Reloaded(disk: Store): Store {
    map key | key in disk :: if disk[key].status.Submitting? then disk[key].(status := Unconfirmed) else disk[key]
  }

  /** The answer is saved before anybody hears of it, and taken back if that fails. */
  function Settled(d: Desk, key: QKey, answer: Option<string>, w: FileWrite): Desk
    requires key in d.mem
  {
    var answered := d.mem[key := d.mem[key].(status := Answered, answer := answer)];
    d.(disk := FileAfter(d.disk, answered, w), mem := if w.Returned() then answered else d.mem,
       given := if answer.Some? && w.Replaced() then d.given + {(key, answer.value)} else d.given,
       unanswered := if answer.None? && w.Replaced() then d.unanswered + {key} else d.unanswered)
  }

  /** Without a durable transition nothing is answered: the question is withdrawn. */
  function Lapsed(d: Desk, key: QKey, w: FileWrite): Desk
    requires key in d.mem
  {
    var expired := d.mem[key := d.mem[key].(status := Expired)];
    d.(disk := FileAfter(d.disk, expired, w), unanswered := if w.Returned() then d.unanswered + {key} else d.unanswered,
       mem := if w.Returned() then expired else d.mem[key := d.mem[key].(status := Withdrawn)])
  }

  function Next(g: Groups, d: Desk, e: Event): Desk {
    if !Enabled(g, d, e) then d else
    match e
    case Request(k, world) => Advance(g, d, k, 0, map[], world)
    case Resume(k, world) =>
      var i := d.live[k].index;
      var key := g.At(k, i);
      var answer := d.resolved[key];
      if key !in d.mem || !d.mem[key].Decided() then Ended(d, k)
      else
        var more := if answer.Some? then d.live[k].answers[key.question := answer.value] else d.live[k].answers;
        Advance(g, d, k, i + 1, more, world)
    case Settle(key, answer, w) =>
      var settled := Settled(d, key, answer, w);
      if w.Returned() then Released(settled, key, answer) else settled
    case Expire(key, w) => Released(Lapsed(d, key, w), key, None)
    case Report(key, result, w) =>
      if d.mem[key].status.Confirmed? then d
      else if result.Suspended? then Released(d, key, None)
      else Put(Released(d, key, None), key, Reported(d.mem[key], result), w)
    case Suspend(invalid, w) =>
      var hit := set key | key in invalid && key in d.mem && Detached(d.mem[key]) != d.mem[key];
      if hit == {} then d
      else Saved(ReleasedAll(d.(mem := DetachedIn(d.mem, invalid)), invalid), w)
    case Cancel(keys, w) => Saved(ReleasedAll(d.(mem := WithdrawnIn(d.mem, keys)), keys), w)
    case Prune(key) => d.(mem := d.mem - {key}, pruned := d.pruned + {key})
    case Flush(w) => Saved(d, w)
    case Crash => d.(mem := Reloaded(d.disk), waiters := {}, resolved := map[], live := map[])
  }

  function After(g: Groups, events: seq<Event>): Desk {
    if events == [] then Desk(map[], map[], {}, map[], map[], map[], {}, {}, {})
    else Next(g, After(g, events[..|events| - 1]), events[|events| - 1])
  }

  // ---------------------------------------------------------------- what is kept

  predicate SpentIn(m: Store, key: QKey) { key in m && m[key].Spent() }
  predicate ConfirmedIn(m: Store, key: QKey) { key in m && m[key].status.Confirmed? }

  /** Somebody waits only for a pending question. */
  predicate Awaited(d: Desk, key: QKey) { key in d.waiters ==> key in d.mem && d.mem[key].status.Pending? }

  /** From `d` to `n` nothing revives a spent record or leaves `confirmed`. */
  predicate Keeps(d: Desk, n: Desk, key: QKey) {
    && (SpentIn(d.mem, key) ==> SpentIn(n.mem, key))
    && (SpentIn(d.mem, key) && SpentIn(d.disk, key) ==> SpentIn(n.disk, key))
    && (ConfirmedIn(d.mem, key) ==> ConfirmedIn(n.mem, key))
    && (ConfirmedIn(d.mem, key) && ConfirmedIn(d.disk, key) ==> ConfirmedIn(n.disk, key))
    && (Awaited(d, key) ==> Awaited(n, key))
  }

  lemma KeepsTwice(a: Desk, b: Desk, c: Desk, key: QKey)
    requires Keeps(a, b, key) && Keeps(b, c, key)
    ensures Keeps(a, c, key)
  {
  }

  lemma FinishedKeeps(d: Desk, k: Key, answers: map<string, string>, w: FileWrite, key: QKey)
    ensures Keeps(d, Finished(d, k, answers, w), key)
    ensures Finished(d, k, answers, w).pruned == d.pruned
    ensures forall o :: o != k ==> Finished(d, k, answers, w).Returned(o) == d.Returned(o)
  {
  }

  lemma AskedKeeps(d: Desk, at: QKey, k: Key, i: nat, answers: map<string, string>, w: FileWrite, key: QKey)
    requires at in d.mem && d.mem[at].status.Pending?
    ensures Keeps(d, Asked(d, at, k, i, answers, w), key)
    ensures Asked(d, at, k, i, answers, w).pruned == d.pruned
    ensures Asked(d, at, k, i, answers, w).returned == d.returned
  {
  }

  lemma PutKeeps(d: Desk, at: QKey, r: Record, w: FileWrite, key: QKey)
    requires SpentIn(d.mem, at) ==> r.Spent()
    requires ConfirmedIn(d.mem, at) ==> r.status.Confirmed?
    requires at in d.waiters ==> r.status.Pending?
    ensures Keeps(d, Put(d, at, r, w), key)
  {
  }

  lemma FetchedKeeps(d: Desk, at: QKey, matches: bool, w: FileWrite, key: QKey)
    ensures Keeps(d, Fetched(d, at, matches, w), key)
  {
    if at !in d.mem || d.mem[at] != Found(d.mem, at, matches) {
      PutKeeps(d, at, Found(d.mem, at, matches), w, key);
    }
  }

  lemma EndedKeeps(d: Desk, n: Desk, k: Key, key: QKey)
    requires Keeps(d, n, key)
    ensures Keeps(d, Ended(n, k), key)
  {
  }

  lemma TurnKeeps(g: Groups, d: Desk, k: Key, i: nat, answers: map<string, string>, w: World, key: QKey)
    requires i < |g.Of(k)|
    ensures var n := Turn(g, d, k, i, answers, w);
      && Keeps(d, n.d, key) && n.d.pruned == d.pruned && n.d.returned == d.returned
      && (n.Go? ==> g.At(k, i) in n.d.mem && n.d.mem[g.At(k, i)].Decided())
  {
    var at := g.At(k, i);
    var now := Fetched(d, at, w.matches, w.write(2 * i));
    var n := Turn(g, d, k, i, answers, w);
    FetchedKeeps(d, at, w.matches, w.write(2 * i), key);
    if at !in d.mem && !w.room {
      EndedKeeps(d, d, k, key);
    } else if n.Go? {
      assert n.d == now;
    } else if n.d == Ended(now, k) {
      EndedKeeps(d, now, k, key);
    } else {
      AskedKeeps(now, at, k, i, answers, w.write(2 * i + 1), key);
      KeepsTwice(d, now, Asked(now, at, k, i, answers, w.write(2 * i + 1)), key);
    }
  }

  lemma {:induction false} AdvanceKeeps(g: Groups, d: Desk, k: Key, i: nat, answers: map<string, string>, w: World,
                                        key: QKey)
    ensures var n := Advance(g, d, k, i, answers, w);
      Keeps(d, n, key) && n.pruned == d.pruned && (forall o :: o != k ==> n.Returned(o) == d.Returned(o))
    decreases |g.Of(k)| - i
  {
    if i >= |g.Of(k)| {
      FinishedKeeps(d, k, answers, w.write(2 * i), key);
    } else {
      var turn := Turn(g, d, k, i, answers, w);
      TurnKeeps(g, d, k, i, answers, w, key);
      if turn.Go? {
        AdvanceKeeps(g, turn.d, k, i + 1, turn.answers, w, key);
        KeepsTwice(d, turn.d, Advance(g, turn.d, k, i + 1, turn.answers, w), key);
      }
    }
  }

  /** An object comes out only by spending the record of the last question, in memory
      and on disk. */
  lemma {:induction false} AdvanceSpends(g: Groups, d: Desk, k: Key, i: nat, answers: map<string, string>, w: World)
    requires g.Of(k) != [] && i <= |g.Of(k)|
    requires var last := g.At(k, |g.Of(k)| - 1); i == |g.Of(k)| ==> last in d.mem && d.mem[last].Decided()
    ensures var n, last := Advance(g, d, k, i, answers, w), g.At(k, |g.Of(k)| - 1);
      n.Returned(k) == d.Returned(k) ||
      (|n.Returned(k)| == |d.Returned(k)| + 1 && !SpentIn(d.mem, last) && SpentIn(n.mem, last) && SpentIn(n.disk, last))
    decreases |g.Of(k)| - i
  {
    if i < |g.Of(k)| {
      var turn := Turn(g, d, k, i, answers, w);
      TurnKeeps(g, d, k, i, answers, w, g.At(k, |g.Of(k)| - 1));
      if turn.Go? { AdvanceSpends(g, turn.d, k, i + 1, turn.answers, w); }
    }
  }

  // ---------------------------------------------------------------- at most one object

  /** While the record of its last question is retained, a group has one object at
      most, and then that record is spent in memory and on disk. */
  predicate Single(g: Groups, d: Desk, k: Key) {
    g.Of(k) != [] && g.At(k, |g.Of(k)| - 1) !in d.pruned && d.Returned(k) != [] ==>
      |d.Returned(k)| == 1 && SpentIn(d.mem, g.At(k, |g.Of(k)| - 1)) && SpentIn(d.disk, g.At(k, |g.Of(k)| - 1))
  }

  /** What users, timers and the owner do to a record. */
  lemma SettleKeeps(g: Groups, d: Desk, e: Event, key: QKey)
    requires e.Settle? && Enabled(g, d, e) && Awaited(d, key)
    ensures Keeps(d, Next(g, d, e), key) && d.pruned == Next(g, d, e).pruned
  {
  }

  lemma ExpireKeeps(g: Groups, d: Desk, e: Event, key: QKey)
    requires e.Expire? && Enabled(g, d, e) && Awaited(d, key) && Awaited(d, e.key)
    ensures Keeps(d, Next(g, d, e), key) && d.pruned == Next(g, d, e).pruned
  {
  }

  lemma ReportKeeps(g: Groups, d: Desk, e: Event, key: QKey)
    requires e.Report? && Enabled(g, d, e) && Awaited(d, key)
    ensures Keeps(d, Next(g, d, e), key) && d.pruned == Next(g, d, e).pruned
  {
    if !d.mem[e.key].status.Confirmed? {
      var released := Released(d, e.key, None);
      ReleasedKeeps(d, e.key, None, key);
      if !e.result.Suspended? {
        PutKeeps(released, e.key, Reported(d.mem[e.key], e.result), e.w, key);
        KeepsTwice(d, released, Put(released, e.key, Reported(d.mem[e.key], e.result), e.w), key);
      }
    }
  }

  lemma ReleasedKeeps(d: Desk, at: QKey, answer: Option<string>, key: QKey)
    ensures var n := Released(d, at, answer);
      && Keeps(d, n, key) && n == d.(waiters := n.waiters, resolved := n.resolved) && at !in n.waiters
  {
  }

  lemma SweepKeeps(g: Groups, d: Desk, e: Event, key: QKey)
    requires e.Suspend? || e.Cancel?
    requires Enabled(g, d, e) && Awaited(d, key)
    ensures Keeps(d, Next(g, d, e), key) && d.pruned == Next(g, d, e).pruned
  {
  }

  lemma NextKeeps(g: Groups, d: Desk, e: Event, key: QKey)
    requires !e.Crash? && Awaited(d, key) && (e.Expire? ==> Awaited(d, e.key))
    ensures Keeps(d, Next(g, d, e), key) || (e.Prune? && e.key == key && key in Next(g, d, e).pruned)
    ensures d.pruned <= Next(g, d, e).pruned
  {
    if Enabled(g, d, e) {
      match e
      case Request(k, world) => AdvanceKeeps(g, d, k, 0, map[], world, key);
      case Resume(k, world) =>
        var i := d.live[k].index;
        var at := g.At(k, i);
        if at in d.mem && d.mem[at].Decided() {
          var more := if d.resolved[at].Some? then d.live[k].answers[at.question := d.resolved[at].value]
            else d.live[k].answers;
          AdvanceKeeps(g, d, k, i + 1, more, world, key);
        }
      case Suspend(_, _) => SweepKeeps(g, d, e, key);
      case Cancel(_, _) => SweepKeeps(g, d, e, key);
      case Settle(_, _, _) => SettleKeeps(g, d, e, key);
      case Expire(_, _) => ExpireKeeps(g, d, e, key);
      case Report(_, _, _) => ReportKeeps(g, d, e, key);
      case _ =>
    }
  }

  lemma ReturnsOnly(g: Groups, d: Desk, e: Event, k: Key)
    requires g.Of(k) != []
    ensures var n, last := Next(g, d, e), g.At(k, |g.Of(k)| - 1);
      n.Returned(k) == d.Returned(k) ||
      (|n.Returned(k)| == |d.Returned(k)| + 1 && !SpentIn(d.mem, last) && SpentIn(n.mem, last) && SpentIn(n.disk, last))
  {
    if Enabled(g, d, e) {
      match e
      case Request(o, world) =>
        if o == k {
          AdvanceSpends(g, d, k, 0, map[], world);
        } else {
          AdvanceKeeps(g, d, o, 0, map[], world, QKey(k, ""));
        }
      case Resume(_, _) => ResumeReturns(g, d, e, k);
      case _ => OthersMove(g, d, e, k);
    }
  }

  lemma ResumeReturns(g: Groups, d: Desk, e: Event, k: Key)
    requires g.Of(k) != [] && e.Resume? && Enabled(g, d, e)
    ensures var n, last := Next(g, d, e), g.At(k, |g.Of(k)| - 1);
      n.Returned(k) == d.Returned(k) ||
      (|n.Returned(k)| == |d.Returned(k)| + 1 && !SpentIn(d.mem, last) && SpentIn(n.mem, last) && SpentIn(n.disk, last))
  {
    var i := d.live[e.k].index;
    var at := g.At(e.k, i);
    if at in d.mem && d.mem[at].Decided() {
      var more := if d.resolved[at].Some? then d.live[e.k].answers[at.question := d.resolved[at].value]
        else d.live[e.k].answers;
      if e.k == k {
        AdvanceSpends(g, d, k, i + 1, more, e.world);
      } else {
        AdvanceKeeps(g, d, e.k, i + 1, more, e.world, QKey(k, ""));
      }
    }
  }

  lemma NextSingle(g: Groups, d: Desk, e: Event, k: Key)
    requires Single(g, d, k) && forall key :: Awaited(d, key)
    ensures Single(g, Next(g, d, e), k)
  {
    if g.Of(k) != [] {
      var last := g.At(k, |g.Of(k)| - 1);
      ReturnsOnly(g, d, e, k);
      if !e.Crash? { NextKeeps(g, d, e, last); }
    }
  }

  lemma NextAwaited(g: Groups, d: Desk, e: Event)
    requires forall key :: Awaited(d, key)
    ensures forall key :: Awaited(Next(g, d, e), key)
  {
    forall key ensures Awaited(Next(g, d, e), key) {
      if !e.Crash? { NextKeeps(g, d, e, key); }
    }
  }

  /** Over all runs, with restarts, lost bindings, expiry, cancellation and failing
      saves: a group of at least one question is answered by one object at most while
      the record of its last question is retained. */
  lemma {:induction false} AnsweredAtMostOnce(g: Groups, events: seq<Event>, k: Key)
    ensures (forall key :: Awaited(After(g, events), key)) && Single(g, After(g, events), k)
    ensures var d := After(g, events);
      g.Of(k) != [] && g.At(k, |g.Of(k)| - 1) !in d.pruned ==> |d.Returned(k)| <= 1
  {
    if events != [] {
      AnsweredAtMostOnce(g, events[..|events| - 1], k);
      NextAwaited(g, After(g, events[..|events| - 1]), events[|events| - 1]);
      NextSingle(g, After(g, events[..|events| - 1]), events[|events| - 1], k);
    }
  }

  function Requests(k: Key, w: World, n: nat): seq<Event> { seq(n, i => Request(k, w)) }

  /** A group without questions has no record to remember it by: every request for it
      is answered, however many were before. */
  lemma {:induction false} EmptyGroupIsAnsweredAgain(g: Groups, k: Key, w: World, n: nat)
    requires k in g.questions && g.Of(k) == [] && w.write(0) == Committed
    ensures var d := After(g, Requests(k, w, n)); k !in d.live && |d.Returned(k)| == n
  {
    if n > 0 {
      EmptyGroupIsAnsweredAgain(g, k, w, n - 1);
      assert Requests(k, w, n)[..n - 1] == Requests(k, w, n - 1);
    }
  }

  lemma NextPruned(g: Groups, d: Desk, e: Event, key: QKey)
    requires key !in d.pruned && !(e.Prune? && e.key == key)
    ensures key !in Next(g, d, e).pruned
  {
    if Enabled(g, d, e) {
      match e
      case Request(k, world) => AdvanceKeeps(g, d, k, 0, map[], world, key);
      case Resume(k, world) =>
        var i := d.live[k].index;
        var at := g.At(k, i);
        if at in d.mem && d.mem[at].Decided() {
          var more := if d.resolved[at].Some? then d.live[k].answers[at.question := d.resolved[at].value]
            else d.live[k].answers;
          AdvanceKeeps(g, d, k, i + 1, more, world, key);
        }
      case _ =>
    }
  }

  lemma {:induction false} NotPruned(g: Groups, events: seq<Event>, key: QKey)
    requires forall e :: e in events ==> !(e.Prune? && e.key == key)
    ensures key !in After(g, events).pruned
  {
    if events != [] {
      NotPruned(g, events[..|events| - 1], key);
      NextPruned(g, After(g, events[..|events| - 1]), events[|events| - 1], key);
    }
  }

  /** The records of the group are retained. */
  ghost predicate Retains(events: seq<Event>, k: Key) { forall e :: e in events ==> !(e.Prune? && e.key.group == k) }

  /** Exactly when a group has one object at most over every run that retains its
      records: when it has a question. */
  lemma OneObjectIff(g: Groups, k: Key)
    requires k in g.questions
    ensures (forall events :: Retains(events, k) ==> |After(g, events).Returned(k)| <= 1) <==> g.Of(k) != []
  {
    if g.Of(k) == [] {
      var w := World(i => Committed, true, true);
      EmptyGroupIsAnsweredAgain(g, k, w, 2);
      assert Retains(Requests(k, w, 2), k);
    } else {
      forall events | Retains(events, k) ensures |After(g, events).Returned(k)| <= 1 {
        AnsweredAtMostOnce(g, events, k);
        NotPruned(g, events, g.At(k, |g.Of(k)| - 1));
      }
    }
  }

  /** A confirmed answer is never left: not within a process, and once the file says
      so not over a restart either. */
  lemma ConfirmedForGood(g: Groups, events: seq<Event>, e: Event, key: QKey)
    requires var d := After(g, events); ConfirmedIn(d.mem, key) && !(e.Prune? && e.key == key)
    ensures var d, n := After(g, events), Next(g, After(g, events), e);
      && (!e.Crash? ==> ConfirmedIn(n.mem, key))
      && (ConfirmedIn(d.disk, key) ==> ConfirmedIn(n.mem, key) && ConfirmedIn(n.disk, key))
  {
    AnsweredAtMostOnce(g, events, "");
    if !e.Crash? { NextKeeps(g, After(g, events), e, key); }
  }

  /** After a restart nothing is submitting any more. */
  lemma ReloadIsUnconfirmed(g: Groups, d: Desk, key: QKey)
    requires key in d.disk && d.disk[key].status.Submitting?
    ensures var m := Next(g, d, Crash).mem; key in m && m[key].status.Unconfirmed?
    ensures forall o :: o in Next(g, d, Crash).mem ==> !Next(g, d, Crash).mem[o].status.Submitting?
  {
  }

  // ---------------------------------------------------------------- what backs a status

  /** What happened to a question from outside: a reported result, a cancellation, a lost
      binding, its deadline; or the process was restarted. */
  datatype Cause =
    | ReportedAs(key: QKey, result: Verdict)
    | Cancelled(key: QKey)
    | Unbound(key: QKey)
    | TimedOut(key: QKey)
    | Restart

  function CausesOf(g: Groups, d: Desk, e: Event): set<Cause> {
    if !Enabled(g, d, e) then {}
    else match e
      case Expire(key, _) => {TimedOut(key)}
      case Report(key, result, _) => {ReportedAs(key, result)}
      case Suspend(invalid, _) => set key | key in invalid :: Unbound(key)
      case Cancel(keys, _) => set key | key in keys :: Cancelled(key)
      case Crash => {Restart}
      case _ => {}
  }

  /** Everything that happened in a run, as history. */
  function Causes(g: Groups, events: seq<Event>): set<Cause> {
    if events == [] then {}
    else
      var before := events[..|events| - 1];
      Causes(g, before) + CausesOf(g, After(g, before), events[|events| - 1])
  }

  /** A status that the desk does not give by itself has its cause. */
  predicate Caused(h: set<Cause>, key: QKey, r: Record) {
    && (r.detached ==> Unbound(key) in h)
    && (match r.status
        case Confirmed => ReportedAs(key, Accepted) in h
        case Unconfirmed => ReportedAs(key, Failed) in h || Restart in h
        case Expired => TimedOut(key) in h
        case Withdrawn =>
          || Cancelled(key) in h || TimedOut(key) in h || ReportedAs(key, Gone) in h
          || (Unbound(key) in h && r.detached)
        case _ => true)
  }

  predicate CausedIn(h: set<Cause>, m: Store, key: QKey) { key in m ==> Caused(h, key, m[key]) }

  predicate AllCaused(h: set<Cause>, d: Desk, key: QKey) { CausedIn(h, d.mem, key) && CausedIn(h, d.disk, key) }

  lemma PutCaused(h: set<Cause>, d: Desk, at: QKey, r: Record, w: FileWrite, key: QKey)
    requires AllCaused(h, d, key) && (key == at ==> Caused(h, at, r))
    ensures AllCaused(h, Put(d, at, r, w), key)
  {
  }

  lemma AskedCaused(h: set<Cause>, d: Desk, at: QKey, k: Key, i: nat, answers: map<string, string>, w: FileWrite,
                    key: QKey)
    requires at in d.mem && AllCaused(h, d, key)
    ensures AllCaused(h, Asked(d, at, k, i, answers, w), key)
  {
    if !d.mem[at].attempted { PutCaused(h, d, at, d.mem[at].(attempted := true), w, key); }
  }

  lemma FetchedCaused(h: set<Cause>, d: Desk, at: QKey, matches: bool, w: FileWrite, key: QKey)
    requires AllCaused(h, d, key)
    ensures AllCaused(h, Fetched(d, at, matches, w), key)
  {
    PutCaused(h, d, at, Found(d.mem, at, matches), w, key);
  }

  lemma TurnCaused(h: set<Cause>, g: Groups, d: Desk, k: Key, i: nat, answers: map<string, string>, w: World, key: QKey)
    requires i < |g.Of(k)| && AllCaused(h, d, key)
    ensures AllCaused(h, Turn(g, d, k, i, answers, w).d, key)
  {
    var at := g.At(k, i);
    var now := Fetched(d, at, w.matches, w.write(2 * i));
    FetchedCaused(h, d, at, w.matches, w.write(2 * i), key);
    if now.mem[at].status.Pending? { AskedCaused(h, now, at, k, i, answers, w.write(2 * i + 1), key); }
  }

  lemma FinishedCaused(h: set<Cause>, d: Desk, k: Key, answers: map<string, string>, w: FileWrite, key: QKey)
    requires AllCaused(h, d, key)
    ensures AllCaused(h, Finished(d, k, answers, w), key)
  {
  }

  lemma {:induction false} AdvanceCaused(h: set<Cause>, g: Groups, d: Desk, k: Key, i: nat,
                                         answers: map<string, string>, w: World, key: QKey)
    requires AllCaused(h, d, key)
    ensures AllCaused(h, Advance(g, d, k, i, answers, w), key)
    decreases |g.Of(k)| - i
  {
    if i >= |g.Of(k)| {
      FinishedCaused(h, d, k, answers, w.write(2 * i), key);
    } else {
      var turn := Turn(g, d, k, i, answers, w);
      TurnCaused(h, g, d, k, i, answers, w, key);
      if turn.Go? { AdvanceCaused(h, g, turn.d, k, i + 1, turn.answers, w, key); }
    }
  }

  lemma NextCaused(h: set<Cause>, g: Groups, d: Desk, e: Event, key: QKey)
    requires AllCaused(h, d, key) && CausesOf(g, d, e) <= h
    ensures AllCaused(h, Next(g, d, e), key)
  {
    if Enabled(g, d, e) {
      match e
      case Request(k, world) => AdvanceCaused(h, g, d, k, 0, map[], world, key);
      case Resume(_, _) => ResumeCaused(h, g, d, e, key);
      case Report(_, _, _) => ReportCaused(h, g, d, e, key);
      case Suspend(_, _) => SweepCaused(h, g, d, e, key);
      case Cancel(_, _) => SweepCaused(h, g, d, e, key);
      case _ =>
    }
  }

  lemma ResumeCaused(h: set<Cause>, g: Groups, d: Desk, e: Event, key: QKey)
    requires e.Resume? && Enabled(g, d, e) && AllCaused(h, d, key)
    ensures AllCaused(h, Next(g, d, e), key)
  {
    var i := d.live[e.k].index;
    var at := g.At(e.k, i);
    if at in d.mem && d.mem[at].Decided() {
      var more := if d.resolved[at].Some? then d.live[e.k].answers[at.question := d.resolved[at].value]
        else d.live[e.k].answers;
      AdvanceCaused(h, g, d, e.k, i + 1, more, e.world, key);
    }
  }

  lemma ReportCaused(h: set<Cause>, g: Groups, d: Desk, e: Event, key: QKey)
    requires e.Report? && Enabled(g, d, e) && AllCaused(h, d, key) && CausesOf(g, d, e) <= h
    ensures AllCaused(h, Next(g, d, e), key)
  {
    if !d.mem[e.key].status.Confirmed? && !e.result.Suspended? {
      PutCaused(h, Released(d, e.key, None), e.key, Reported(d.mem[e.key], e.result), e.w, key);
    }
  }

  lemma SweepCaused(h: set<Cause>, g: Groups, d: Desk, e: Event, key: QKey)
    requires (e.Suspend? || e.Cancel?) && Enabled(g, d, e) && AllCaused(h, d, key) && CausesOf(g, d, e) <= h
    ensures AllCaused(h, Next(g, d, e), key)
  {
    if e.Suspend? {
      assert key in e.invalid ==> Unbound(key) in CausesOf(g, d, e);
    } else {
      assert key in e.keys ==> Cancelled(key) in CausesOf(g, d, e);
    }
  }

  lemma {:induction false} EveryStatusCaused(g: Groups, events: seq<Event>, key: QKey)
    ensures AllCaused(Causes(g, events), After(g, events), key)
  {
    if events != [] {
      EveryStatusCaused(g, events[..|events| - 1], key);
      NextCaused(Causes(g, events), g, After(g, events[..|events| - 1]), events[|events| - 1], key);
    }
  }

  /** Over all runs a record, in memory or on disk, has its status for a reason: it is
      `confirmed` only if its answer was reported accepted, `expired` only after its
      deadline, `unconfirmed` only after a reported failure or a restart, and
      `withdrawn` only if it was cancelled, timed out, reported gone or lost its
      binding, and then it is marked detached. */
  lemma ConfirmedWasAccepted(g: Groups, events: seq<Event>, key: QKey, r: Record)
    requires var d := After(g, events); (key in d.mem && d.mem[key] == r) || (key in d.disk && d.disk[key] == r)
    ensures r.status.Confirmed? ==> ReportedAs(key, Accepted) in Causes(g, events)
    ensures r.status.Unconfirmed? ==> ReportedAs(key, Failed) in Causes(g, events) || Restart in Causes(g, events)
    ensures r.status.Expired? ==> TimedOut(key) in Causes(g, events)
    ensures r.status.Withdrawn? ==>
      || Cancelled(key) in Causes(g, events) || TimedOut(key) in Causes(g, events)
      || ReportedAs(key, Gone) in Causes(g, events) || (Unbound(key) in Causes(g, events) && r.detached)
    ensures r.detached ==> Unbound(key) in Causes(g, events)
  {
    EveryStatusCaused(g, events, key);
  }

  /** What a reported result makes of a record that is not confirmed, in memory and, once
      saved, on disk; whoever waited for it is told that there is no answer, and no other
      record or waiter is touched. */
  lemma ReportSettles(g: Groups, d: Desk, key: QKey, result: Verdict, w: FileWrite)
    requires key in d.mem && !d.mem[key].status.Confirmed?
    ensures
      var n := Next(g, d, Event.Report(key, result, w));
      && key in n.mem
      && n.mem[key].status == (match result
           case Accepted => Confirmed
           case Failed => Unconfirmed
           case Gone => Withdrawn
           case Suspended => d.mem[key].status)
      && n.mem[key].answer == (if result.Suspended? then d.mem[key].answer else None)
      && n.mem[key].detached == (if result.Gone? then false else d.mem[key].detached)
      && n.mem[key].attempted == d.mem[key].attempted
      && (forall o :: o != key ==> (o in n.mem <==> o in d.mem) && (o in d.mem ==> n.mem[o] == d.mem[o]))
      && n.disk == (if result.Suspended? || w.LostBeforeRename? then d.disk else n.mem)
      && n.waiters == d.waiters - {key}
      && n.resolved == (if key in d.waiters then d.resolved[key := None] else d.resolved)
      && n.live == d.live && n.returned == d.returned
  {
  }

  // ---------------------------------------------------------------- what a request does

  /** The question can be asked now: its record is pending, or it is new and there is room,
      or it was detached and its binding is back; and a record that had to be made or
      changed for that was saved. */
  predicate Askable(d: Desk, key: QKey, w: World, saved: bool) {
    && w.matches
    && (if key !in d.mem then w.room && saved
        else d.mem[key].status.Pending? || (d.mem[key].status.Withdrawn? && d.mem[key].detached && saved))
  }

  /** What a request meets at one question that it does not ask.  An answer on record is
      taken over, and in every other case the request ends; nobody waits who did not, and
      without a record and room for one, or without the binding, nothing is written. */
  lemma QuestionMeans(g: Groups, d: Desk, k: Key, i: nat, answers: map<string, string>, w: World)
    requires i < |g.Of(k)|
    ensures
      var key, n := QKey(k, g.Of(k)[i]), Turn(g, d, k, i, answers, w);
      var known := key in d.mem;
      && (n.Go? <==> known && d.mem[key].status.Answered?)
      && (n.Go? ==> n.d == d && n.answers == match d.mem[key].answer
                                            case None => answers
                                            case Some(text) => answers[g.Of(k)[i] := text])
      && (n.Stop? && !Askable(d, key, w, w.write(2 * i).Committed?) ==>
            && n.d.waiters == d.waiters && n.d.live == d.live - {k}
            && (known && !w.matches ==> n.d.mem == d.mem && n.d.disk == d.disk)
            && (!known && !w.room ==> n.d.mem == d.mem && n.d.disk == d.disk))
      && n.d.resolved == d.resolved && n.d.returned == d.returned
  {
    var key := g.At(k, i);
    var now := Fetched(d, key, w.matches, w.write(2 * i));
    if now.mem[key].status.Pending? { AskedMeans(now, key, k, i, answers, w.write(2 * i + 1)); }
  }

  /** A question that can be asked is announced once, on file first, and then waited for; if
      the announcement cannot be saved the request ends and it counts as not announced. */
  lemma QuestionAsked(g: Groups, d: Desk, k: Key, i: nat, answers: map<string, string>, w: World)
    requires i < |g.Of(k)| && Askable(d, QKey(k, g.Of(k)[i]), w, w.write(2 * i).Committed?)
    ensures
      var key, n := QKey(k, g.Of(k)[i]), Turn(g, d, k, i, answers, w).d;
      var known := key in d.mem;
      var told := known && d.mem[key].attempted;
      var waits := told || w.write(2 * i + 1).Committed?;
      && Turn(g, d, k, i, answers, w).Stop? && key in n.mem
      && n.waiters == (if waits then d.waiters + {key} else d.waiters)
      && n.live == (if waits then d.live[k := Run(i, answers)] else d.live - {k})
      && n.mem[key] == Record(Pending, if known then d.mem[key].answer else None,
                              known && d.mem[key].status.Pending? && d.mem[key].detached, waits)
      && (!told && waits ==> n.disk == n.mem)
  {
    var key := g.At(k, i);
    AskedMeans(Fetched(d, key, w.matches, w.write(2 * i)), key, k, i, answers, w.write(2 * i + 1));
  }

  lemma AskedMeans(d: Desk, key: QKey, k: Key, i: nat, answers: map<string, string>, w: FileWrite)
    requires key in d.mem
    ensures
      var n := Asked(d, key, k, i, answers, w);
      var waits := d.mem[key].attempted || w.Committed?;
      && n.waiters == (if waits then d.waiters + {key} else d.waiters)
      && n.live == (if waits then d.live[k := Run(i, answers)] else d.live - {k})
      && n.mem == (if waits then d.mem[key := d.mem[key].(attempted := true)] else d.mem)
      && (!d.mem[key].attempted && w.Committed? ==> n.disk == n.mem)
      && n.resolved == d.resolved && n.returned == d.returned
  {
  }

  /** The text on record for question `j`, if it is answered. */
  predicate AnsweredAt(g: Groups, d: Desk, k: Key, j: nat) {
    j < |g.Of(k)| && QKey(k, g.Of(k)[j]) in d.mem && d.mem[QKey(k, g.Of(k)[j])].status.Answered?
  }

  /** The answers on record for the questions from `i` on, added to `answers`. */
  function OnRecord(qs: seq<string>, m: Store, k: Key, answers: map<string, string>): map<string, string> {
    if qs == [] then answers
    else
      var key := QKey(k, qs[0]);
      OnRecord(qs[1..], m, k,
               if key in m && m[key].answer.Some? then answers[qs[0] := m[key].answer.value] else answers)
  }

  lemma {:induction false} OnRecordAt(qs: seq<string>, m: Store, k: Key, answers: map<string, string>, q: string)
    ensures
      var all := OnRecord(qs, m, k, answers);
      if q in qs && QKey(k, q) in m && m[QKey(k, q)].answer.Some? then q in all && all[q] == m[QKey(k, q)].answer.value
      else (q in all <==> q in answers) && (q in all ==> all[q] == answers[q])
  {
    if qs != [] {
      var key := QKey(k, qs[0]);
      OnRecordAt(qs[1..], m, k,
                 if key in m && m[key].answer.Some? then answers[qs[0] := m[key].answer.value] else answers, q);
    }
  }

  lemma {:induction false} AnsweredAdvances(g: Groups, d: Desk, k: Key, i: nat, answers: map<string, string>, w: World)
    requires i <= |g.Of(k)| && forall j :: i <= j < |g.Of(k)| ==> AnsweredAt(g, d, k, j)
    ensures Advance(g, d, k, i, answers, w)
         == Finished(d, k, OnRecord(g.Of(k)[i..], d.mem, k, answers), w.write(2 * |g.Of(k)|))
    decreases |g.Of(k)| - i
  {
    if i < |g.Of(k)| {
      assert AnsweredAt(g, d, k, i);
      AnsweredAdvances(g, d, k, i + 1, Turn(g, d, k, i, answers, w).answers, w);
      assert g.Of(k)[i..][1..] == g.Of(k)[i + 1..] && g.Of(k)[i..][0] == g.Of(k)[i];
    }
  }

  /** A request whose remaining questions are all answered returns one object, once they
      are marked `submitting` on file: for each of these questions it holds the answer on
      record, and for any other what it already had.  If that cannot be saved it returns
      nothing. */
  lemma AnsweredGroupReturns(g: Groups, d: Desk, k: Key, i: nat, answers: map<string, string>, w: World, q: string)
    returns (whole: map<string, string>)
    requires i <= |g.Of(k)| && forall j :: i <= j < |g.Of(k)| ==> AnsweredAt(g, d, k, j)
    ensures
      var n := Advance(g, d, k, i, answers, w);
      && k !in n.live && n.waiters == d.waiters
      && n.Returned(k) == d.Returned(k) + (if w.write(2 * |g.Of(k)|).Committed? then [whole] else [])
      && (w.write(2 * |g.Of(k)|).Committed? ==> n.disk == n.mem)
      && (forall key :: key in n.mem <==> key in d.mem)
      && (forall key :: key in d.mem ==>
            n.mem[key] == if key.group == k && (d.mem[key].status.Answered? || d.mem[key].status.Expired?)
                          then d.mem[key].(status := Submitting) else d.mem[key])
    ensures q in g.Of(k)[i..] && QKey(k, q) in d.mem && d.mem[QKey(k, q)].answer.Some? ==>
      q in whole && whole[q] == d.mem[QKey(k, q)].answer.value
    ensures q !in g.Of(k)[i..] ==> (q in whole <==> q in answers) && (q in whole ==> whole[q] == answers[q])
  {
    whole := OnRecord(g.Of(k)[i..], d.mem, k, answers);
    AnsweredAdvances(g, d, k, i, answers, w);
    OnRecordAt(g.Of(k)[i..], d.mem, k, answers, q);
  }

  /** A request that is under way is shared: only one that is not starts at its first
      question, without answers. */
  lemma RequestMeans(g: Groups, d: Desk, k: Key, w: World)
    requires k in g.questions
    ensures Next(g, d, Request(k, w)) == if k in d.live then d else Advance(g, d, k, 0, map[], w)
  {
  }

  /** A wait that is over: with an answer or a decided record the request goes on behind its
      question, taking the answer along; otherwise it ends. */
  lemma ResumeMeans(g: Groups, d: Desk, k: Key, w: World)
    requires Enabled(g, d, Resume(k, w))
    ensures
      var i, n := d.live[k].index, Next(g, d, Resume(k, w));
      var key := QKey(k, g.Of(k)[i]);
      if key in d.mem && (d.mem[key].status.Answered? || d.mem[key].status.Expired?) then
        n == Advance(g, d, k, i + 1, match d.resolved[key]
                                     case None => d.live[k].answers
                                     case Some(text) => d.live[k].answers[g.Of(k)[i] := text], w)
      else n.live == d.live - {k} && n.mem == d.mem && n.disk == d.disk && n.returned == d.returned
  {
  }

  /** A new process knows what the file says, with submissions in doubt, and neither runs nor
      waits; a record is dropped from memory only when it is settled. */
  lemma RestartMeans(g: Groups, d: Desk, key: QKey)
    ensures
      var n := Next(g, d, Crash);
      && n.disk == d.disk && n.waiters == {} && n.resolved == map[] && n.live == map[] && n.returned == d.returned
      && (key in n.mem <==> key in d.disk)
      && (key in d.disk ==>
            n.mem[key] == if d.disk[key].status.Submitting? then d.disk[key].(status := Unconfirmed) else d.disk[key])
    ensures
      var n := Next(g, d, Prune(key));
      if key in d.mem && (d.mem[key].status.Confirmed? || d.mem[key].status.Withdrawn? || d.mem[key].status.Expired?)
      then n.mem == d.mem - {key} && n.disk == d.disk else n == d
  {
  }

  /** What the history records: an answer is given, and a question left without one, only by
      the user's own answer or skip that reached the file, or by an expiry that was saved. */
  lemma HistoryMeans(g: Groups, d: Desk, e: Event, key: QKey, text: string)
    requires !e.Request? && !e.Resume?
    ensures (key, text) in Next(g, d, e).given && (key, text) !in d.given ==>
      e.Settle? && e.key == key && e.answer == Some(text) && !e.w.LostBeforeRename?
    ensures key in Next(g, d, e).unanswered && key !in d.unanswered ==>
      || (e.Settle? && e.key == key && e.answer.None? && !e.w.LostBeforeRename?)
      || (e.Expire? && e.key == key && e.w.Committed?)
  {
  }

  // ---------------------------------------------------------------- what users and timers do

  /** An answer or a skip is on file before the waiter hears of it; if that save failed,
      nothing has changed in memory and the question is still asked. */
  lemma SettleMeans(g: Groups, d: Desk, key: QKey, answer: Option<string>, w: FileWrite)
    requires Enabled(g, d, Settle(key, answer, w))
    ensures
      var n := Next(g, d, Settle(key, answer, w));
      && (w.Committed? ==>
            && n.mem == d.mem[key := d.mem[key].(status := Answered, answer := answer)] && n.disk == n.mem
            && n.waiters == d.waiters - {key} && n.resolved == d.resolved[key := answer])
      && (!w.Committed? ==> n.mem == d.mem && n.waiters == d.waiters && n.resolved == d.resolved)
      && (w.LostBeforeRename? ==> n.disk == d.disk)
      && n.live == d.live && n.returned == d.returned
  {
  }

  /** A deadline: the question is expired on file, or withdrawn if that cannot be saved;
      its waiter hears that there is no answer. */
  lemma ExpireMeans(g: Groups, d: Desk, key: QKey, w: FileWrite)
    requires Enabled(g, d, Expire(key, w))
    ensures
      var n := Next(g, d, Expire(key, w));
      && n.mem == d.mem[key := d.mem[key].(status := if w.Committed? then Expired else Withdrawn)]
      && (w.Committed? ==> n.disk == n.mem) && (w.LostBeforeRename? ==> n.disk == d.disk)
      && n.waiters == d.waiters - {key} && n.resolved == d.resolved[key := None]
      && n.live == d.live && n.returned == d.returned
  {
  }

  /** A lost binding withdraws what is open and marks what may be on its way; a question
      whose fate is known stays; nobody waits for a question that lost its binding, if
      any record changed. */
  lemma SuspendMeans(g: Groups, d: Desk, invalid: set<QKey>, w: FileWrite, key: QKey)
    requires key in d.mem
    ensures
      var n := Next(g, d, Suspend(invalid, w));
      var was := d.mem[key];
      && key in n.mem
      && (if key !in invalid then n.mem[key] == was
          else match was.status
            case Pending => n.mem[key] == Record(Withdrawn, None, true, was.attempted)
            case Answered => n.mem[key] == Record(Withdrawn, None, true, was.attempted)
            case Submitting => n.mem[key] == was.(detached := true)
            case Unconfirmed => n.mem[key] == was.(detached := true)
            case _ => n.mem[key] == was)
      && (n.mem != d.mem ==> (n.waiters == d.waiters - invalid
         && n.disk == if w.LostBeforeRename? then d.disk else n.mem))
      && (n.mem == d.mem ==> n.waiters == d.waiters)
      && n.live == d.live && n.returned == d.returned
  {
    var hit := set o | o in invalid && o in d.mem && Detached(d.mem[o]) != d.mem[o];
    if hit == {} {
      assert key in invalid ==> key !in hit;
    } else {
      var o :| o in hit;
      assert DetachedIn(d.mem, invalid)[o] != d.mem[o];
    }
  }

  /** A cancelled question is withdrawn and its waiter hears that there is no answer. */
  lemma CancelMeans(g: Groups, d: Desk, keys: set<QKey>, w: FileWrite, key: QKey)
    requires Enabled(g, d, Cancel(keys, w)) && key in d.mem
    ensures
      var n := Next(g, d, Cancel(keys, w));
      && key in n.mem
      && n.mem[key] == (if key in keys then Record(Withdrawn, None, d.mem[key].detached, d.mem[key].attempted)
                        else d.mem[key])
      && n.waiters == d.waiters - keys && (key in keys ==> key in n.resolved && n.resolved[key].None?)
      && (key !in keys && key in d.resolved ==> key in n.resolved && n.resolved[key] == d.resolved[key])
      && n.disk == (if w.LostBeforeRename? then d.disk else n.mem)
      && n.live == d.live && n.returned == d.returned
  {
  }

  // ---------------------------------------------------------------- whose answers

  /** A record tells only what a user did. */
  predicate Told(given: set<(QKey, string)>, unanswered: set<QKey>, m: Store, key: QKey) {
    key in m ==>
      && (m[key].answer.Some? ==> (key, m[key].answer.value) in given)
      && (m[key].status.Answered? && m[key].answer.None? ==> key in unanswered)
  }

  predicate From(given: set<(QKey, string)>, k: Key, answers: map<string, string>, key: QKey) {
    key.group == k && key.question in answers ==> (key, answers[key.question]) in given
  }

  predicate AllFrom(given: set<(QKey, string)>, k: Key, objects: seq<map<string, string>>, key: QKey) {
    forall i :: 0 <= i < |objects| ==> From(given, k, objects[i], key)
  }

  predicate StoresHonest(d: Desk, key: QKey) {
    Told(d.given, d.unanswered, d.mem, key) && Told(d.given, d.unanswered, d.disk, key)
  }

  /** What memory, file, promises, running requests and returned objects say about a
      question is what was given for it. */
  predicate Honest(d: Desk, key: QKey) {
    && StoresHonest(d, key)
    && (key in d.resolved && d.resolved[key].Some? ==> (key, d.resolved[key].value) in d.given)
    && (key.group in d.live ==> From(d.given, key.group, d.live[key.group].answers, key))
    && AllFrom(d.given, key.group, d.Returned(key.group), key)
  }

  lemma PutHonest(d: Desk, at: QKey, r: Record, w: FileWrite, key: QKey)
    requires StoresHonest(d, key) && Told(d.given, d.unanswered, map[at := r], at)
    ensures StoresHonest(Put(d, at, r, w), key)
  {
  }

  lemma FetchedHonest(d: Desk, at: QKey, matches: bool, w: FileWrite, key: QKey)
    requires StoresHonest(d, key)
    ensures StoresHonest(Fetched(d, at, matches, w), key)
  {
  }

  /** `n` differs from `d` in its stores and in where the request `k` stands. */
  predicate Paused(d: Desk, n: Desk, k: Key, i: nat, answers: map<string, string>) {
    && n.given == d.given && n.unanswered == d.unanswered && n.resolved == d.resolved && n.returned == d.returned
    && (n.live == d.live - {k} || n.live == d.live[k := Run(i, answers)])
  }

  lemma AskedHonest(d: Desk, at: QKey, k: Key, i: nat, answers: map<string, string>, w: FileWrite, key: QKey)
    requires at in d.mem && StoresHonest(d, key)
    ensures StoresHonest(Asked(d, at, k, i, answers, w), key)
    ensures Paused(d, Asked(d, at, k, i, answers, w), k, i, answers)
  {
    AskedPauses(d, at, k, i, answers, w);
  }

  lemma PausedHonest(d: Desk, n: Desk, k: Key, i: nat, answers: map<string, string>, key: QKey)
    requires Honest(d, key) && From(d.given, k, answers, key) && StoresHonest(n, key) && Paused(d, n, k, i, answers)
    ensures Honest(n, key)
  {
    assert n.Returned(key.group) == d.Returned(key.group);
  }

  lemma TurnStores(g: Groups, d: Desk, k: Key, i: nat, answers: map<string, string>, w: World, n: Stretch, key: QKey)
    requires i < |g.Of(k)| && StoresHonest(d, key) && n == Turn(g, d, k, i, answers, w)
    ensures StoresHonest(n.d, key)
  {
    var at := g.At(k, i);
    var now := Fetched(d, at, w.matches, w.write(2 * i));
    FetchedHonest(d, at, w.matches, w.write(2 * i), key);
    if now.mem[at].status.Pending? { AskedHonest(now, at, k, i, answers, w.write(2 * i + 1), key); }
  }

  /** Going on, the answer taken over is the one on record. */
  lemma GoHonest(d: Desk, n: Desk, k: Key, at: QKey, answers: map<string, string>, more: map<string, string>, key: QKey)
    requires Honest(d, key) && From(d.given, k, answers, key) && StoresHonest(n, key)
    requires n == d.(mem := n.mem, disk := n.disk) && at in n.mem && at.group == k
    requires more == if n.mem[at].answer.Some? then answers[at.question := n.mem[at].answer.value] else answers
    ensures Honest(n, key) && From(n.given, k, more, key)
  {
    assert n.Returned(key.group) == d.Returned(key.group);
    if key.group == k && key.question == at.question { assert key == at; }
  }

  lemma TurnHonest(g: Groups, d: Desk, k: Key, i: nat, answers: map<string, string>, w: World, n: Stretch, key: QKey)
    requires i < |g.Of(k)| && Honest(d, key) && From(d.given, k, answers, key) && n == Turn(g, d, k, i, answers, w)
    ensures Honest(n.d, key) && n.d.given == d.given && n.d.unanswered == d.unanswered
    ensures n.Go? ==> From(d.given, k, n.answers, key)
  {
    TurnStores(g, d, k, i, answers, w, n, key);
    TurnDecides(g, d, k, i, answers, w, n);
    if n.Stop? {
      PausedHonest(d, n.d, k, i, answers, key);
    } else {
      GoHonest(d, n.d, k, g.At(k, i), answers, n.answers, key);
    }
  }

  lemma FinishedHonest(d: Desk, k: Key, answers: map<string, string>, w: FileWrite, key: QKey)
    requires Honest(d, key) && From(d.given, k, answers, key)
    ensures Honest(Finished(d, k, answers, w), key)
  {
  }

  lemma {:induction false} AdvanceHonest(g: Groups, d: Desk, k: Key, i: nat, answers: map<string, string>, w: World,
                                         key: QKey)
    requires Honest(d, key) && From(d.given, k, answers, key)
    ensures var n := Advance(g, d, k, i, answers, w);
      Honest(n, key) && n.given == d.given && n.unanswered == d.unanswered
    decreases |g.Of(k)| - i
  {
    if i >= |g.Of(k)| {
      FinishedHonest(d, k, answers, w.write(2 * i), key);
    } else {
      var turn := Turn(g, d, k, i, answers, w);
      TurnHonest(g, d, k, i, answers, w, turn, key);
      if turn.Go? { AdvanceHonest(g, turn.d, k, i + 1, turn.answers, w, key); }
    }
  }

  lemma NextHonest(g: Groups, d: Desk, e: Event, key: QKey)
    requires Honest(d, key)
    ensures Honest(Next(g, d, e), key)
  {
    if Enabled(g, d, e) {
      match e
      case Request(k, world) => AdvanceHonest(g, d, k, 0, map[], world, key);
      case Resume(k, world) =>
        var i := d.live[k].index;
        var at := g.At(k, i);
        if at in d.mem && d.mem[at].Decided() {
          var more := if d.resolved[at].Some? then d.live[k].answers[at.question := d.resolved[at].value]
            else d.live[k].answers;
          assert at == QKey(k, at.question);
          AdvanceHonest(g, d, k, i + 1, more, world, key);
        }
      case Settle(_, _, _) => SettleHonest(g, d, e, key);
      case Report(_, _, _) => ReportHonest(g, d, e, key);
      case Suspend(_, _) => SweepHonest(g, d, e, key);
      case Cancel(_, _) => SweepHonest(g, d, e, key);
      case _ =>
    }
  }

  lemma HistoryGrows(d: Desk, n: Desk, key: QKey)
    requires Honest(d, key) && d.given <= n.given && d.unanswered <= n.unanswered
    requires n == d.(given := n.given, unanswered := n.unanswered)
    ensures Honest(n, key)
  {
    assert n.Returned(key.group) == d.Returned(key.group);
  }

  lemma StoresMove(d: Desk, n: Desk, key: QKey)
    requires Honest(d, key) && StoresHonest(n, key) && n == d.(mem := n.mem, disk := n.disk)
    ensures Honest(n, key)
  {
    assert n.Returned(key.group) == d.Returned(key.group);
  }

  lemma ReleasedHonest(d: Desk, at: QKey, answer: Option<string>, key: QKey)
    requires Honest(d, key) && (answer.Some? ==> (at, answer.value) in d.given)
    ensures Honest(Released(d, at, answer), key)
  {
    assert Released(d, at, answer).Returned(key.group) == d.Returned(key.group);
  }

  lemma SettledHonest(d: Desk, at: QKey, answer: Option<string>, w: FileWrite, key: QKey)
    requires at in d.mem && Honest(d, key)
    ensures Honest(Settled(d, at, answer, w), key)
  {
    var n := Settled(d, at, answer, w);
    var known := d.(given := n.given, unanswered := n.unanswered);
    HistoryGrows(d, known, key);
    StoresMove(known, n, key);
  }

  lemma SettleHonest(g: Groups, d: Desk, e: Event, key: QKey)
    requires e.Settle? && Enabled(g, d, e) && Honest(d, key)
    ensures Honest(Next(g, d, e), key)
  {
    SettledHonest(d, e.key, e.answer, e.w, key);
    if e.w.Returned() { ReleasedHonest(Settled(d, e.key, e.answer, e.w), e.key, e.answer, key); }
  }

  lemma ReportHonest(g: Groups, d: Desk, e: Event, key: QKey)
    requires e.Report? && Enabled(g, d, e) && Honest(d, key)
    ensures Honest(Next(g, d, e), key)
  {
    var released := Released(d, e.key, None);
    ReleasedHonest(d, e.key, None, key);
    if !e.result.Suspended? {
      var r := Reported(d.mem[e.key], e.result);
      PutHonest(released, e.key, r, e.w, key);
      StoresMove(released, Put(released, e.key, r, e.w), key);
    }
  }

  lemma SweepHonest(g: Groups, d: Desk, e: Event, key: QKey)
    requires (e.Suspend? || e.Cancel?) && Enabled(g, d, e) && Honest(d, key)
    ensures Honest(Next(g, d, e), key)
  {
    var n := Next(g, d, e);
    SweepMoves(g, d, e, key);
    assert n.Returned(key.group) == d.Returned(key.group);
  }

  lemma SweepMoves(g: Groups, d: Desk, e: Event, key: QKey)
    requires (e.Suspend? || e.Cancel?) && Enabled(g, d, e) && StoresHonest(d, key)
    ensures var n := Next(g, d, e);
      && StoresHonest(n, key)
      && n == d.(mem := n.mem, disk := n.disk, waiters := n.waiters, resolved := n.resolved)
      && (key in n.resolved && n.resolved[key].Some? ==> key in d.resolved && n.resolved[key] == d.resolved[key])
  {
    if e.Suspend? {
      SweptTold(d, e.invalid, key);
      ReleasedAllAt(d.(mem := DetachedIn(d.mem, e.invalid)), e.invalid, key);
    } else {
      SweptTold(d, e.keys, key);
      ReleasedAllAt(d.(mem := WithdrawnIn(d.mem, e.keys)), e.keys, key);
    }
  }

  lemma SweptTold(d: Desk, keys: set<QKey>, key: QKey)
    requires Told(d.given, d.unanswered, d.mem, key)
    ensures Told(d.given, d.unanswered, DetachedIn(d.mem, keys), key)
    ensures Told(d.given, d.unanswered, WithdrawnIn(d.mem, keys), key)
  {
  }

  lemma ReleasedAllAt(d: Desk, keys: set<QKey>, key: QKey)
    ensures var n := ReleasedAll(d, keys);
      && n == d.(waiters := n.waiters, resolved := n.resolved)
      && (key in n.resolved && n.resolved[key].Some? ==> key in d.resolved && n.resolved[key] == d.resolved[key])
  {
  }

  /** In every object ever returned each answer is one that a user gave to that very
      question. */
  lemma {:induction false} AnswersAreGiven(g: Groups, events: seq<Event>, key: QKey, i: nat)
    ensures Honest(After(g, events), key)
    ensures var d := After(g, events);
      i < |d.Returned(key.group)| && key.question in d.Returned(key.group)[i] ==>
        (key, d.Returned(key.group)[i][key.question]) in d.given
  {
    if events != [] {
      AnswersAreGiven(g, events[..|events| - 1], key, i);
      NextHonest(g, After(g, events[..|events| - 1]), events[|events| - 1], key);
    }
  }

  // ---------------------------------------------------------------- every question first

  /** The answers hold one for the question, unless it was skipped or expired. */
  predicate Covers(d: Desk, key: QKey, answers: map<string, string>) {
    key.question in answers || key in d.unanswered
  }

  predicate AllCover(d: Desk, key: QKey, objects: seq<map<string, string>>) {
    forall n :: 0 <= n < |objects| ==> Covers(d, key, objects[n])
  }

  /** A running request covers every question it has left behind, and each returned
      object every question of its group. */
  predicate Covered(g: Groups, d: Desk, k: Key, j: nat) {
    j < |g.Of(k)| ==>
      && (k in d.live && j < d.live[k].index ==> Covers(d, g.At(k, j), d.live[k].answers))
      && AllCover(d, g.At(k, j), d.Returned(k))
  }

  /** A promise that brings no answer belongs to a question that has none, or is not
      decided after all. */
  predicate Silent(d: Desk, key: QKey) {
    key in d.resolved && key !in d.waiters && d.resolved[key].None? && key in d.mem && d.mem[key].Decided() ==>
      key in d.unanswered
  }

  /** From `d` to `n` nobody is released and nothing decided. */
  predicate Calm(d: Desk, n: Desk, key: QKey) {
    && n.resolved == d.resolved && n.unanswered == d.unanswered
    && (key in d.waiters ==> key in n.waiters)
    && (key in n.mem && n.mem[key].Decided() ==> key in d.mem && d.mem[key].Decided())
  }

  lemma TurnCalm(g: Groups, d: Desk, k: Key, i: nat, answers: map<string, string>, w: World, key: QKey)
    requires i < |g.Of(k)|
    ensures Calm(d, Turn(g, d, k, i, answers, w).d, key)
  {
    var at := g.At(k, i);
    var now := Fetched(d, at, w.matches, w.write(2 * i));
    FetchedCalm(d, at, w.matches, w.write(2 * i), key);
    if now.mem[at].status.Pending? { AskedCalm(now, at, k, i, answers, w.write(2 * i + 1), key); }
  }

  lemma FetchedCalm(d: Desk, at: QKey, matches: bool, w: FileWrite, key: QKey)
    ensures Calm(d, Fetched(d, at, matches, w), key)
  {
  }

  lemma AskedCalm(d: Desk, at: QKey, k: Key, i: nat, answers: map<string, string>, w: FileWrite, key: QKey)
    requires at in d.mem
    ensures Calm(d, Asked(d, at, k, i, answers, w), key)
  {
    AskedMoves(d, at, k, i, answers, w, key);
    MovedCalm(d, Asked(d, at, k, i, answers, w), k, i, answers, key);
  }

  lemma MovedCalm(d: Desk, n: Desk, k: Key, i: nat, answers: map<string, string>, key: QKey)
    requires AskMoved(d, n, k, i, answers, key)
    ensures Calm(d, n, key)
  {
  }

  lemma {:induction false} AdvanceCalm(g: Groups, d: Desk, k: Key, i: nat, answers: map<string, string>, w: World,
                                       key: QKey)
    ensures Calm(d, Advance(g, d, k, i, answers, w), key)
    decreases |g.Of(k)| - i
  {
    if i < |g.Of(k)| {
      var turn := Turn(g, d, k, i, answers, w);
      TurnCalm(g, d, k, i, answers, w, key);
      if turn.Go? { AdvanceCalm(g, turn.d, k, i + 1, turn.answers, w, key); }
    }
  }

  lemma NextSilent(g: Groups, d: Desk, e: Event, key: QKey)
    requires Silent(d, key) && Awaited(d, key)
    ensures Silent(Next(g, d, e), key)
  {
    if Enabled(g, d, e) {
      match e
      case Request(k, world) => AdvanceCalm(g, d, k, 0, map[], world, key);
      case Resume(_, _) => ResumeSilent(g, d, e, key);
      case Settle(_, _, _) => SettleSilent(g, d, e, key);
      case Expire(_, _) => SettleSilent(g, d, e, key);
      case Report(_, _, _) => ReportSilent(g, d, e, key);
      case Suspend(_, _) => SweepSilent(g, d, e, key);
      case Cancel(_, _) => SweepSilent(g, d, e, key);
      case _ =>
    }
  }

  lemma ResumeSilent(g: Groups, d: Desk, e: Event, key: QKey)
    requires e.Resume? && Enabled(g, d, e) && Silent(d, key)
    ensures Silent(Next(g, d, e), key)
  {
    var i := d.live[e.k].index;
    var at := g.At(e.k, i);
    if at in d.mem && d.mem[at].Decided() {
      var more := if d.resolved[at].Some? then d.live[e.k].answers[at.question := d.resolved[at].value]
        else d.live[e.k].answers;
      AdvanceCalm(g, d, e.k, i + 1, more, e.world, key);
    }
  }

  lemma SettleSilent(g: Groups, d: Desk, e: Event, key: QKey)
    requires (e.Settle? || e.Expire?) && Enabled(g, d, e) && Silent(d, key)
    ensures Silent(Next(g, d, e), key)
  {
  }

  lemma ReportSilent(g: Groups, d: Desk, e: Event, key: QKey)
    requires e.Report? && Enabled(g, d, e) && Silent(d, key) && Awaited(d, key)
    ensures Silent(Next(g, d, e), key)
  {
    if !d.mem[e.key].status.Confirmed? {
      ReleasedSilent(d, e.key, key);
      if !e.result.Suspended? {
        PutSilent(Released(d, e.key, None), e.key, Reported(d.mem[e.key], e.result), e.w, key);
      }
    }
  }

  lemma ReleasedSilent(d: Desk, at: QKey, key: QKey)
    requires Silent(d, key) && Awaited(d, key)
    ensures Silent(Released(d, at, None), key)
  {
  }

  lemma PutSilent(d: Desk, at: QKey, r: Record, w: FileWrite, key: QKey)
    requires Silent(d, key) && !r.Decided()
    ensures Silent(Put(d, at, r, w), key)
  {
  }

  lemma SweepSilent(g: Groups, d: Desk, e: Event, key: QKey)
    requires (e.Suspend? || e.Cancel?) && Enabled(g, d, e) && Silent(d, key) && Awaited(d, key)
    ensures Silent(Next(g, d, e), key)
  {
  }

  lemma TurnDecides(g: Groups, d: Desk, k: Key, i: nat, answers: map<string, string>, w: World, n: Stretch)
    requires i < |g.Of(k)| && n == Turn(g, d, k, i, answers, w)
    ensures n.Stop? ==> Paused(d, n.d, k, i, answers)
    ensures n.Go? ==> n.d == d.(mem := n.d.mem, disk := n.d.disk)
    ensures n.Go? ==>
      var at := g.At(k, i);
      && at in n.d.mem && n.d.mem[at].status.Answered?
      && n.answers == if n.d.mem[at].answer.Some? then answers[at.question := n.d.mem[at].answer.value] else answers
  {
    var at := g.At(k, i);
    var now := Fetched(d, at, w.matches, w.write(2 * i));
    if now.mem[at].status.Pending? { AskedPauses(now, at, k, i, answers, w.write(2 * i + 1)); }
  }

  lemma AskedPauses(d: Desk, at: QKey, k: Key, i: nat, answers: map<string, string>, w: FileWrite)
    requires at in d.mem
    ensures Paused(d, Asked(d, at, k, i, answers, w), k, i, answers)
  {
    AskedMoves(d, at, k, i, answers, w, at);
    MovedPauses(d, Asked(d, at, k, i, answers, w), k, i, answers, at);
  }

  lemma MovedPauses(d: Desk, n: Desk, k: Key, i: nat, answers: map<string, string>, key: QKey)
    requires AskMoved(d, n, k, i, answers, key)
    ensures Paused(d, n, k, i, answers)
  {
  }

  /** What a request at question `i` has to bring along. */
  predicate Brings(g: Groups, d: Desk, k: Key, i: nat, answers: map<string, string>, o: Key, j: nat) {
    o == k && j < i && j < |g.Of(k)| ==> Covers(d, g.At(k, j), answers)
  }

  lemma GoBrings(g: Groups, d: Desk, k: Key, i: nat, answers: map<string, string>, w: World, n: Stretch, o: Key, j: nat)
    requires i < |g.Of(k)| && n == Turn(g, d, k, i, answers, w) && n.Go?
    requires StoresHonest(d, g.At(k, i)) && Brings(g, d, k, i, answers, o, j) && Covered(g, d, o, j)
    ensures Brings(g, n.d, k, i + 1, n.answers, o, j) && Covered(g, n.d, o, j)
  {
    TurnDecides(g, d, k, i, answers, w, n);
    TurnStores(g, d, k, i, answers, w, n, g.At(k, i));
    assert n.d.Returned(o) == d.Returned(o);
  }

  lemma StopCovered(g: Groups, d: Desk, n: Desk, k: Key, i: nat, answers: map<string, string>, o: Key, j: nat)
    requires Covered(g, d, o, j) && Brings(g, d, k, i, answers, o, j) && Paused(d, n, k, i, answers)
    ensures Covered(g, n, o, j)
  {
    assert n.Returned(o) == d.Returned(o);
  }

  lemma {:induction false} AdvanceCovers(g: Groups, d: Desk, k: Key, i: nat, answers: map<string, string>, w: World,
                                         o: Key, j: nat)
    requires forall key :: StoresHonest(d, key)
    requires Covered(g, d, o, j) && Brings(g, d, k, i, answers, o, j)
    ensures Covered(g, Advance(g, d, k, i, answers, w), o, j)
    decreases |g.Of(k)| - i
  {
    if i < |g.Of(k)| {
      var turn := Turn(g, d, k, i, answers, w);
      if turn.Go? {
        GoBrings(g, d, k, i, answers, w, turn, o, j);
        forall key ensures StoresHonest(turn.d, key) { TurnStores(g, d, k, i, answers, w, turn, key); }
        AdvanceCovers(g, turn.d, k, i + 1, turn.answers, w, o, j);
      } else {
        TurnDecides(g, d, k, i, answers, w, turn);
        StopCovered(g, d, turn.d, k, i, answers, o, j);
      }
    }
  }

  /** The other events leave running requests and objects alone. */
  lemma HistoryCovers(g: Groups, d: Desk, n: Desk, k: Key, j: nat)
    requires Covered(g, d, k, j) && d.unanswered <= n.unanswered && n.returned == d.returned
    requires n.live == d.live || k !in n.live
    ensures Covered(g, n, k, j)
  {
    assert n.Returned(k) == d.Returned(k);
  }

  lemma NextCovers(g: Groups, d: Desk, e: Event, k: Key, j: nat)
    requires Covered(g, d, k, j)
    requires forall key :: StoresHonest(d, key) && Silent(d, key)
    ensures Covered(g, Next(g, d, e), k, j)
  {
    if Enabled(g, d, e) && e.Request? {
      AdvanceCovers(g, d, e.k, 0, map[], e.world, k, j);
    } else if Enabled(g, d, e) && e.Resume? {
      ResumeCovers(g, d, e, k, j);
    } else {
      OthersMove(g, d, e, k);
      HistoryCovers(g, d, Next(g, d, e), k, j);
    }
  }

  lemma OthersMove(g: Groups, d: Desk, e: Event, k: Key)
    requires !Enabled(g, d, e) || (!e.Request? && !e.Resume?)
    ensures d.unanswered <= Next(g, d, e).unanswered && Next(g, d, e).returned == d.returned
    ensures Next(g, d, e).live == d.live || k !in Next(g, d, e).live
  {
    if Enabled(g, d, e) {
      match e
      case Report(_, _, _) => ReportMoves(g, d, e);
      case Suspend(invalid, _) => ReleasedAllAt(d.(mem := DetachedIn(d.mem, invalid)), invalid, QKey("", ""));
      case Cancel(keys, _) => ReleasedAllAt(d.(mem := WithdrawnIn(d.mem, keys)), keys, QKey("", ""));
      case _ =>
    }
  }

  lemma ReportMoves(g: Groups, d: Desk, e: Event)
    requires e.Report? && Enabled(g, d, e)
    ensures var n := Next(g, d, e); n == d.(mem := n.mem, disk := n.disk, waiters := n.waiters, resolved := n.resolved)
  {
  }

  lemma ResumeCovers(g: Groups, d: Desk, e: Event, k: Key, j: nat)
    requires Enabled(g, d, e) && e.Resume? && Covered(g, d, k, j)
    requires forall key :: StoresHonest(d, key) && Silent(d, key)
    ensures Covered(g, Next(g, d, e), k, j)
  {
    var i := d.live[e.k].index;
    var at := g.At(e.k, i);
    if at in d.mem && d.mem[at].Decided() {
      var more := if d.resolved[at].Some? then d.live[e.k].answers[at.question := d.resolved[at].value]
        else d.live[e.k].answers;
      assert Silent(d, at);
      AdvanceCovers(g, d, e.k, i + 1, more, e.world, k, j);
    } else if e.k != k {
      assert Ended(d, e.k).Returned(k) == d.Returned(k);
    }
  }

  /** Every object holds an answer for every question of its group, except those that
      were skipped or expired. */
  lemma {:induction false} EveryQuestionFirst(g: Groups, events: seq<Event>, k: Key, j: nat)
    ensures Covered(g, After(g, events), k, j) && forall key :: Silent(After(g, events), key)
    ensures var d := After(g, events);
      j < |g.Of(k)| ==> forall n :: 0 <= n < |d.Returned(k)| ==>
        g.Of(k)[j] in d.Returned(k)[n] || g.At(k, j) in d.unanswered
  {
    if events != [] {
      var d, e := After(g, events[..|events| - 1]), events[|events| - 1];
      EveryQuestionFirst(g, events[..|events| - 1], k, j);
      AnsweredAtMostOnce(g, events[..|events| - 1], k);
      forall key ensures StoresHonest(d, key) && Silent(Next(g, d, e), key) {
        AnswersAreGiven(g, events[..|events| - 1], key, 0);
        NextSilent(g, d, e, key);
      }
      NextCovers(g, d, e, k, j);
    }
    if j < |g.Of(k)| { CoveredMeans(g, After(g, events), k, j); }
  }

  lemma CoveredMeans(g: Groups, d: Desk, k: Key, j: nat)
    requires Covered(g, d, k, j) && j < |g.Of(k)|
    ensures forall n :: 0 <= n < |d.Returned(k)| ==> g.Of(k)[j] in d.Returned(k)[n] || g.At(k, j) in d.unanswered
  {
    forall n | 0 <= n < |d.Returned(k)| ensures g.Of(k)[j] in d.Returned(k)[n] || g.At(k, j) in d.unanswered {
      assert Covers(d, g.At(k, j), d.Returned(k)[n]);
    }
  }

  // ---------------------------------------------------------------- the object

  class ChannelUserInputController {
    const groups: Groups
    var mem: Store
    var disk: Store
    var waiters: set<QKey>
    var resolved: map<QKey, Option<string>>
    var live: map<Key, Run>
    /** What native requests, users and readers have seen. */
    var returned: map<Key, seq<map<string, string>>>
    var given: set<(QKey, string)>
    var unanswered: set<QKey>
    var pruned: set<QKey>

    function Abs(): Desk reads this {
      Desk(mem, disk, waiters, resolved, live, returned, given, unanswered, pruned)
    }

    constructor Load(groups: Groups, before: Desk)
      ensures this.groups == groups && Abs() == Next(groups, before, Crash)
    {
      this.groups := groups;
      mem, disk, waiters, resolved, live := Reloaded(before.disk), before.disk, {}, map[], map[];
      returned, given, unanswered, pruned := before.returned, before.given, before.unanswered, before.pruned;
    }

    method Save(w: FileWrite) returns (failed: bool)
      modifies `disk
      ensures disk == FileAfter(old(disk), mem, w) && failed == !w.Returned()
    {
      if w.Replaced() { disk := mem; }
      failed := !w.Returned();
    }

    method Release(key: QKey, answer: Option<string>)
      modifies `waiters, `resolved
      ensures Abs() == Released(old(Abs()), key, answer)
    {
      if key in waiters { waiters, resolved := waiters - {key}, resolved[key := answer]; }
    }

    /** `ask` up to its wait. */
    method Ask(key: QKey, k: Key, i: nat, answers: map<string, string>, w: FileWrite)
      requires key in mem
      modifies `mem, `disk, `waiters, `live
      ensures Abs() == Asked(old(Abs()), key, k, i, answers, w)
    {
      if !mem[key].attempted {
        var was := mem[key];
        mem := mem[key := was.(attempted := true)];
        var failed := Save(w);
        if failed {
          mem, live := mem[key := was], live - {k};
          return;
        }
      }
      waiters, live := waiters + {key}, live[k := Run(i, answers)];
    }

    /** One round of the loop over the questions. */
    method Question(k: Key, i: nat, answers: map<string, string>, w: World)
      returns (go: bool, more: map<string, string>)
      requires i < |groups.Of(k)|
      modifies `mem, `disk, `waiters, `live
      ensures var n := Turn(groups, old(Abs()), k, i, answers, w);
        Abs() == n.d && go == n.Go? && (go ==> more == n.answers)
    {
      go, more := false, answers;
      var key := groups.At(k, i);
      if key !in mem && !w.room { live := live - {k}; return; }
      var was := mem;
      var found := Found(mem, key, w.matches);
      if key !in mem || mem[key] != found {
        mem := mem[key := found];
        var failed := Save(w.write(2 * i));
        if failed { live := live - {k}; return; }
      }
      if found.status.Answered? {
        go := true;
        if found.answer.Some? { more := answers[key.question := found.answer.value]; }
      } else if !found.status.Pending? || !w.matches {
        live := live - {k};
      } else {
        Ask(key, k, i, answers, w.write(2 * i + 1));
      }
    }

    /** `runRequest` from one wait to the next, or to its end. */
    method RunRequest(k: Key, from: nat, answers: map<string, string>, w: World)
      modifies `mem, `disk, `waiters, `live, `returned
      ensures Abs() == Advance(groups, old(Abs()), k, from, answers, w)
    {
      var i, more := from, answers;
      while i < |groups.Of(k)|
        modifies `mem, `disk, `waiters, `live
        invariant Advance(groups, Abs(), k, i, more, w) == Advance(groups, old(Abs()), k, from, answers, w)
      {
        var go, next := Question(k, i, more, w);
        if !go { return; }
        i, more := i + 1, next;
      }
      mem := Marked(mem, k);
      var failed := Save(w.write(2 * i));
      if !failed { returned := returned[k := Abs().Returned(k) + [more]]; }
      live := live - {k};
    }

    /** `settle`, rolled back if its save fails. */
    method Settle(key: QKey, answer: Option<string>, w: FileWrite)
      requires Enabled(groups, Abs(), Event.Settle(key, answer, w))
      modifies this
      ensures Abs() == Next(groups, old(Abs()), Event.Settle(key, answer, w))
    {
      var previous := mem[key];
      mem := mem[key := previous.(status := Answered, answer := answer)];
      if w.Replaced() {
        if answer.Some? { given := given + {(key, answer.value)}; } else { unanswered := unanswered + {key}; }
      }
      var failed := Save(w);
      if failed {
        mem := mem[key := previous];
        assert mem == old(mem);
      } else {
        Release(key, answer);
      }
    }

    method Expire(key: QKey, w: FileWrite)
      requires Enabled(groups, Abs(), Event.Expire(key, w))
      modifies this
      ensures Abs() == Next(groups, old(Abs()), Event.Expire(key, w))
    {
      var record := mem[key];
      mem := mem[key := record.(status := Expired)];
      var failed := Save(w);
      if failed { mem := mem[key := record.(status := Withdrawn)]; } else { unanswered := unanswered + {key}; }
      assert mem == Lapsed(old(Abs()), key, w).mem;
      Release(key, None);
    }

    /** `reportResult` for one record of the group. */
    method Report(key: QKey, result: Verdict, w: FileWrite)
      requires key in mem
      modifies this
      ensures Abs() == Next(groups, old(Abs()), Event.Report(key, result, w))
    {
      if mem[key].status.Confirmed? { return; }
      if result.Suspended? { Release(key, None); return; }
      mem := mem[key := Reported(mem[key], result)];
      Release(key, None);
      var failed := Save(w);
    }
  }
}
