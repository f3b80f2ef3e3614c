/** What every segment of the inbox does to its rows: which rows stay, in which
    order, and where their targets come from.  One relation, `Preserves`, is shown
    for each operation and composed. */
module InboxRows {
  import opened Common
  import opened ReceiptLog
  import opened InboundReceipts
  import opened ForwardingInbox

  /** One row per key, in the order of the stamps. */
  ghost predicate Ordered(rows: seq<Row>, clock: nat) {
    && (forall i, k :: 0 <= i < k < |rows| ==> rows[i].stamp < rows[k].stamp && rows[i].Key() != rows[k].Key())
    && (forall i :: 0 <= i < |rows| ==> rows[i].stamp < clock)
  }

  ghost predicate Shaped(x: Inbox) { Ordered(x.rows, x.clock) && Ordered(x.disk, x.clock) }

  /** The row of `key` is still there: same message, same place in the order. */
  predicate Keeps(a: seq<Row>, b: seq<Row>, key: Key) {
    Has(a, key) ==> Has(b, key) && At(b, key).message == At(a, key).message && At(b, key).stamp == At(a, key).stamp
  }

  /** No new row, and no row whose message became another one. */
  ghost predicate Within(a: seq<Row>, b: seq<Row>) {
    forall k :: Has(b, k) ==> Has(a, k) && At(b, k).message == At(a, k).message
  }

  ghost predicate TargetIn(rows: seq<Row>, key: Key, target: Option<Target>) {
    exists i :: 0 <= i < |rows| && rows[i].Key() == key && rows[i].target == target
  }

  ghost predicate TargetsFrom(x: Inbox, rows: seq<Row>) {
    forall i :: 0 <= i < |rows| ==>
      TargetIn(x.rows, rows[i].Key(), rows[i].target) || TargetIn(x.disk, rows[i].Key(), rows[i].target)
  }

  /** `x` became `y` and only rows of `gone` may have been given up or moved; the
      file is the old one or one that was written from rows that satisfy this too. */
  ghost predicate KeepsOrder(x: Inbox, y: Inbox, gone: set<Key>) {
    && x.clock <= y.clock && Shaped(y) && Within(x.rows, y.rows)
    && (forall k :: k !in gone ==> Keeps(x.rows, y.rows, k))
    && (y.disk == x.disk || forall k :: k !in gone ==> Keeps(x.rows, y.disk, k))
  }

  /** Every row that is still there has the target it had. */
  ghost predicate TargetsStay(a: seq<Row>, b: seq<Row>) {
    forall k :: Has(a, k) && Has(b, k) ==> At(b, k).target == At(a, k).target
  }

  /** In addition, no row has a target it did not have before. */
  ghost predicate Preserves(x: Inbox, y: Inbox, gone: set<Key>) {
    KeepsOrder(x, y, gone) && TargetsStay(x.rows, y.rows) && TargetsFrom(x, y.rows) && TargetsFrom(x, y.disk)
  }

  lemma PreservesRefl(x: Inbox)
    requires Shaped(x)
    ensures Preserves(x, x, {})
  {
  }

  lemma PreservesTrans(x: Inbox, y: Inbox, z: Inbox, gone: set<Key>)
    requires Preserves(x, y, gone) && Preserves(y, z, gone)
    ensures Preserves(x, z, gone)
  {
    forall k | k !in gone ensures Keeps(x.rows, z.rows, k) && (z.disk == y.disk || Keeps(x.rows, z.disk, k)) {
      assert Keeps(x.rows, y.rows, k) && Keeps(y.rows, z.rows, k);
    }
    TargetsTrans(x, y, z.rows);
    TargetsTrans(x, y, z.disk);
  }

  lemma TargetsTrans(x: Inbox, y: Inbox, rows: seq<Row>)
    requires TargetsFrom(x, y.rows) && TargetsFrom(x, y.disk) && TargetsFrom(y, rows)
    ensures TargetsFrom(x, rows)
  {
    forall i | 0 <= i < |rows|
      ensures TargetIn(x.rows, rows[i].Key(), rows[i].target) || TargetIn(x.disk, rows[i].Key(), rows[i].target)
    {
      var key, target := rows[i].Key(), rows[i].target;
      if TargetIn(y.rows, key, target) {
        var k :| 0 <= k < |y.rows| && y.rows[k].Key() == key && y.rows[k].target == target;
      } else {
        var k :| 0 <= k < |y.disk| && y.disk[k].Key() == key && y.disk[k].target == target;
      }
    }
  }

  lemma PreservesMore(x: Inbox, y: Inbox, few: set<Key>, many: set<Key>)
    requires Preserves(x, y, few) && few <= many
    ensures Preserves(x, y, many)
  {
  }

  // ---------------------------------------------------------------- edits

  /** Row by row the same messages, places and targets. */
  ghost predicate Alike(a: seq<Row>, b: seq<Row>) {
    |a| == |b| && forall i :: 0 <= i < |a| ==>
      a[i].message == b[i].message && a[i].stamp == b[i].stamp && a[i].target == b[i].target
  }

  lemma EditPreserves(x: Inbox, rows: seq<Row>, w: FileWrite)
    requires Shaped(x) && Alike(x.rows, rows)
    ensures Preserves(x, Saved(x.(rows := rows), w), {})
  {
    forall k
      ensures Keeps(x.rows, rows, k)
      ensures (Has(rows, k) ==> Has(x.rows, k) && At(rows, k).message == At(x.rows, k).message)
    {
      FindUnique(x.rows, rows, k);
    }
    forall i | 0 <= i < |rows| ensures TargetIn(x.rows, rows[i].Key(), rows[i].target) {
      assert x.rows[i].Key() == rows[i].Key();
    }
    SelfTargets(x);
  }

  lemma SelfTargets(x: Inbox)
    ensures TargetsFrom(x, x.rows) && TargetsFrom(x, x.disk)
  {
  }

  predicate SamePlace(a: Row, b: Row) { a.message == b.message && a.stamp == b.stamp && a.target == b.target }

  lemma PutAlike(rows: seq<Row>, row: Row)
    requires Has(rows, row.Key()) && SamePlace(At(rows, row.Key()), row)
    ensures Alike(rows, Put(rows, row))
  {
  }

  lemma InformedPreserves(x: Inbox, key: Key, w: FileWrite)
    requires Shaped(x) && Has(x.rows, key)
    ensures Preserves(x, Informed(x, key, w).0, {})
  {
    var row := At(x.rows, key);
    PutAlike(x.rows, row.(noticed := row.noticed + {row.state}));
    EditPreserves(x, Put(x.rows, row.(noticed := row.noticed + {row.state})), w);
    PreservesRefl(x);
  }

  lemma ParkedPreserves(x: Inbox, row: Row, w: FileWrite, w': FileWrite)
    requires Shaped(x) && Has(x.rows, row.Key()) && SamePlace(At(x.rows, row.Key()), row)
    ensures Preserves(x, Parked(x, row, w, w').0, {})
  {
    PutAlike(x.rows, row);
    EditPreserves(x, Put(x.rows, row), w);
    var changed := Saved(x.(rows := Put(x.rows, row)), w);
    FindAfterPut(x.rows, row);
    if w.Returned() {
      InformedPreserves(changed, row.Key(), w');
      PreservesTrans(x, changed, Informed(changed, row.Key(), w').0, {});
    }
  }

  lemma MarkedPreserves(x: Inbox, key: Key, state: RowState, w: FileWrite)
    requires Shaped(x) && Has(x.rows, key)
    ensures Preserves(x, Marked(x, key, state, w), {})
  {
    PutAlike(x.rows, At(x.rows, key).(state := state));
    EditPreserves(x, Put(x.rows, At(x.rows, key).(state := state)), w);
  }

  lemma AttemptedPreserves(x: Inbox, key: Key, w: FileWrite)
    requires Shaped(x) && Has(x.rows, key)
    ensures Preserves(x, Attempted(x, At(x.rows, key), w), {})
  {
    var row := At(x.rows, key);
    var more := row.(attempts := row.attempts + 1);
    PutAlike(x.rows, more);
    assert Attempted(x, row, w) == Saved(x.(rows := Put(x.rows, more)), w);
    EditPreserves(x, Put(x.rows, more), w);
  }

  lemma AttemptedKeepsRow(x: Inbox, key: Key, w: FileWrite)
    requires Has(x.rows, key)
    ensures Has(Attempted(x, At(x.rows, key), w).rows, key)
    ensures At(Attempted(x, At(x.rows, key), w).rows, key).message == At(x.rows, key).message
  {
    var row := At(x.rows, key);
    FindAfterPut(x.rows, row.(attempts := row.attempts + 1));
  }

  // ---------------------------------------------------------------- removal

  lemma FindWithout(rows: seq<Row>, key: Key, other: Key)
    requires Has(rows, key) && other != key
    ensures Has(Without(rows, key), other) == Has(rows, other)
    ensures Has(rows, other) ==> At(Without(rows, key), other) == At(rows, other)
  {
    var at, rest := Find(rows, key), Without(rows, key);
    var i, k := Find(rows, other), Find(rest, other);
    var place := if i < at then i else i - 1;
    assert forall n :: 0 <= n < |rest| ==> rest[n] == rows[if n < at then n else n + 1];
    if i < |rows| {
      assert rest[place] == rows[i];
      assert k <= place;
      assert rows[if k < at then k else k + 1].Key() == other;
    } else if k < |rest| {
      assert false;
    }
  }

  lemma FindAppended(rows: seq<Row>, row: Row, other: Key)
    requires Has(rows, other) || other != row.Key()
    ensures Has(rows + [row], other) == Has(rows, other)
    ensures Has(rows, other) ==> At(rows + [row], other) == At(rows, other)
  {
    var i, k := Find(rows, other), Find(rows + [row], other);
    if i < |rows| {
      assert (rows + [row])[i].Key() == other;
      assert k <= i && (rows + [row])[k] == rows[k];
    } else if k < |rows| {
      assert false;
    }
  }

  lemma WithoutOrdered(x: Inbox, key: Key)
    requires Shaped(x) && Has(x.rows, key)
    ensures var rest := Without(x.rows, key);
            && Ordered(rest, x.clock) && TargetsFrom(x, rest) && forall i :: 0 <= i < |rest| ==> rest[i].Key() != key
  {
    var at, rest := Find(x.rows, key), Without(x.rows, key);
    assert forall n :: 0 <= n < |rest| ==> rest[n] == x.rows[if n < at then n else n + 1];
    forall i | 0 <= i < |rest| ensures TargetIn(x.rows, rest[i].Key(), rest[i].target) { }
  }

  lemma WithoutAt(x: Inbox, key: Key, k: Key)
    requires Shaped(x) && Has(x.rows, key)
    ensures var rest := Without(x.rows, key);
            && (k != key ==> Keeps(x.rows, rest, k))
            && (Has(rest, k) ==> Has(x.rows, k) && At(rest, k) == At(x.rows, k))
  {
    if k == key { WithoutOrdered(x, key); } else { FindWithout(x.rows, key, k); }
  }

  lemma WithoutKeeps(x: Inbox, key: Key)
    requires Shaped(x) && Has(x.rows, key)
    ensures var rest := Without(x.rows, key);
            && Ordered(rest, x.clock) && (forall k :: k != key ==> Keeps(x.rows, rest, k)) && TargetsFrom(x, rest)
            && Within(x.rows, rest) && TargetsStay(x.rows, rest)
            && forall i :: 0 <= i < |rest| ==> rest[i].Key() != key
  {
    WithoutOrdered(x, key);
    var rest := Without(x.rows, key);
    forall k
      ensures (k != key ==> Keeps(x.rows, rest, k)) && (Has(rest, k) ==> Has(x.rows, k) && At(rest, k) == At(x.rows, k))
    {
      WithoutAt(x, key, k);
    }
  }

  /** The row that comes back after a failed removal takes the last place. */
  lemma PutBackKeeps(x: Inbox, key: Key)
    requires Shaped(x) && Has(x.rows, key)
    ensures var all := Without(x.rows, key) + [At(x.rows, key).(stamp := x.clock)];
            && Ordered(all, x.clock + 1) && (forall k :: k != key ==> Keeps(x.rows, all, k)) && TargetsFrom(x, all)
            && Within(x.rows, all) && TargetsStay(x.rows, all)
  {
    WithoutKeeps(x, key);
    var rest, back := Without(x.rows, key), At(x.rows, key).(stamp := x.clock);
    forall k ensures (k != key ==> Keeps(x.rows, rest + [back], k))
      && (Has(rest + [back], k) ==> Has(x.rows, k) && At(rest + [back], k).message == At(x.rows, k).message
                                    && At(rest + [back], k).target == At(x.rows, k).target)
    {
      if k == key {
        assert !Has(rest, key);
        assert forall i :: 0 <= i < |rest| ==> (rest + [back])[i].Key() != key;
      } else {
        assert Keeps(x.rows, rest, k);
        FindAppended(rest, back, k);
      }
    }
    assert x.rows[Find(x.rows, key)].target == back.target;
    assert TargetIn(x.rows, key, back.target);
    forall i | 0 <= i < |rest + [back]|
      ensures var r := (rest + [back])[i]; TargetIn(x.rows, r.Key(), r.target) || TargetIn(x.disk, r.Key(), r.target)
    {
      if i < |rest| { assert (rest + [back])[i] == rest[i]; }
    }
  }

  lemma RemovePreserves(x: Inbox, key: Key, w: FileWrite)
    requires Shaped(x)
    ensures Preserves(x, AfterRemove(x, key, w), {key})
  {
    SelfTargets(x);
    if Has(x.rows, key) {
      WithoutKeeps(x, key);
      PutBackKeeps(x, key);
      var rest := Without(x.rows, key);
      var all := rest + [At(x.rows, key).(stamp := x.clock)];
      assert AfterRemove(x, key, w) == if w.Returned() then x.(rows := rest, disk := FileAfter(x.disk, rest, w))
        else x.(rows := all, disk := FileAfter(x.disk, rest, w), clock := x.clock + 1);
    }
  }

  // ---------------------------------------------------------------- staging

  lemma AppendKeeps(x: Inbox, row: Row)
    requires Shaped(x) && !Has(x.rows, row.Key()) && row.stamp == x.clock
    ensures var all := x.rows + [row];
            && Ordered(all, x.clock + 1) && Has(all, row.Key()) && At(all, row.Key()) == row
            && (forall k :: Keeps(x.rows, all, k))
            && (forall k :: k != row.Key() && Has(all, k) ==> Has(x.rows, k) && At(all, k) == At(x.rows, k))
  {
    var all := x.rows + [row];
    assert forall i :: 0 <= i < |x.rows| ==> x.rows[i].Key() != row.Key();
    assert all[|x.rows|] == row;
    forall k
      ensures Keeps(x.rows, all, k) && (k != row.Key() && Has(all, k) ==> Has(x.rows, k) && At(all, k) == At(x.rows, k))
    {
      if Has(x.rows, k) || k != row.Key() { FindAppended(x.rows, row, k); }
    }
  }

  /** Staging adds at most the new message, as the last row; when it returns, the
      message is among the rows, and a new one is on disk as well. */
  lemma StagedPreserves(x: Inbox, m: Message, f: Fresh, w: FileWrite)
    requires Shaped(x)
    ensures var y := Staged(x, m, f, w).0;
            && Shaped(y) && x.clock <= y.clock
            && (forall k :: Keeps(x.rows, y.rows, k))
            && (y.disk == x.disk || forall k :: Keeps(x.rows, y.disk, k))
            && (forall k :: k != m.key && Has(y.rows, k) ==> Has(x.rows, k) && At(y.rows, k) == At(x.rows, k))
            && (forall r :: r in y.rows ==> r in x.rows || (r.Key() == m.key && r.target == f.target))
            && (forall r :: r in y.disk ==> r in x.rows || r in x.disk || (r.Key() == m.key && r.target == f.target))
  {
    if !Has(x.rows, m.key) {
      AppendKeeps(x, Row(m, f.body, f.target, f.automatic, f.ordersInput, 0, f.now, Pending, {}, x.clock));
    }
  }

  lemma StagedReturns(x: Inbox, m: Message, f: Fresh, w: FileWrite)
    requires Shaped(x)
    ensures var (y, ok) := Staged(x, m, f, w);
            && (!ok || Has(x.rows, m.key) ==> y.rows == x.rows)
            && (Has(x.rows, m.key) ==> y == x)
            && (ok ==> Has(y.rows, m.key) && At(y.rows, m.key).message == m && (Has(x.rows, m.key) || y.disk == y.rows))
  {
    if !Has(x.rows, m.key) {
      AppendKeeps(x, Row(m, f.body, f.target, f.automatic, f.ordersInput, 0, f.now, Pending, {}, x.clock));
    }
  }

  // ---------------------------------------------------------------- delivery

  lemma FailurePreserves(s: World, key: Key, f: Failure, e: Weather, w: FileWrite, w': FileWrite)
    requires Shaped(s.inbox) && Has(s.inbox.rows, key)
    ensures AfterFailure(s, key, f, e, w, w').0.journal == s.journal
    ensures AfterFailure(s, key, f, e, w, w').0.inbox.busy == s.inbox.busy
    ensures Preserves(s.inbox, AfterFailure(s, key, f, e, w, w').0.inbox,
      if Done(PhaseOf(s.journal, key)) then {key} else {})
  {
    var row, phase := At(s.inbox.rows, key), PhaseOf(s.journal, key);
    var s' := AfterFailure(s, key, f, e, w, w').0;
    if Done(phase) {
      assert s' == s.(inbox := AfterRemove(s.inbox, key, w));
      RemovePreserves(s.inbox, key, w);
    } else if phase.Received? && row.automatic && RetryLater(f) {
      assert s' == s.(inbox := Parked(s.inbox, row.(nextAt := e.now + e.delay), w, w').0);
      ParkedPreserves(s.inbox, row.(nextAt := e.now + e.delay), w, w');
    } else {
      assert s' == s.(inbox := Marked(s.inbox, key, if phase.Received? then Held else Unsure, w));
      MarkedPreserves(s.inbox, key, if phase.Received? then Held else Unsure, w);
    }
  }

  lemma CompletedPreserves(s: World, key: Key, e: Weather, w: FileWrite, w': FileWrite)
    requires Shaped(s.inbox) && Has(s.inbox.rows, key)
    ensures var s' := Completed(s, key, e, w, w').0;
            s'.journal == s.journal && s'.inbox.busy == s.inbox.busy && Preserves(s.inbox, s'.inbox, {key})
  {
    RemovePreserves(s.inbox, key, w);
    if !w.Returned() {
      var removed := s.(inbox := AfterRemove(s.inbox, key, w));
      RemovedComesBack(s.inbox, key, w);
      FailurePreserves(removed, key, Other, e, w', LostBeforeRename);
      var s' := AfterFailure(removed, key, Other, e, w', LostBeforeRename).0;
      if !Done(PhaseOf(s.journal, key)) { PreservesMore(removed.inbox, s'.inbox, {}, {key}); }
      PreservesTrans(s.inbox, removed.inbox, s'.inbox, {key});
    }
  }

  /** `handle` is entered for this row's message. */
  function HandleEntry(s: World, key: Key, e: Weather): (Entered, Journal)
    requires Has(s.inbox.rows, key)
  {
    EnterHandle(s.journal, At(s.inbox.rows, key).message, e.claim)
  }

  lemma HandedPreserves(s: World, key: Key, e: Weather)
    requires Shaped(s.inbox) && Has(s.inbox.rows, key)
    ensures Handed(s, key, e).0.inbox.busy == s.inbox.busy
    ensures Handed(s, key, e).0.journal == if e.deferred then s.journal else HandleEntry(s, key, e).1
    ensures Handed(s, key, e).1.Flying? ==> !e.deferred && HandleEntry(s, key, e).0.Running?
    ensures Preserves(s.inbox, Handed(s, key, e).0.inbox, {key})
    ensures Done(PhaseOf(Handed(s, key, e).0.journal, key)) || HandleEntry(s, key, e).0.Skipped?
            || Preserves(s.inbox, Handed(s, key, e).0.inbox, {})
  {
    var x := Handed(s, key, e).0.inbox;
    if e.deferred || HandleEntry(s, key, e).0.Refused? {
      var j := if e.deferred then s.journal else HandleEntry(s, key, e).1;
      FailurePreserves(s.(journal := j), key, if e.deferred then Deferred else Other, e, e.w', e.w'');
      if !Done(PhaseOf(j, key)) { PreservesMore(s.inbox, x, {}, {key}); }
    } else if HandleEntry(s, key, e).0.Skipped? {
      CompletedPreserves(s.(journal := HandleEntry(s, key, e).1), key, e, e.w', e.w'');
    } else {
      PreservesRefl(s.inbox);
      PreservesMore(s.inbox, x, {}, {key});
    }
  }

  lemma LaunchedPreserves(s: World, key: Key, e: Weather)
    requires Shaped(s.inbox) && Has(s.inbox.rows, key)
    ensures Launched(s, key, e).0.inbox.busy == s.inbox.busy
    ensures Preserves(s.inbox, Launched(s, key, e).0.inbox, {key})
    ensures var j := Launched(s, key, e).0.journal; j == s.journal || j == HandleEntry(s, key, e).1
    ensures Launched(s, key, e).1.Flying? ==>
      HandleEntry(s, key, e).0.Running? && Launched(s, key, e).0.journal == HandleEntry(s, key, e).1
    ensures Done(PhaseOf(Launched(s, key, e).0.journal, key)) || HandleEntry(s, key, e).0.Skipped?
            || Preserves(s.inbox, Launched(s, key, e).0.inbox, {})
  {
    AttemptedPreserves(s.inbox, key, e.w);
    AttemptedKeepsRow(s.inbox, key, e.w);
    var tried := s.(inbox := Attempted(s.inbox, At(s.inbox.rows, key), e.w));
    if e.w.Returned() {
      HandedPreserves(tried, key, e);
      var x := Handed(tried, key, e).0.inbox;
      if Done(PhaseOf(Handed(tried, key, e).0.journal, key)) || HandleEntry(s, key, e).0.Skipped? {
        PreservesMore(s.inbox, tried.inbox, {}, {key});
        PreservesTrans(s.inbox, tried.inbox, x, {key});
      } else {
        PreservesTrans(s.inbox, tried.inbox, x, {});
        PreservesMore(s.inbox, x, {}, {key});
      }
    } else {
      PreservesMore(s.inbox, tried.inbox, {}, {key});
    }
  }

  /** Every delivery segment: the journal moves only by entering `handle`, and the
      row is given up only when it is settled or `handle` had nothing to do. */
  lemma DeliveredPreserves(s: World, key: Key, initial: bool, e: Weather)
    requires Shaped(s.inbox) && key !in s.inbox.busy && Has(s.inbox.rows, key)
    ensures Delivered(s, key, initial, e).0.inbox.busy == s.inbox.busy
    ensures Preserves(s.inbox, Delivered(s, key, initial, e).0.inbox, {key})
    ensures var j := Delivered(s, key, initial, e).0.journal; j == s.journal || j == HandleEntry(s, key, e).1
    ensures Delivered(s, key, initial, e).1.Flying? ==>
              && HandleEntry(s, key, e).0.Running?
              && Delivered(s, key, initial, e).0.journal == HandleEntry(s, key, e).1
              && Decide(s, key, initial, e.current, e.canDispatch).Dispatch?
    ensures Done(PhaseOf(s.journal, key)) || Done(PhaseOf(Delivered(s, key, initial, e).0.journal, key))
            || (Decide(s, key, initial, e.current, e.canDispatch).Dispatch? && HandleEntry(s, key, e).0.Skipped?)
            || Preserves(s.inbox, Delivered(s, key, initial, e).0.inbox, {})
  {
    var row, turn := At(s.inbox.rows, key), Decide(s, key, initial, e.current, e.canDispatch);
    if turn.Housekeep? {
      RemovePreserves(s.inbox, key, e.w);
    } else if turn.Idle? {
      PreservesRefl(s.inbox);
      PreservesMore(s.inbox, s.inbox, {}, {key});
    } else if turn.Dispatch? {
      LaunchedPreserves(s, key, e);
    } else {
      ParkedPreserves(s.inbox, Restated(row, turn, e), e.w, e.w');
      PreservesMore(s.inbox, Delivered(s, key, initial, e).0.inbox, {}, {key});
    }
  }

  lemma LandedPreserves(s: World, key: Key, failed: Option<Failure>, e: Weather)
    requires Shaped(s.inbox)
    ensures Landed(s, key, failed, e).0.journal == s.journal
    ensures Landed(s, key, failed, e).0.inbox.busy == s.inbox.busy
    ensures Preserves(s.inbox, Landed(s, key, failed, e).0.inbox, {key})
    ensures failed.None? || Done(PhaseOf(s.journal, key)) || Preserves(s.inbox, Landed(s, key, failed, e).0.inbox, {})
  {
    if !Has(s.inbox.rows, key) {
      PreservesRefl(s.inbox);
      PreservesMore(s.inbox, s.inbox, {}, {key});
    } else if failed.Some? {
      FailurePreserves(s, key, failed.value, e, e.w, e.w');
      if !Done(PhaseOf(s.journal, key)) {
        PreservesMore(s.inbox, Landed(s, key, failed, e).0.inbox, {}, {key});
      }
    } else {
      CompletedPreserves(s, key, e, e.w, e.w');
    }
  }

  // ---------------------------------------------------------------- new targets

  /** Row by row the same messages and places, perhaps other targets. */
  ghost predicate Parallel(a: seq<Row>, b: seq<Row>) {
    |a| == |b| && forall i :: 0 <= i < |a| ==> a[i].message == b[i].message && a[i].stamp == b[i].stamp
  }

  lemma ParallelKeeps(x: Inbox, rows: seq<Row>)
    requires Shaped(x) && Parallel(x.rows, rows)
    ensures Ordered(rows, x.clock) && Within(x.rows, rows) && forall k :: Keeps(x.rows, rows, k)
  {
    forall k
      ensures Keeps(x.rows, rows, k)
      ensures (Has(rows, k) ==> Has(x.rows, k) && At(rows, k).message == At(x.rows, k).message)
    {
      FindUnique(x.rows, rows, k);
    }
  }

  lemma RetriedKeepsOrder(s: World, key: Key, t: Target, now: int, w: FileWrite)
    requires Shaped(s.inbox) && Has(s.inbox.rows, key)
    ensures KeepsOrder(s.inbox, Retried(s, key, t, now, w).inbox, {})
    ensures forall r :: r in Retried(s, key, t, now, w).inbox.rows || r in Retried(s, key, t, now, w).inbox.disk ==>
              r in s.inbox.rows || r in s.inbox.disk || (r.Key() == key && r.target == Some(t))
    ensures forall k :: k != key && Has(s.inbox.rows, k) ==>
              && Has(Retried(s, key, t, now, w).inbox.rows, k)
              && At(Retried(s, key, t, now, w).inbox.rows, k) == At(s.inbox.rows, k)
  {
    var row := At(s.inbox.rows, key);
    PutAside(s.inbox, key, row.(target := Some(t), state := Pending, nextAt := now, noticed := {}));
    PutAside(s.inbox, key, Restored(s.inbox, row, t));
  }

  /** A retry aims its own message only. */
  lemma RetriedTargets(s: World, key: Key, t: Target, now: int, w: FileWrite, k: Key)
    requires Shaped(s.inbox) && Has(s.inbox.rows, key) && Has(s.inbox.rows, k)
    ensures var rows := Retried(s, key, t, now, w).inbox.rows;
      Has(rows, k) && (At(rows, k).target == At(s.inbox.rows, k).target || (k == key && At(rows, k).target == Some(t)))
  {
    RetriedKeepsOrder(s, key, t, now, w);
    if k == key {
      var row := At(s.inbox.rows, key);
      FindAfterPut(s.inbox.rows, row.(target := Some(t), state := Pending, nextAt := now, noticed := {}));
      FindAfterPut(s.inbox.rows, Restored(s.inbox, row, t));
    }
  }

  lemma PutAside(x: Inbox, key: Key, row: Row)
    requires Shaped(x) && Has(x.rows, key) && row.message == At(x.rows, key).message
    requires row.stamp == At(x.rows, key).stamp
    ensures Ordered(Put(x.rows, row), x.clock) && Within(x.rows, Put(x.rows, row))
    ensures forall k :: Keeps(x.rows, Put(x.rows, row), k)
    ensures forall k :: k != key && Has(x.rows, k) ==>
      Has(Put(x.rows, row), k) && At(Put(x.rows, row), k) == At(x.rows, k)
    ensures forall r :: r in Put(x.rows, row) ==> r in x.rows || r == row
  {
    ParallelKeeps(x, Put(x.rows, row));
    FindAfterPut(x.rows, row);
  }

  lemma AcceptedKeepsOrder(x: Inbox, key: Key, r: Receipt, current: Option<Target>, w: FileWrite, w': FileWrite)
    requires Shaped(x)
    ensures KeepsOrder(x, AfterAccepted(x, key, r, current, w, w'), {key})
    ensures AfterAccepted(x, key, r, current, w, w').busy == x.busy
  {
    if Has(x.rows, key) && ExactAcceptance(r) {
      var previous := At(x.rows, key).target;
      if FirstThread(r, previous, current) {
        var rows := Reaim(x.rows, previous, current);
        ParallelKeeps(x, rows);
        var aimed := Saved(x.(rows := rows), w);
        RemovePreserves(aimed, key, w');
        KeepsOrderTrans(x, aimed, AfterRemove(aimed, key, w'), {key});
      } else {
        RemovePreserves(x, key, w');
      }
    }
  }

  lemma KeepsOrderTrans(x: Inbox, y: Inbox, z: Inbox, gone: set<Key>)
    requires KeepsOrder(x, y, gone) && KeepsOrder(y, z, gone)
    ensures KeepsOrder(x, z, gone)
  {
    forall k | k !in gone ensures Keeps(x.rows, z.rows, k) && (z.disk == y.disk || Keeps(x.rows, z.disk, k)) {
      assert Keeps(x.rows, y.rows, k) && Keeps(y.rows, z.rows, k);
    }
  }

  lemma ReaimAt(x: Inbox, previous: Option<Target>, current: Option<Target>, k: Key)
    requires Has(x.rows, k)
    ensures var aimed := Reaim(x.rows, previous, current);
      Has(aimed, k) && At(aimed, k) == Aimed(At(x.rows, k), previous, current)
  {
    FindUnique(x.rows, Reaim(x.rows, previous, current), k);
  }

  /** An acceptance moves a stored target only as the first thread of the very target
      that the accepted message and a pending row share. */
  lemma AcceptedMoves(x: Inbox, key: Key, r: Receipt, current: Option<Target>, w: FileWrite, w': FileWrite, k: Key)
    requires Shaped(x) && Has(x.rows, k)
    ensures var y := AfterAccepted(x, key, r, current, w, w');
      Has(y.rows, k) && At(y.rows, k).target != At(x.rows, k).target ==>
        && Has(x.rows, key) && ExactAcceptance(r) && FirstThread(r, At(x.rows, key).target, current)
        && At(x.rows, k).state.Pending? && At(x.rows, k).target == At(x.rows, key).target
        && At(y.rows, k).target == current
  {
    if Has(x.rows, key) && ExactAcceptance(r) {
      var previous := At(x.rows, key).target;
      if FirstThread(r, previous, current) {
        var aimed := Saved(x.(rows := Reaim(x.rows, previous, current)), w);
        ReaimAt(x, previous, current, k);
        ParallelKeeps(x, aimed.rows);
        RemovePreserves(aimed, key, w');
      } else {
        RemovePreserves(x, key, w');
      }
    }
  }

  /** A target that was there, or the new one in place of the one being replaced. */
  ghost predicate Sourced(x: Inbox, key: Key, r: Receipt, current: Option<Target>, k: Key, t: Option<Target>) {
    || TargetIn(x.rows, k, t) || TargetIn(x.disk, k, t)
    || (Has(x.rows, key) && ExactAcceptance(r) && t == current
        && FirstThread(r, At(x.rows, key).target, current) && TargetIn(x.rows, k, At(x.rows, key).target))
  }

  lemma ReaimSourced(rows: seq<Row>, previous: Option<Target>, current: Option<Target>, k: Key, t: Option<Target>)
    requires TargetIn(Reaim(rows, previous, current), k, t)
    ensures TargetIn(rows, k, t) || (t == current && TargetIn(rows, k, previous))
  {
    var aimed := Reaim(rows, previous, current);
    var i :| 0 <= i < |aimed| && aimed[i].Key() == k && aimed[i].target == t;
    assert rows[i].Key() == k;
  }

  /** Where the targets after an acceptance come from. */
  lemma AcceptedTargets(x: Inbox, key: Key, r: Receipt, current: Option<Target>, w: FileWrite, w': FileWrite, row: Row)
    requires Shaped(x)
    requires row in AfterAccepted(x, key, r, current, w, w').rows
      || row in AfterAccepted(x, key, r, current, w, w').disk
    ensures Sourced(x, key, r, current, row.Key(), row.target)
  {
    var y := AfterAccepted(x, key, r, current, w, w');
    SelfTargets(x);
    if Has(x.rows, key) && ExactAcceptance(r) && FirstThread(r, At(x.rows, key).target, current) {
      var previous := At(x.rows, key).target;
      var rows := Reaim(x.rows, previous, current);
      var aimed := Saved(x.(rows := rows), w);
      ParallelKeeps(x, rows);
      RemovePreserves(aimed, key, w');
      PreservesRefl(aimed);
      assert TargetIn(aimed.rows, row.Key(), row.target) || TargetIn(aimed.disk, row.Key(), row.target);
      if TargetIn(rows, row.Key(), row.target) { ReaimSourced(x.rows, previous, current, row.Key(), row.target); }
    } else {
      RemovePreserves(x, key, w');
      PreservesRefl(x);
    }
  }

  // ---------------------------------------------------------------- what each operation means

  /** Every row but that of `key` is as it was. */
  ghost predicate OthersStay(a: seq<Row>, b: seq<Row>, key: Key) {
    forall k :: k != key ==> (Has(b, k) <==> Has(a, k)) && (Has(a, k) ==> At(b, k) == At(a, k))
  }

  /** A message under a known id is kept if it is the same one and refused otherwise; a new
      one is the last row, untried and pending, in memory and on disk, or it is not there
      and staging throws. */
  lemma StageMeans(x: Inbox, m: Message, f: Fresh, w: FileWrite)
    ensures
      var (y, ok) := Staged(x, m, f, w);
      var row := Row(m, f.body, f.target, f.automatic, f.ordersInput, 0, f.now, Pending, {}, x.clock);
      && (Has(x.rows, m.key) ==>
            y == x && (ok <==> At(x.rows, m.key).message == m && At(x.rows, m.key).body == f.body))
      && (!Has(x.rows, m.key) ==>
            && (ok <==> w.Committed?) && y.rows == (if ok then x.rows + [row] else x.rows)
            && y.disk == (if w.LostBeforeRename? then x.disk else x.rows + [row])
            && y.clock == x.clock + 1 && y.bare == x.bare - {m.key})
  {
  }

  /** A new process has the rows of the file, none in delivery; the objects of rows that have
      no target have no such field either. */
  lemma LoadMeans(disk: seq<Row>, clock: nat, key: Key)
    ensures
      var x := Loaded(disk, clock);
      && x.rows == disk && x.disk == disk && x.busy == {}
      && (key in x.bare <==> exists i :: 0 <= i < |disk| && disk[i].message.key == key && disk[i].target.None?)
  {
    forall i | 0 <= i < |disk| ensures disk[i].Key() == disk[i].message.key { }
    if key in Loaded(disk, clock).bare {
      var r :| r in disk && r.target.None? && r.Key() == key;
      var i :| 0 <= i < |disk| && disk[i] == r;
    }
    if i :| 0 <= i < |disk| && disk[i].message.key == key && disk[i].target.None? { assert disk[i] in disk; }
  }

  /** A delivery does nothing for a message that is in delivery or has no row; else it does
      what its turn says: a finished message is removed, one whose turn it is launched. */
  lemma DeliverMeans(s: World, key: Key, initial: bool, e: Weather)
    ensures
      var (n, stop) := Delivered(s, key, initial, e);
      && (key in s.inbox.busy || !Has(s.inbox.rows, key) ==> n == s && stop.Settled?)
      && (key !in s.inbox.busy && Has(s.inbox.rows, key) ==>
            match Decide(s, key, initial, e.current, e.canDispatch)
            case Housekeep => n.inbox == AfterRemove(s.inbox, key, e.w) && n.journal == s.journal && stop.Settled?
            case Dispatch => (n, stop) == Launched(s, key, e)
            case turn => (n, stop) == Turned(s, key, turn, e))
  {
  }

  /** Taking in a message: false for one that cannot be claimed; true once its receipt and
      then its row are on file, and it stays claimed; if either fails it throws, and a
      message whose row could not be staged is not claimed any more. */
  lemma IntakeMeans(s: World, m: Message, f: Fresh, o: SaveOutcome, w: FileWrite)
    ensures
      var (n, reply) := Claimed(s, m, f, o, w);
      var saved := o.Appended? || o.Compacted?;
      && (!Claimable(s.journal, m) ==> reply == Reply.Returned(false) && n == s)
      && (Claimable(s.journal, m) ==>
            && n.journal.mem == AfterClaim(s.journal, m, o).mem && n.journal.disk == AfterClaim(s.journal, m, o).disk
            && (reply == Reply.Returned(true) <==> saved && Staged(s.inbox, m, f, w).1)
            && reply != Reply.Returned(false)
            && n.inbox == (if saved then Staged(s.inbox, m, f, w).0 else s.inbox)
            && (m.key in n.journal.claimed <==> reply == Reply.Returned(true)))
  {
  }

  /** A message is cancelled by its receipt first, and its row goes only once that is saved. */
  lemma CancelMeans(s: World, key: Key, o: SaveOutcome, w: FileWrite)
    requires Abandonable(s.journal, key)
    ensures
      var n := Cancelled(s, key, o, w);
      var saved := o.Appended? || o.Compacted?;
      && n.journal.mem == (if saved then s.journal.mem[key := s.journal.mem[key].(phase := Handled)] else s.journal.mem)
      && n.inbox == (if saved then AfterRemove(s.inbox, key, w) else s.inbox)
  {
  }

  /** A row that is removed is gone from memory and from the file; if that cannot be saved
      it comes back as the last row. */
  lemma RemoveMeans(x: Inbox, key: Key, w: FileWrite) returns (i: nat)
    requires Has(x.rows, key)
    ensures i < |x.rows| && x.rows[i].message.key == key && (forall k :: 0 <= k < i ==> x.rows[k].message.key != key)
    ensures
      var y, rest := AfterRemove(x, key, w), x.rows[..i] + x.rows[i + 1..];
      && y.rows == (if w.Committed? then rest else rest + [x.rows[i].(stamp := x.clock)])
      && y.disk == (if w.LostBeforeRename? then x.disk else rest)
  {
    i := Find(x.rows, key);
    assert x.rows[i].Key() == x.rows[i].message.key;
    forall k | 0 <= k < i ensures x.rows[k].message.key != key { assert x.rows[k].Key() == x.rows[k].message.key; }
  }

  lemma PutMeans(rows: seq<Row>, row: Row)
    requires Has(rows, row.Key())
    ensures Has(Put(rows, row), row.Key()) && At(Put(rows, row), row.Key()) == row
    ensures OthersStay(rows, Put(rows, row), row.Key())
  {
    FindAfterPut(rows, row);
  }

  lemma StaysTwice(a: seq<Row>, b: seq<Row>, c: seq<Row>, key: Key)
    requires OthersStay(a, b, key) && OthersStay(b, c, key)
    ensures OthersStay(a, c, key)
  {
  }

  /** The sender is told once for a state: the mark is saved before the notice. */
  lemma InformMeans(x: Inbox, key: Key, w: FileWrite)
    requires Has(x.rows, key)
    ensures
      var (y, waits) := Informed(x, key, w);
      var row := At(x.rows, key);
      && Has(y.rows, key) && At(y.rows, key) == row.(noticed := row.noticed + {row.state})
      && OthersStay(x.rows, y.rows, key)
      && (waits <==> row.state !in row.noticed && w.Committed?) && (waits ==> y.disk == y.rows)
      && (row.state in row.noticed ==> y == x)
  {
    var row := At(x.rows, key);
    PutMeans(x.rows, row.(noticed := row.noticed + {row.state}));
    assert row.state in row.noticed ==> row.noticed + {row.state} == row.noticed;
  }

  /** A changed row is saved, and then the sender is told about its state. */
  lemma ParkMeans(x: Inbox, row: Row, w: FileWrite, w': FileWrite)
    requires Has(x.rows, row.Key())
    ensures
      var (y, waits) := Parked(x, row, w, w');
      && Has(y.rows, row.Key()) && OthersStay(x.rows, y.rows, row.Key())
      && At(y.rows, row.Key()) == (if w.Committed? then row.(noticed := row.noticed + {row.state}) else row)
      && (waits <==> w.Committed? && row.state !in row.noticed && w'.Committed?)
      && (w.Committed? && (w'.Committed? || row.state in row.noticed) ==> y.disk == y.rows)
  {
    var changed := Saved(x.(rows := Put(x.rows, row)), w);
    PutMeans(x.rows, row);
    FindAfterPut(x.rows, row);
    if w.Returned() {
      InformMeans(changed, row.Key(), w');
      StaysTwice(x.rows, changed.rows, Informed(changed, row.Key(), w').0.rows, row.Key());
    }
  }

  /** What a delivery that does not dispatch leaves of the row: doubtful when its receipt
      is, held when a replay or a changed target needs a decision, and otherwise due
      again later; the sender is told about its state once. */
  lemma WaitMeans(s: World, key: Key, turn: Turn, e: Weather)
    requires Has(s.inbox.rows, key) && !turn.Housekeep? && !turn.Dispatch?
    ensures
      var (s', stop) := Turned(s, key, turn, e);
      var row := At(s.inbox.rows, key);
      && s'.journal == s.journal && !stop.Flying?
      && Has(s'.inbox.rows, key) && OthersStay(s.inbox.rows, s'.inbox.rows, key)
      && var now := At(s'.inbox.rows, key);
         && now.message == row.message && now.body == row.body && now.target == row.target
         && now.attempts == row.attempts && now.stamp == row.stamp && now.automatic == row.automatic
         && now.ordersInput == row.ordersInput
         && now.state == (match turn
                          case Unconfirmable => Unsure
                          case HoldReplay => Held
                          case HoldTarget => Held
                          case _ => row.state)
         && now.nextAt == (if turn.WaitLane? || turn.WaitGateway? then e.now + e.delay else row.nextAt)
         && (!turn.Idle? && e.w.Committed? ==> now.noticed == row.noticed + {now.state})
         && (turn.Idle? ==> s' == s && stop.Settled?)
         && (stop.Noticing? <==> !turn.Idle? && e.w.Committed? && now.state !in row.noticed && e.w'.Committed?)
         && (stop.Noticing? ==> s'.inbox.disk == s'.inbox.rows)
  {
    if !turn.Idle? { ParkMeans(s.inbox, Restated(At(s.inbox.rows, key), turn, e), e.w, e.w'); }
  }

  /** The receipt of `key` is finished, or not touched yet. */
  predicate FinishedAt(s: World, key: Key) {
    key in s.journal.mem && (s.journal.mem[key].phase.Accepted? || s.journal.mem[key].phase.Handled?)
  }

  predicate UntouchedAt(s: World, key: Key) { key in s.journal.mem ==> s.journal.mem[key].phase.Received? }

  /** A failed dispatch of an automatic message that was surely not submitted: it is due
      again later, and the sender is told once. */
  lemma FailPostpones(s: World, key: Key, f: Failure, e: Weather, w: FileWrite, w': FileWrite)
    requires Has(s.inbox.rows, key) && UntouchedAt(s, key) && At(s.inbox.rows, key).automatic
    requires f.Deferred? || f.RunAdmission? || f == Communication(NotSubmitted)
    ensures
      var ((s', stop), row) := (AfterFailure(s, key, f, e, w, w'), At(s.inbox.rows, key));
      && s'.journal == s.journal && Has(s'.inbox.rows, key) && OthersStay(s.inbox.rows, s'.inbox.rows, key)
      && At(s'.inbox.rows, key) == row.(nextAt := e.now + e.delay,
                                        noticed := if w.Committed? then row.noticed + {row.state} else row.noticed)
      && (stop.Noticing? <==> w.Committed? && row.state !in row.noticed && w'.Committed?) && !stop.Flying?
  {
    ParkMeans(s.inbox, At(s.inbox.rows, key).(nextAt := e.now + e.delay), w, w');
  }

  /** Any other failed dispatch: a message that is finished after all is removed, one whose
      receipt is untouched is held, and any other is doubtful. */
  lemma FailMeans(s: World, key: Key, f: Failure, e: Weather, w: FileWrite, w': FileWrite)
    requires Has(s.inbox.rows, key)
    requires !UntouchedAt(s, key) || !At(s.inbox.rows, key).automatic
      || !(f.Deferred? || f.RunAdmission? || f == Communication(NotSubmitted))
    ensures
      var ((s', stop), row) := (AfterFailure(s, key, f, e, w, w'), At(s.inbox.rows, key));
      && s'.journal == s.journal && stop.Settled?
      && (FinishedAt(s, key) ==> s'.inbox == AfterRemove(s.inbox, key, w))
      && (!FinishedAt(s, key) ==>
            && Has(s'.inbox.rows, key) && OthersStay(s.inbox.rows, s'.inbox.rows, key)
            && At(s'.inbox.rows, key) == row.(state := if UntouchedAt(s, key) then Held else Unsure)
            && (w.Committed? ==> s'.inbox.disk == s'.inbox.rows))
  {
    PutMeans(s.inbox.rows, At(s.inbox.rows, key).(state := if UntouchedAt(s, key) then Held else Unsure));
  }

  /** A dispatch counts its attempt on file before `handle` is entered; only then can it be
      under way. */
  lemma LaunchMeans(s: World, key: Key, e: Weather)
    requires Has(s.inbox.rows, key)
    ensures
      var (s', stop) := Launched(s, key, e);
      var row := At(s.inbox.rows, key);
      var entered := EnterHandle(s.journal, row.message, e.claim);
      && (stop.Flying? <==> e.w.Committed? && !e.deferred && entered.0.Running?)
      && (stop.Flying? || !e.w.Committed? ==>
            && Has(s'.inbox.rows, key) && OthersStay(s.inbox.rows, s'.inbox.rows, key)
            && At(s'.inbox.rows, key) == row.(attempts := row.attempts + 1))
      && (stop.Flying? ==> s'.inbox.disk == s'.inbox.rows && s'.journal == entered.1)
      && (!e.w.Committed? ==> s'.journal == s.journal && stop.Settled?)
  {
    var row := At(s.inbox.rows, key);
    PutMeans(s.inbox.rows, row.(attempts := row.attempts + 1));
    FindAfterPut(s.inbox.rows, row.(attempts := row.attempts + 1));
  }

  /** What becomes of a message that was handed over: a channel that is switching defers it; an
      action that starts is under way; a refusal is a failure of another kind; and one that
      had nothing to do counts as dispatched. */
  lemma HandMeans(s: World, key: Key, e: Weather)
    requires Has(s.inbox.rows, key)
    ensures
      var (n, stop) := Handed(s, key, e);
      var (entered, j) := EnterHandle(s.journal, At(s.inbox.rows, key).message, e.claim);
      && (e.deferred ==> (n, stop) == AfterFailure(s, key, Deferred, e, e.w', e.w''))
      && (!e.deferred && entered.Running? ==> n == s.(journal := j) && stop.Flying?)
      && (!e.deferred && entered.Refused? ==>
            (n, stop) == AfterFailure(s.(journal := j), key, Other, e, e.w', e.w''))
      && (!e.deferred && entered.Skipped? && e.w'.Committed? ==>
            n.journal == j && n.inbox == AfterRemove(s.inbox, key, e.w') && stop.Settled?)
  {
  }

  /** A dispatch that returned removes the row; one that threw, or a removal that could not
      be saved, is a failure; without a row there is nothing to do. */
  lemma LandMeans(s: World, key: Key, failed: Option<Failure>, e: Weather)
    ensures
      var (s', stop) := Landed(s, key, failed, e);
      && (!Has(s.inbox.rows, key) ==> s' == s && stop.Settled?)
      && (Has(s.inbox.rows, key) && failed.Some? ==> (s', stop) == AfterFailure(s, key, failed.value, e, e.w, e.w'))
      && (Has(s.inbox.rows, key) && failed.None? && e.w.Committed? ==>
            s' == s.(inbox := AfterRemove(s.inbox, key, e.w)) && stop.Settled?)
      && (Has(s.inbox.rows, key) && failed.None? && !e.w.Committed? ==>
            var back := s.(inbox := AfterRemove(s.inbox, key, e.w));
            Has(back.inbox.rows, key) && (s', stop) == AfterFailure(back, key, Other, e, e.w', LostBeforeRename))
  {
    if Has(s.inbox.rows, key) && !e.w.Returned() { RemovedComesBack(s.inbox, key, e.w); }
  }

  /** Exactly who may retry or cancel a message: its sender or a controller, in its own
      conversation, while it is idle and its receipt untouched; and only an automatic
      message can be retried, at the target the caller was shown. */
  lemma ControlIff(s: World, key: Key, c: Caller, expected: Target, current: Option<Target>)
    ensures
      var mem := s.journal.mem;
      var controls := Has(s.inbox.rows, key) && key !in s.inbox.busy && key in mem && mem[key].phase.Received?
        && At(s.inbox.rows, key).message.Conversation() == c.conversationId
        && (c.controller || At(s.inbox.rows, key).message.senderId == c.actorId);
      && (Controllable(s, key, c) <==> controls)
      && (Retryable(s, key, c, expected, current) <==>
            controls && At(s.inbox.rows, key).automatic && current.Some? && current.value == expected)
  {
  }

  /** A retry that was saved aims its row at the approved target, due now and as if the
      sender had not been told yet; it touches no other row. */
  lemma RetryMeans(s: World, key: Key, current: Target, now: int, w: FileWrite)
    requires Has(s.inbox.rows, key)
    ensures
      var (s', row) := (Retried(s, key, current, now, w), At(s.inbox.rows, key));
      && s'.journal == s.journal && Has(s'.inbox.rows, key) && OthersStay(s.inbox.rows, s'.inbox.rows, key)
      && (w.Committed? ==>
            && At(s'.inbox.rows, key)
               == row.(target := Some(current), state := Pending, nextAt := now, noticed := {})
            && s'.inbox.disk == s'.inbox.rows)
      && (w.LostBeforeRename? ==> s'.inbox.disk == s.inbox.disk)
      && (!w.Committed? ==>
            At(s'.inbox.rows, key) == row.(
              target := if key in s.inbox.bare && row.target.None? then Some(current) else row.target))
  {
    var row := At(s.inbox.rows, key);
    PutMeans(s.inbox.rows, row.(target := Some(current), state := Pending, nextAt := now, noticed := {}));
    PutMeans(s.inbox.rows, Restored(s.inbox, row, current));
  }

  /** Exactly when an acceptance has created the first thread of a target: the target had
      none, the current one differs in its thread and generation only, and the receipt
      names the current thread, session and host. */
  lemma FirstThreadIff(r: Receipt, previous: Option<Target>, current: Option<Target>)
    ensures FirstThread(r, previous, current) <==>
      && previous.Some? && current.Some?
      && (previous.value.threadId.None? || previous.value.threadId.value == "")
      && previous.value.sessionId == current.value.sessionId && previous.value.hostId == current.value.hostId
      && previous.value.place == current.value.place
      && r.threadId == current.value.threadId && r.sessionId == Some(current.value.sessionId)
      && current.value.hostId == match r.hostId
                                 case None => "local"
                                 case Some(host) => host
  {
  }

  /** What the inbox does with an acceptance that names a thread and a turn or a queued
      submission: rows that wait with the very target of the accepted one follow it to its
      first thread, on file, and then the accepted row is removed; anything less than an
      exact acceptance does nothing. */
  lemma AcceptanceMeans(x: Inbox, key: Key, r: Receipt, current: Option<Target>, w: FileWrite, w': FileWrite)
    ensures
      var exact := r.threadId.Some? && r.threadId.value != ""
        && ((r.turnId.Some? && r.turnId.value != "")
            || (r.queuedSubmissionId.Some? && r.queuedSubmissionId.value != ""));
      var y := AfterAccepted(x, key, r, current, w, w');
      && (!exact || !Has(x.rows, key) ==> y == x)
      && (exact && Has(x.rows, key) && !FirstThread(r, At(x.rows, key).target, current) ==>
            y == AfterRemove(x, key, w'))
      && (exact && Has(x.rows, key) && FirstThread(r, At(x.rows, key).target, current) ==>
            var aimed := seq(|x.rows|, i requires 0 <= i < |x.rows| =>
              if x.rows[i].state.Pending? && x.rows[i].target == At(x.rows, key).target
              then x.rows[i].(target := current) else x.rows[i]);
            var saved := x.(rows := aimed, disk := if w.LostBeforeRename? then x.disk else aimed);
            y == if w.Committed? then AfterRemove(saved, key, w') else saved)
  {
    if Has(x.rows, key) {
      var previous := At(x.rows, key).target;
      assert Reaim(x.rows, previous, current) == seq(|x.rows|, i requires 0 <= i < |x.rows| =>
        if x.rows[i].state.Pending? && x.rows[i].target == previous
        then x.rows[i].(target := current) else x.rows[i]);
    }
  }
}
