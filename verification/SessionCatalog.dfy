/** `orderSessionCatalog` and `sessionCatalogItems`: one comparator with many keys,
    then a separate regrouping pass that must agree with it.

    Names and labels are presentation and left out, so a row's group is the pair
    its JSON id is made of.  `Array.sort` is any sorted permutation. */
module SessionCatalog {
  import opened Common

  datatype GroupId = GroupId(hostId: string, projectId: string)

  /** JSON text and date parsing. */
  datatype Env = Env(json: GroupId -> string, seconds: string -> real)
  {
    ghost predicate Lawful() { forall a, b: GroupId :: json(a) == json(b) ==> a == b }
  }

  /** `project` is the first of the row's project ids that is not empty. */
  datatype Row = Row(
    hostId: string, threadId: string, project: Option<string>,
    pinned: Option<int>, manual: Option<int>, recency: Option<real>, updatedAt: Option<string>)
  {
    function Group(): Option<GroupId> {
      if project.Some? then Some(GroupId(hostId, project.value)) else None
    }
  }

  /** An empty project id is a legacy hint and names no folder. */
  datatype Candidate = Candidate(hostId: Option<string>, projectId: Option<string>, available: Option<bool>)
  {
    function Id(): Option<GroupId> {
      if Truthy(projectId) then Some(GroupId(OrElse(hostId, "local"), projectId.value)) else None
    }
  }

  type Catalog = seq<Candidate>

  const MAX_SAFE_INTEGER := 9007199254740991

  // ---------------------------------------------------------------- comparing

  /** JavaScript's `x || y` on numbers. */
  function Or(x: real, y: real): real { if x != 0.0 then x else y }

  /** `compareId`: texts by code unit. */
  function CompareId(a: string, b: string): (c: real)
    ensures c == 0.0 <==> a == b
  {
    if a == b then 0.0
    else if a == [] then -1.0
    else if b == [] then 1.0
    else if a[0] != b[0] then (if a[0] < b[0] then -1.0 else 1.0)
    else
      assert a == [a[0]] + a[1..] && b == [b[0]] + b[1..];
      CompareId(a[1..], b[1..])
  }

  /** `catalogOrder`: a later entry replaces an earlier one of the same id. */
  function CatalogIndex(catalog: Catalog, g: GroupId): (i: Option<nat>)
    ensures i.Some? ==> i.value < |catalog| && catalog[i.value].Id() == Some(g)
    ensures i.Some? ==> forall k :: i.value < k < |catalog| ==> catalog[k].Id() != Some(g)
    ensures i.None? ==> forall k :: 0 <= k < |catalog| ==> catalog[k].Id() != Some(g)
  {
    if catalog == [] then None
    else if catalog[|catalog| - 1].Id() == Some(g) then Some(|catalog| - 1)
    else CatalogIndex(catalog[..|catalog| - 1], g)
  }

  function Missing(i: Option<int>): real { (if i.Some? then i.value else MAX_SAFE_INTEGER) as real }

  function Position(catalog: Catalog, g: GroupId): real {
    var i := CatalogIndex(catalog, g);
    (if i.Some? then i.value else MAX_SAFE_INTEGER) as real
  }

  function Recency(env: Env, row: Row): real {
    if row.recency.Some? then row.recency.value else env.seconds(OrElse(row.updatedAt, ""))
  }

  /** The comparator. */
  function Compare(env: Env, catalog: Catalog, a: Row, b: Row): real {
    if a.pinned.Some? || b.pinned.Some? then
      Or(Missing(a.pinned) - Missing(b.pinned), Or(CompareId(a.hostId, b.hostId), CompareId(a.threadId, b.threadId)))
    else
      var rank := (if a.project.Some? then 0.0 else 1.0) - (if b.project.Some? then 0.0 else 1.0);
      if rank != 0.0 then rank
      else if a.project.Some? && b.project.Some? && a.Group() != b.Group() then
        Or(Position(catalog, a.Group().value) - Position(catalog, b.Group().value),
           CompareId(env.json(a.Group().value), env.json(b.Group().value)))
      else
        var manual := if a.manual.Some? || b.manual.Some? then Missing(a.manual) - Missing(b.manual) else 0.0;
        if manual != 0.0 then manual
        else
          Or(Recency(env, b) - Recency(env, a), Or(CompareId(OrElse(b.updatedAt, ""), OrElse(a.updatedAt, "")),
            Or(CompareId(a.hostId, b.hostId), CompareId(a.threadId, b.threadId))))
  }

  // ---------------------------------------------------------------- what comes first

  /** The texts agree up to `n`, where `a` ends first or has the smaller code unit. */
  predicate Precedes(a: string, b: string, n: nat) {
    && n <= |a| && n < |b| && (forall k :: 0 <= k < n ==> a[k] == b[k]) && (n < |a| ==> a[n] < b[n])
  }

  /** Texts compare at their first difference, a prefix before its extension. */
  lemma {:induction false} CompareIdMeans(a: string, b: string)
    ensures CompareId(a, b) < 0.0 <==> exists n: nat :: Precedes(a, b, n)
  {
    if a != [] && b != [] && a[0] == b[0] {
      CompareIdMeans(a[1..], b[1..]);
      if n: nat :| Precedes(a[1..], b[1..], n) { assert Precedes(a, b, n + 1); }
      if n: nat :| Precedes(a, b, n) { assert Precedes(a[1..], b[1..], n - 1); }
    } else if b != [] {
      assert Precedes(a, b, 0) <==> a == [] || a[0] < b[0];
    }
  }

  /** The catalog entry is this folder's: a missing host is the local one. */
  predicate Lists(c: Candidate, g: GroupId) {
    && c.projectId == Some(g.projectId) && g.projectId != ""
    && g.hostId == match c.hostId
                   case None => "local"
                   case Some(host) => host
  }

  /** A folder stands where the catalog names it last, and behind all others if nowhere. */
  lemma PositionMeans(catalog: Catalog, g: GroupId)
    ensures
      || (exists i :: 0 <= i < |catalog| && Lists(catalog[i], g) && Position(catalog, g) == i as real
            && forall k :: i < k < |catalog| ==> !Lists(catalog[k], g))
      || (Position(catalog, g) == 9007199254740991.0 && forall k :: 0 <= k < |catalog| ==> !Lists(catalog[k], g))
  {
    assert forall c: Candidate :: Lists(c, g) <==> c.Id() == Some(g);
  }

  /** Pinned rows come first, by their pins, and equal pins by host and thread. */
  lemma PinnedFirst(env: Env, catalog: Catalog, a: Row, b: Row)
    requires a.pinned.Some? && a.pinned.value < MAX_SAFE_INTEGER
    ensures b.pinned.None? ==> Compare(env, catalog, a, b) < 0.0
    ensures b.pinned.Some? && a.pinned.value < b.pinned.value ==> Compare(env, catalog, a, b) < 0.0
    ensures b.pinned == a.pinned && a.hostId != b.hostId ==>
      Compare(env, catalog, a, b) == CompareId(a.hostId, b.hostId)
    ensures b.pinned == a.pinned && a.hostId == b.hostId ==>
      Compare(env, catalog, a, b) == CompareId(a.threadId, b.threadId)
  {
  }

  /** Of rows that are not pinned, those in a folder come before the others, and folders
      as the catalog lists them, then by the text of their ids. */
  lemma FoldersFirst(env: Env, catalog: Catalog, a: Row, b: Row)
    requires a.pinned.None? && b.pinned.None? && a.project.Some?
    ensures b.project.None? ==> Compare(env, catalog, a, b) < 0.0
    ensures b.project.Some? && (a.hostId != b.hostId || a.project != b.project) ==>
      var (g, h) := (GroupId(a.hostId, a.project.value), GroupId(b.hostId, b.project.value));
      && (Position(catalog, g) < Position(catalog, h) ==> Compare(env, catalog, a, b) < 0.0)
      && (Position(catalog, g) == Position(catalog, h) ==>
            Compare(env, catalog, a, b) == CompareId(env.json(g), env.json(h)))
  {
  }

  /** Within a folder, and among rows without one: by the manual order, rows that have no
      place in it last; then the more recent first, by the recency the App reports and
      only without one by the time of the last update; then by the text of that time,
      host and thread. */
  lemma WithinFolder(env: Env, catalog: Catalog, a: Row, b: Row)
    requires a.pinned.None? && b.pinned.None? && a.project == b.project && (a.project.Some? ==> a.hostId == b.hostId)
    ensures
      var c := Compare(env, catalog, a, b);
      var updated := (if a.updatedAt.Some? then a.updatedAt.value else "",
                      if b.updatedAt.Some? then b.updatedAt.value else "");
      var recency := (if a.recency.Some? then a.recency.value else env.seconds(updated.0),
                      if b.recency.Some? then b.recency.value else env.seconds(updated.1));
      var manual := (if a.manual.Some? then a.manual.value else 9007199254740991,
                     if b.manual.Some? then b.manual.value else 9007199254740991);
      && (manual.0 < manual.1 ==> c < 0.0)
      && (manual.0 == manual.1 && recency.0 > recency.1 ==> c < 0.0)
      && (manual.0 == manual.1 && recency.0 == recency.1 ==>
            if updated.0 != updated.1 then c == CompareId(updated.1, updated.0)
            else if a.hostId != b.hostId then c == CompareId(a.hostId, b.hostId)
            else c == CompareId(a.threadId, b.threadId))
  {
  }

  /** What the comparator needs to be an order: no pin equal to the sentinel that
      stands for "not pinned". */
  predicate Indexed(row: Row) { row.pinned != Some(MAX_SAFE_INTEGER) }

  // ---------------------------------------------------------------- the reference order

  /** A row as a tuple of keys, most significant first. */
  datatype Keys = Keys(
    pin: real, rank: real, position: real, group: string, manual: real, age: real, updated: string,
    host: string, thread: string)

  function KeysOf(env: Env, catalog: Catalog, row: Row): Keys {
    if row.pinned.Some? then
      Keys(Missing(row.pinned), 0.0, 0.0, "", 0.0, 0.0, "", row.hostId, row.threadId)
    else
      Keys(Missing(None), if row.project.Some? then 0.0 else 1.0,
           if row.project.Some? then Position(catalog, row.Group().value) else 0.0,
           if row.project.Some? then env.json(row.Group().value) else "",
           Missing(row.manual), -Recency(env, row), OrElse(row.updatedAt, ""), row.hostId, row.threadId)
  }

  /** Lexicographic comparison of keys; only `updated` descends. */
  function Tail(a: Keys, b: Keys): real {
    Or(a.manual - b.manual, Or(a.age - b.age, Or(CompareId(b.updated, a.updated),
      Or(CompareId(a.host, b.host), CompareId(a.thread, b.thread)))))
  }

  function Lexicographic(a: Keys, b: Keys): real {
    Or(a.pin - b.pin, Or(a.rank - b.rank, Or(a.position - b.position, Or(CompareId(a.group, b.group), Tail(a, b)))))
  }

  /** The branching comparator is the lexicographic order on the keys. */
  lemma CompareIsLexicographic(env: Env, catalog: Catalog, a: Row, b: Row)
    requires env.Lawful() && Indexed(a) && Indexed(b)
    ensures Compare(env, catalog, a, b) == Lexicographic(KeysOf(env, catalog, a), KeysOf(env, catalog, b))
  {
  }

  /** The signs of a~b, b~c and a~c fit together. */
  predicate Fits(ab: real, bc: real, ac: real) {
    ab <= 0.0 && bc <= 0.0 ==> ac <= 0.0 && (ac == 0.0 <==> ab == 0.0 && bc == 0.0)
  }

  lemma OrFits(ab: real, bc: real, ac: real, ab': real, bc': real, ac': real)
    requires Fits(ab, bc, ac) && Fits(ab', bc', ac')
    ensures Fits(Or(ab, ab'), Or(bc, bc'), Or(ac, ac'))
  {
  }

  lemma {:induction false} IdsFit(a: string, b: string, c: string)
    ensures Fits(CompareId(a, b), CompareId(b, c), CompareId(a, c))
    ensures CompareId(a, b) < 0.0 <==> CompareId(b, a) > 0.0
    decreases |a| + |b| + |c|
  {
    if a != [] && b != [] {
      IdsFit(a[1..], b[1..], if c == [] then [] else c[1..]);
    }
  }

  lemma TailFits(a: Keys, b: Keys, c: Keys)
    ensures Fits(Tail(a, b), Tail(b, c), Tail(a, c))
    ensures Tail(a, b) < 0.0 <==> Tail(b, a) > 0.0
  {
    IdsFit(a.thread, b.thread, c.thread);
    IdsFit(a.host, b.host, c.host);
    IdsFit(c.updated, b.updated, a.updated);
    IdsFit(b.updated, a.updated, a.updated);
    var x1, x2, x3 := CompareId(a.host, b.host), CompareId(b.host, c.host), CompareId(a.host, c.host);
    var t1, t2, t3 := CompareId(a.thread, b.thread), CompareId(b.thread, c.thread), CompareId(a.thread, c.thread);
    OrFits(x1, x2, x3, t1, t2, t3);
    var u1, u2, u3 := CompareId(b.updated, a.updated), CompareId(c.updated, b.updated), CompareId(c.updated, a.updated);
    assert Fits(u1, u2, u3);
    OrFits(u1, u2, u3, Or(x1, t1), Or(x2, t2), Or(x3, t3));
    OrFits(a.age - b.age, b.age - c.age, a.age - c.age,
           Or(u1, Or(x1, t1)), Or(u2, Or(x2, t2)), Or(u3, Or(x3, t3)));
  }

  lemma LexicographicFits(a: Keys, b: Keys, c: Keys)
    ensures Fits(Lexicographic(a, b), Lexicographic(b, c), Lexicographic(a, c))
    ensures Lexicographic(a, b) < 0.0 <==> Lexicographic(b, a) > 0.0
    ensures Lexicographic(a, b) == 0.0 ==> a.host == b.host && a.thread == b.thread
  {
    TailFits(a, b, c);
    IdsFit(a.group, b.group, c.group);
    var g1, g2, g3 := CompareId(a.group, b.group), CompareId(b.group, c.group), CompareId(a.group, c.group);
    OrFits(g1, g2, g3, Tail(a, b), Tail(b, c), Tail(a, c));
    OrFits(a.position - b.position, b.position - c.position, a.position - c.position,
           Or(g1, Tail(a, b)), Or(g2, Tail(b, c)), Or(g3, Tail(a, c)));
  }

  /** The comparator is a strict total order on rows with distinct host and thread. */
  lemma CompareIsStrictTotalOrder(env: Env, catalog: Catalog, a: Row, b: Row, c: Row)
    requires env.Lawful() && Indexed(a) && Indexed(b) && Indexed(c)
    ensures Compare(env, catalog, a, b) < 0.0 <==> Compare(env, catalog, b, a) > 0.0
    ensures Compare(env, catalog, a, b) == 0.0 ==> a.hostId == b.hostId && a.threadId == b.threadId
    ensures a == b ==> Compare(env, catalog, a, b) == 0.0
    ensures Compare(env, catalog, a, b) < 0.0 && Compare(env, catalog, b, c) < 0.0 ==> Compare(env, catalog, a, c) < 0.0
  {
    CompareIsLexicographic(env, catalog, a, b);
    CompareIsLexicographic(env, catalog, b, a);
    CompareIsLexicographic(env, catalog, b, c);
    CompareIsLexicographic(env, catalog, a, c);
    LexicographicFits(KeysOf(env, catalog, a), KeysOf(env, catalog, b), KeysOf(env, catalog, c));
  }

  /** Every pin equal to the sentinel is caught in a circle with two rows that are not
      pinned, unless both its ids are empty, so that nothing is smaller. */
  lemma SentinelPinBreaksTheOrder(env: Env, catalog: Catalog, pin: Row)
    requires pin.pinned == Some(MAX_SAFE_INTEGER) && (pin.hostId != "" || pin.threadId != "")
    ensures var older := Row("", "", None, None, None, Some(1.0), None);
      var newer := Row(pin.hostId + "a", "", None, None, None, Some(2.0), None);
      && Compare(env, catalog, older, pin) < 0.0 && Compare(env, catalog, pin, newer) < 0.0
      && Compare(env, catalog, newer, older) < 0.0
  {
    PrefixFirst(pin.hostId, "a");
  }

  lemma {:induction false} PrefixFirst(text: string, more: string)
    requires more != ""
    ensures CompareId(text, text + more) < 0.0
  {
    if text != "" {
      assert (text + more)[1..] == text[1..] + more;
      PrefixFirst(text[1..], more);
    }
  }
}
