/** The sorted catalog and its regrouped view agree. */
module SessionView {
  import opened Common
  import opened SessionCatalog

  // ---------------------------------------------------------------- sorting

  predicate Distinct(rows: seq<Row>) {
    forall i, j :: 0 <= i < j < |rows| ==> rows[i].hostId != rows[j].hostId || rows[i].threadId != rows[j].threadId
  }

  predicate AllIndexed(rows: seq<Row>) { forall row :: row in rows ==> Indexed(row) }

  ghost predicate SortedBy(less: (Row, Row) -> bool, s: seq<Row>) {
    forall i, j :: 0 <= i < j < |s| ==> less(s[i], s[j])
  }

  /** `less` orders the members of `s`, all different, strictly and totally. */
  ghost predicate OrdersStrictly(less: (Row, Row) -> bool, s: seq<Row>) {
    && (forall i, j :: 0 <= i < j < |s| ==> less(s[i], s[j]) || less(s[j], s[i]))
    && (forall a, b :: a in s && b in s && less(a, b) ==> !less(b, a))
    && (forall a, b, c :: a in s && b in s && c in s && less(a, b) && less(b, c) ==> less(a, c))
  }

  lemma Members(a: seq<Row>, b: seq<Row>)
    requires multiset(a) == multiset(b)
    ensures |a| == |b| && forall x :: x in a <==> x in b
  {
    assert |multiset(a)| == |a| && |multiset(b)| == |b|;
    forall x ensures x in a <==> x in b {
      assert x in a <==> x in multiset(a);
      assert x in b <==> x in multiset(b);
    }
  }

  lemma HeadsAgree(less: (Row, Row) -> bool, a: seq<Row>, b: seq<Row>)
    requires a != [] && b != [] && a[0] in b && b[0] in a && SortedBy(less, a) && SortedBy(less, b)
    requires !(less(a[0], b[0]) && less(b[0], a[0]))
    ensures a[0] == b[0]
  {
  }

  lemma TailsPermute(a: seq<Row>, b: seq<Row>)
    requires a != [] && b != [] && a[0] == b[0] && multiset(a) == multiset(b)
    ensures multiset(a[1..]) == multiset(b[1..])
  {
    assert a == [a[0]] + a[1..] && b == [b[0]] + b[1..];
    assert multiset(a[1..]) == multiset(a) - multiset{a[0]};
  }

  lemma {:induction false} SortedByIsUnique(less: (Row, Row) -> bool, a: seq<Row>, b: seq<Row>)
    requires forall x, y :: x in a && y in a && less(x, y) ==> !less(y, x)
    requires multiset(a) == multiset(b) && SortedBy(less, a) && SortedBy(less, b)
    ensures a == b
  {
    Members(a, b);
    if a != [] {
      assert a[0] in b && b[0] in a;
      HeadsAgree(less, a, b);
      TailsPermute(a, b);
      SortedByIsUnique(less, a[1..], b[1..]);
      assert a == [a[0]] + a[1..] && b == [b[0]] + b[1..];
    }
  }

  function Insert(less: (Row, Row) -> bool, x: Row, s: seq<Row>): seq<Row> {
    if s == [] || less(x, s[0]) then [x] + s else [s[0]] + Insert(less, x, s[1..])
  }

  /** One concrete sort, to show that a sorted permutation always exists. */
  function SortBy(less: (Row, Row) -> bool, s: seq<Row>): seq<Row> {
    if s == [] then [] else Insert(less, s[0], SortBy(less, s[1..]))
  }

  lemma {:induction false} InsertPermutes(less: (Row, Row) -> bool, x: Row, s: seq<Row>)
    ensures multiset(Insert(less, x, s)) == multiset([x] + s)
  {
    if s != [] {
      assert s == [s[0]] + s[1..];
      InsertPermutes(less, x, s[1..]);
    }
  }

  lemma {:induction false} InsertSorts(less: (Row, Row) -> bool, x: Row, s: seq<Row>)
    requires SortedBy(less, s) && forall y :: y in s ==> less(x, y) || less(y, x)
    requires forall a, b :: a in s && b in s && less(x, a) && less(a, b) ==> less(x, b)
    ensures SortedBy(less, Insert(less, x, s))
  {
    if s != [] {
      if less(x, s[0]) {
        assert forall i :: 0 < i < |s| ==> less(x, s[0]) && less(s[0], s[i]);
      } else {
        var rest, tail := s[1..], Insert(less, x, s[1..]);
        InsertSorts(less, x, rest);
        InsertPermutes(less, x, rest);
        Members(tail, [x] + rest);
        forall y | y in tail ensures less(s[0], y) {
          assert y in [x] + rest;
        }
      }
    }
  }

  lemma {:induction false} SortBySorts(less: (Row, Row) -> bool, s: seq<Row>)
    requires OrdersStrictly(less, s)
    ensures multiset(SortBy(less, s)) == multiset(s) && SortedBy(less, SortBy(less, s))
  {
    if s != [] {
      var rest := s[1..];
      assert s == [s[0]] + rest;
      SortBySorts(less, rest);
      Members(SortBy(less, rest), rest);
      forall y | y in rest ensures less(s[0], y) || less(y, s[0]) {
        var j :| 0 <= j < |rest| && rest[j] == y;
        assert s[j + 1] == y;
      }
      InsertSorts(less, s[0], SortBy(less, rest));
      InsertPermutes(less, s[0], SortBy(less, rest));
    }
  }

  // ---------------------------------------------------------------- the catalog sorted

  function Earlier(env: Env, catalog: Catalog): (Row, Row) -> bool {
    (a: Row, b: Row) => Compare(env, catalog, a, b) < 0.0
  }

  /** `orderSessionCatalog`. */
  function Sort(env: Env, catalog: Catalog, rows: seq<Row>): seq<Row> { SortBy(Earlier(env, catalog), rows) }

  lemma CompareOrdersStrictly(env: Env, catalog: Catalog, rows: seq<Row>)
    requires env.Lawful() && AllIndexed(rows) && Distinct(rows)
    ensures OrdersStrictly(Earlier(env, catalog), rows)
  {
    var less := Earlier(env, catalog);
    forall i, j | 0 <= i < j < |rows| ensures less(rows[i], rows[j]) || less(rows[j], rows[i]) {
      CompareIsStrictTotalOrder(env, catalog, rows[i], rows[j], rows[j]);
    }
    forall a, b | a in rows && b in rows && less(a, b) ensures !less(b, a) {
      CompareIsStrictTotalOrder(env, catalog, a, b, b);
    }
    forall a, b, c | a in rows && b in rows && c in rows && less(a, b) && less(b, c) ensures less(a, c) {
      CompareIsStrictTotalOrder(env, catalog, a, b, c);
    }
  }

  /** Whatever order the rows arrive in and however they are sorted, the result is
      the same sequence. */
  lemma OrderIsCanonical(env: Env, catalog: Catalog, rows: seq<Row>, shuffled: seq<Row>, r: seq<Row>)
    requires env.Lawful() && AllIndexed(rows) && Distinct(rows)
    requires multiset(shuffled) == multiset(rows)
    requires multiset(r) == multiset(shuffled) && SortedBy(Earlier(env, catalog), r)
    ensures r == Sort(env, catalog, rows) && SortedBy(Earlier(env, catalog), Sort(env, catalog, rows))
  {
    CompareOrdersStrictly(env, catalog, rows);
    SortBySorts(Earlier(env, catalog), rows);
    Members(rows, r);
    SortedByIsUnique(Earlier(env, catalog), r, Sort(env, catalog, rows));
  }

  // ---------------------------------------------------------------- the view

  datatype Section = Pinned | Project | Other

  datatype Notice = Incomplete(text: string) | Unavailable | ShownPinned | NoSessions

  datatype Item =
    | Session(row: Row, number: nat, section: Section)
    | Folder(group: GroupId, notice: Notice)

  datatype Options = Options(includeEmpty: bool, incompleteHosts: map<string, string>)

  function SectionOf(row: Row): Section {
    if row.pinned.Some? then Pinned else if row.project.Some? then Project else Other
  }

  /** Numbers come from the ordered snapshot. */
  function Sessions(rows: seq<Row>): seq<Item> {
    seq(|rows|, i requires 0 <= i < |rows| => Session(rows[i], i + 1, SectionOf(rows[i])))
  }

  function CatalogIds(catalog: Catalog): seq<Option<GroupId>> {
    seq(|catalog|, i requires 0 <= i < |catalog| => catalog[i].Id())
  }

  function RowIds(rows: seq<Row>, pinned: bool): seq<Option<GroupId>> {
    seq(|rows|, i requires 0 <= i < |rows| => if rows[i].pinned.Some? == pinned then rows[i].Group() else None)
  }

  function Inserted(order: seq<GroupId>, id: Option<GroupId>): seq<GroupId> {
    if id.Some? && id.value !in order then order + [id.value] else order
  }

  /** Insert new ids into a map that keeps insertion order. */
  function AddAll(order: seq<GroupId>, ids: seq<Option<GroupId>>): seq<GroupId>
    decreases |ids|
  {
    if ids == [] then order
    else AddAll(Inserted(order, ids[0]), ids[1..])
  }

  /** The folders that unpinned rows and, if asked for, the catalog put in order. */
  function OpenGroups(rows: seq<Row>, catalog: Catalog, includeEmpty: bool): seq<GroupId> {
    AddAll(if includeEmpty then AddAll([], CatalogIds(catalog)) else [], RowIds(rows, false))
  }

  function GroupOrder(rows: seq<Row>, catalog: Catalog, includeEmpty: bool): seq<GroupId> {
    AddAll(OpenGroups(rows, catalog, includeEmpty), RowIds(rows, true))
  }

  /** A choice of sessions: the pinned ones, those in some folders, the others. */
  datatype Want = Want(pinned: bool, groups: set<GroupId>, others: bool)
  {
    predicate Takes(item: Item) {
      item.Session? &&
        match item.section
        case Pinned => pinned
        case Project => item.row.project.Some? && item.row.Group().value in groups
        case Other => others
    }
  }

  function Only(items: seq<Item>, w: Want): seq<Item> {
    if items == [] then []
    else (if w.Takes(items[0]) then [items[0]] else []) + Only(items[1..], w)
  }

  function NoticeFor(sessions: seq<Item>, catalog: Catalog, o: Options, g: GroupId): Notice {
    if g.hostId in o.incompleteHosts then Incomplete(o.incompleteHosts[g.hostId])
    else if (exists i :: 0 <= i < |catalog| && catalog[i].Id() == Some(g) && FirstIs(catalog, i, g)
                         && catalog[i].available == Some(false)) then Unavailable
    else if (exists i :: 0 <= i < |sessions| && sessions[i].Session? && sessions[i].row.Group() == Some(g))
    then ShownPinned
    else NoSessions
  }

  predicate FirstIs(catalog: Catalog, i: nat, g: GroupId)
    requires i < |catalog|
  {
    forall k :: 0 <= k < i ==> catalog[k].Id() != Some(g)
  }

  function InFolder(sessions: seq<Item>, catalog: Catalog, o: Options, g: GroupId): seq<Item> {
    var children := Only(sessions, Want(false, {g}, false));
    if children != [] then children
    else if o.includeEmpty then [Folder(g, NoticeFor(sessions, catalog, o, g))]
    else []
  }

  function InFolders(sessions: seq<Item>, catalog: Catalog, o: Options, order: seq<GroupId>): seq<Item> {
    if order == [] then []
    else InFolder(sessions, catalog, o, order[0]) + InFolders(sessions, catalog, o, order[1..])
  }

  /** `sessionCatalogItems`. */
  function Items(rows: seq<Row>, catalog: Catalog, o: Options): seq<Item> {
    var sessions := Sessions(rows);
    Only(sessions, Want(true, {}, false))
      + InFolders(sessions, catalog, o, GroupOrder(rows, catalog, o.includeEmpty))
      + Only(sessions, Want(false, {}, true))
  }

  /** The sessions a reader sees, empty folders skipped. */
  function Shown(items: seq<Item>): seq<Item> {
    if items == [] then []
    else (if items[0].Session? then [items[0]] else []) + Shown(items[1..])
  }

  // ---------------------------------------------------------------- choices

  function Join(v: Want, w: Want): Want {
    Want(v.pinned || w.pinned, v.groups + w.groups, v.others || w.others)
  }

  predicate Disjoint(v: Want, w: Want) {
    !(v.pinned && w.pinned) && v.groups !! w.groups && !(v.others && w.others)
  }

  /** Nothing that `w` takes comes before something that `v` takes. */
  ghost predicate Precedes(items: seq<Item>, v: Want, w: Want) {
    forall i, j :: 0 <= i < j < |items| ==> !(w.Takes(items[i]) && v.Takes(items[j]))
  }

  lemma {:induction false} OnlyNone(items: seq<Item>, w: Want)
    requires forall item :: item in items ==> !w.Takes(item)
    ensures Only(items, w) == []
  {
    if items != [] { OnlyNone(items[1..], w); }
  }

  lemma {:induction false} OnlyAll(items: seq<Item>, w: Want)
    requires forall item :: item in items ==> w.Takes(item)
    ensures Only(items, w) == items
  {
    if items != [] { OnlyAll(items[1..], w); }
  }

  lemma TakesJoin(v: Want, w: Want, item: Item)
    requires Disjoint(v, w)
    ensures Join(v, w).Takes(item) <==> v.Takes(item) || w.Takes(item)
    ensures !(v.Takes(item) && w.Takes(item))
  {
  }

  lemma {:induction false} OnlyMerges(items: seq<Item>, v: Want, w: Want)
    requires Disjoint(v, w)
    ensures multiset(Only(items, v)) + multiset(Only(items, w)) == multiset(Only(items, Join(v, w)))
  {
    if items != [] {
      OnlyMerges(items[1..], v, w);
      TakesJoin(v, w, items[0]);
    }
  }

  lemma {:induction false} OnlyConcat(items: seq<Item>, v: Want, w: Want)
    requires Disjoint(v, w) && Precedes(items, v, w)
    ensures Only(items, v) + Only(items, w) == Only(items, Join(v, w))
  {
    if items != [] {
      OnlyConcat(items[1..], v, w);
      TakesJoin(v, w, items[0]);
      if w.Takes(items[0]) {
        OnlyNone(items[1..], v);
      }
    }
  }

  lemma {:induction false} ShownOnly(items: seq<Item>, w: Want)
    ensures Shown(Only(items, w)) == Only(items, w)
  {
    if items != [] {
      ShownOnly(items[1..], w);
      ShownConcat(if w.Takes(items[0]) then [items[0]] else [], Only(items[1..], w));
    }
  }

  lemma {:induction false} ShownConcat(a: seq<Item>, b: seq<Item>)
    ensures Shown(a + b) == Shown(a) + Shown(b)
  {
    if a == [] {
      assert a + b == b;
    } else {
      assert (a + b)[1..] == a[1..] + b && (a + b)[0] == a[0];
      ShownConcat(a[1..], b);
      Associates(if a[0].Session? then [a[0]] else [], Shown(a[1..]), Shown(b));
    }
  }

  lemma Associates(a: seq<Item>, b: seq<Item>, c: seq<Item>)
    ensures (a + b) + c == a + (b + c)
  {
  }

  function SetOf(order: seq<GroupId>): set<GroupId> { set g | g in order }

  predicate NoRepeats(order: seq<GroupId>) { forall i, j :: 0 <= i < j < |order| ==> order[i] != order[j] }

  /** The folders, in the order of their first sessions. */
  ghost predicate FoldersInOrder(sessions: seq<Item>, order: seq<GroupId>) {
    forall i, j :: 0 <= i < j < |order| ==>
      Precedes(sessions, Want(false, {order[i]}, false), Want(false, {order[j]}, false))
  }

  lemma FolderShows(sessions: seq<Item>, catalog: Catalog, o: Options, order: seq<GroupId>)
    requires order != []
    ensures Shown(InFolders(sessions, catalog, o, order))
         == Only(sessions, Want(false, {order[0]}, false)) + Shown(InFolders(sessions, catalog, o, order[1..]))
  {
    ShownConcat(InFolder(sessions, catalog, o, order[0]), InFolders(sessions, catalog, o, order[1..]));
    ShownOnly(sessions, Want(false, {order[0]}, false));
  }

  lemma JoinFirst(order: seq<GroupId>)
    requires order != [] && NoRepeats(order)
    ensures var first, rest := Want(false, {order[0]}, false), Want(false, SetOf(order[1..]), false);
      Disjoint(first, rest) && Join(first, rest) == Want(false, SetOf(order), false)
  {
    assert order == [order[0]] + order[1..];
    assert SetOf(order) == {order[0]} + SetOf(order[1..]);
  }

  lemma {:induction false} FoldersKeep(sessions: seq<Item>, catalog: Catalog, o: Options, order: seq<GroupId>)
    requires NoRepeats(order)
    ensures multiset(Shown(InFolders(sessions, catalog, o, order)))
      == multiset(Only(sessions, Want(false, SetOf(order), false)))
  {
    if order == [] {
      OnlyNone(sessions, Want(false, {}, false));
      assert SetOf([]) == {};
    } else {
      FoldersKeep(sessions, catalog, o, order[1..]);
      FolderShows(sessions, catalog, o, order);
      JoinFirst(order);
      OnlyMerges(sessions, Want(false, {order[0]}, false), Want(false, SetOf(order[1..]), false));
    }
  }

  lemma {:induction false} FoldersShow(sessions: seq<Item>, catalog: Catalog, o: Options, order: seq<GroupId>)
    requires NoRepeats(order) && FoldersInOrder(sessions, order)
    ensures Shown(InFolders(sessions, catalog, o, order)) == Only(sessions, Want(false, SetOf(order), false))
  {
    if order == [] {
      OnlyNone(sessions, Want(false, {}, false));
      assert SetOf([]) == {};
    } else {
      var first, rest := Want(false, {order[0]}, false), Want(false, SetOf(order[1..]), false);
      FoldersShow(sessions, catalog, o, order[1..]);
      FolderShows(sessions, catalog, o, order);
      JoinFirst(order);
      forall i, j | 0 <= i < j < |sessions| ensures !(rest.Takes(sessions[i]) && first.Takes(sessions[j])) {
        if rest.Takes(sessions[i]) {
          var k :| 0 < k < |order| && order[k] == sessions[i].row.Group().value;
          assert Precedes(sessions, Want(false, {order[0]}, false), Want(false, {order[k]}, false));
          assert Want(false, {order[k]}, false).Takes(sessions[i]);
        }
      }
      OnlyConcat(sessions, first, rest);
    }
  }

  // ---------------------------------------------------------------- the order of the folders

  function First(ids: seq<Option<GroupId>>, g: GroupId): (i: nat)
    ensures i <= |ids| && (i < |ids| <==> Some(g) in ids)
    ensures i < |ids| ==> ids[i] == Some(g)
    ensures forall k :: 0 <= k < i ==> ids[k] != Some(g)
  {
    if ids == [] || ids[0] == Some(g) then 0 else 1 + First(ids[1..], g)
  }

  /** A map keeps insertion order: what was there stays first, and the rest is new. */
  lemma {:induction false} AddAllKeeps(order: seq<GroupId>, ids: seq<Option<GroupId>>)
    requires NoRepeats(order)
    ensures NoRepeats(AddAll(order, ids)) && order <= AddAll(order, ids)
    ensures forall g :: g in AddAll(order, ids) <==> g in order || Some(g) in ids
    decreases |ids|
  {
    if ids != [] {
      assert ids == [ids[0]] + ids[1..];
      AddAllKeeps(Inserted(order, ids[0]), ids[1..]);
    }
  }

  lemma Newcomer(order: seq<GroupId>, ids: seq<Option<GroupId>>, k: nat)
    requires NoRepeats(order) && |order| <= k < |AddAll(order, ids)|
    ensures AddAll(order, ids)[k] !in order
  {
    AddAllKeeps(order, ids);
    var r := AddAll(order, ids);
    assert r[..|order|] == order;
    forall i | 0 <= i < |order| ensures order[i] != r[k] { assert r[i] == order[i]; }
  }

  /** New ids come in the order of their first occurrence. */
  lemma {:induction false} AddAllOrder(order: seq<GroupId>, ids: seq<Option<GroupId>>, a: nat, b: nat)
    requires NoRepeats(order) && |order| <= a < b < |AddAll(order, ids)|
    ensures First(ids, AddAll(order, ids)[a]) < First(ids, AddAll(order, ids)[b])
    decreases |ids|
  {
    if ids != [] {
      var next, rest, r := Inserted(order, ids[0]), ids[1..], AddAll(order, ids);
      Newcomer(next, rest, b);
      NotTheHead(order, ids[0], r[b]);
      if a >= |next| {
        AddAllOrder(next, rest, a, b);
        Newcomer(next, rest, a);
        NotTheHead(order, ids[0], r[a]);
      } else {
        AddAllKeeps(next, rest);
        assert r[..|next|][a] == next[a] == ids[0].value;
      }
    }
  }

  lemma NotTheHead(order: seq<GroupId>, id: Option<GroupId>, g: GroupId)
    requires g !in Inserted(order, id)
    ensures id != Some(g)
  {
  }

  predicate NoDuplicates(catalog: Catalog) {
    forall i, j :: 0 <= i < j < |catalog| && catalog[i].Id().Some? ==> catalog[i].Id() != catalog[j].Id()
  }

  lemma FirstIsIndex(catalog: Catalog, g: GroupId)
    requires NoDuplicates(catalog)
    ensures CatalogIndex(catalog, g).Some? <==> Some(g) in CatalogIds(catalog)
    ensures CatalogIndex(catalog, g).Some? ==> First(CatalogIds(catalog), g) == CatalogIndex(catalog, g).value
  {
    var ids, at := CatalogIds(catalog), CatalogIndex(catalog, g);
    if at.Some? {
      assert ids[at.value] == Some(g);
      assert catalog[First(ids, g)].Id() == Some(g);
    } else {
      assert forall k :: 0 <= k < |ids| ==> ids[k] == catalog[k].Id();
    }
  }

  /** The part of the comparator that tells folders apart. */
  function CompareGroups(env: Env, catalog: Catalog, g: GroupId, h: GroupId): real {
    Or(Position(catalog, g) - Position(catalog, h), CompareId(env.json(g), env.json(h)))
  }

  lemma GroupsAsymmetric(env: Env, catalog: Catalog, g: GroupId, h: GroupId)
    ensures !(CompareGroups(env, catalog, g, h) < 0.0 && CompareGroups(env, catalog, h, g) < 0.0)
  {
    IdsFit(env.json(g), env.json(h), env.json(g));
  }

  predicate Child(row: Row, g: GroupId) { row.pinned.None? && row.Group() == Some(g) }

  lemma ChildrenCompare(env: Env, catalog: Catalog, x: Row, y: Row, g: GroupId, h: GroupId)
    requires Child(x, g) && Child(y, h) && g != h && Earlier(env, catalog)(x, y)
    ensures CompareGroups(env, catalog, g, h) < 0.0
  {
  }

  lemma OrderPosition(order: seq<GroupId>, head: seq<GroupId>, g: GroupId, at: int)
    requires NoRepeats(order) && head <= order && g in head && 0 <= at < |order| && order[at] == g
    ensures at < |head| && head[at] == g
  {
    var k :| 0 <= k < |head| && head[k] == g;
    assert order[k] == g;
  }

  predicate Populated(rows: seq<Row>, g: GroupId) { exists i :: 0 <= i < |rows| && Child(rows[i], g) }

  /** If the view's catalog names `g` at all, it names `h` before. */
  predicate ListedBefore(shown: Catalog, h: GroupId, g: GroupId) {
    Some(g) in CatalogIds(shown) ==> First(CatalogIds(shown), h) < First(CatalogIds(shown), g)
  }

  /** For folders with unpinned sessions, the catalog that is shown lists first what
      the catalog that was sorted by puts first. */
  ghost predicate Agree(env: Env, catalog: Catalog, shown: Catalog, rows: seq<Row>) {
    forall h, g :: Populated(rows, h) && Populated(rows, g) && CompareGroups(env, catalog, h, g) < 0.0 ==>
      ListedBefore(shown, h, g)
  }

  /** The unpinned children of a folder are among the ids, and its first one is one. */
  lemma FirstChild(rows: seq<Row>, g: GroupId, q: nat)
    requires q < |rows| && Child(rows[q], g)
    ensures var k := First(RowIds(rows, false), g); k <= q && Child(rows[k], g) && Some(g) in RowIds(rows, false)
  {
    assert RowIds(rows, false)[q] == Some(g);
  }

  /** Of two folders with sorted children, the first child decides. */
  lemma FirstChildren(env: Env, catalog: Catalog, rows: seq<Row>, p: nat, q: nat, h: GroupId, g: GroupId)
    requires SortedBy(Earlier(env, catalog), rows)
    requires p < q < |rows| && h != g && Child(rows[p], h) && Child(rows[q], g)
    ensures CompareGroups(env, catalog, h, g) < 0.0
    ensures First(RowIds(rows, false), h) < First(RowIds(rows, false), g)
  {
    FirstChild(rows, h, p);
    FirstChild(rows, g, q);
    var k := First(RowIds(rows, false), g);
    ChildrenCompare(env, catalog, rows[p], rows[q], h, g);
    if k < p {
      ChildrenCompare(env, catalog, rows[k], rows[p], g, h);
      GroupsAsymmetric(env, catalog, g, h);
    }
  }

  /** Folders that only the rows name are listed as their first rows are sorted. */
  lemma RowFoldersFollow(rows: seq<Row>, base: seq<GroupId>, h: GroupId, g: GroupId, a: nat, b: nat)
    requires NoRepeats(base) && h !in base && g !in base
    requires First(RowIds(rows, false), h) < First(RowIds(rows, false), g)
    requires var open := AddAll(base, RowIds(rows, false)); a < |open| && b < |open| && open[a] == h && open[b] == g
    ensures a < b
  {
    var ids, open := RowIds(rows, false), AddAll(base, RowIds(rows, false));
    AddAllKeeps(base, ids);
    Beyond(base, open, a);
    Beyond(base, open, b);
    if b < a { AddAllOrder(base, ids, b, a); }
  }

  lemma Beyond(base: seq<GroupId>, open: seq<GroupId>, k: nat)
    requires base <= open && k < |open| && open[k] !in base
    ensures k >= |base|
  {
    assert open[..|base|] == base;
    assert forall i :: 0 <= i < |base| ==> open[i] in base;
  }

  /** Folders that the catalog names are listed as it first lists them. */
  lemma CatalogFoldersFollow(shown: Catalog, h: GroupId, g: GroupId, a: nat, b: nat)
    requires First(CatalogIds(shown), h) < First(CatalogIds(shown), g)
    requires var base := AddAll([], CatalogIds(shown)); a < |base| && b < |base| && base[a] == h && base[b] == g
    ensures a < b
  {
    if b < a { AddAllOrder([], CatalogIds(shown), b, a); }
  }

  /** The places of two folders with children, among the catalog's folders or after. */
  lemma PlaceOf(rows: seq<Row>, shown: Catalog, includeEmpty: bool, g: GroupId, at: nat)
    requires Some(g) in RowIds(rows, false)
    requires var order := GroupOrder(rows, shown, includeEmpty); at < |order| && order[at] == g
    ensures var base := if includeEmpty then AddAll([], CatalogIds(shown)) else [];
      var open := OpenGroups(rows, shown, includeEmpty);
      && NoRepeats(base) && NoRepeats(open) && base <= open && open == AddAll(base, RowIds(rows, false))
      && at < |open| && open[at] == g
      && (g in base <==> includeEmpty && Some(g) in CatalogIds(shown))
      && (g in base ==> at < |base| && base[at] == g) && (g !in base ==> at >= |base|)
  {
    var base := if includeEmpty then AddAll([], CatalogIds(shown)) else [];
    var open := OpenGroups(rows, shown, includeEmpty);
    AddAllKeeps([], CatalogIds(shown));
    AddAllKeeps(base, RowIds(rows, false));
    AddAllKeeps(open, RowIds(rows, true));
    OrderPosition(GroupOrder(rows, shown, includeEmpty), open, g, at);
    if g in base { OrderPosition(open, base, g, at); } else { Beyond(base, open, at); }
  }

  /** If a child of `h` is sorted before a child of `g`, the folder `h` is listed
      before the folder `g`, provided the catalogs agree. */
  lemma FoldersFollowRows(env: Env, catalog: Catalog, shown: Catalog, rows: seq<Row>, includeEmpty: bool,
                          p: nat, q: nat, h: GroupId, g: GroupId, a: nat, b: nat)
    requires SortedBy(Earlier(env, catalog), rows) && (includeEmpty ==> Agree(env, catalog, shown, rows))
    requires p < q < |rows| && h != g && Child(rows[p], h) && Child(rows[q], g)
    requires var order := GroupOrder(rows, shown, includeEmpty);
      a < |order| && b < |order| && order[a] == h && order[b] == g
    ensures a < b
  {
    FirstChildren(env, catalog, rows, p, q, h, g);
    FirstChild(rows, h, p);
    FirstChild(rows, g, q);
    PlaceOf(rows, shown, includeEmpty, h, a);
    PlaceOf(rows, shown, includeEmpty, g, b);
    var base := if includeEmpty then AddAll([], CatalogIds(shown)) else [];
    if g in base {
      assert Populated(rows, h) && Populated(rows, g);
      assert ListedBefore(shown, h, g);
      CatalogFoldersFollow(shown, h, g, a, b);
    } else if h !in base {
      RowFoldersFollow(rows, base, h, g, a, b);
    }
  }

  /** A catalog that lists `g` and not `h` before it puts the folder `g` before `h`. */
  lemma UnlistedFollows(rows: seq<Row>, shown: Catalog, h: GroupId, g: GroupId, a: nat, b: nat)
    requires Some(h) in RowIds(rows, false) && Some(g) in RowIds(rows, false) && h != g && !ListedBefore(shown, h, g)
    requires var order := GroupOrder(rows, shown, true); a < |order| && b < |order| && order[a] == h && order[b] == g
    ensures b < a
  {
    PlaceOf(rows, shown, true, h, a);
    PlaceOf(rows, shown, true, g, b);
    if Some(h) in CatalogIds(shown) {
      assert First(CatalogIds(shown), g) != First(CatalogIds(shown), h);
      CatalogFoldersFollow(shown, g, h, b, a);
    }
  }

  // ---------------------------------------------------------------- main results

  lemma GroupOrderCovers(rows: seq<Row>, catalog: Catalog, includeEmpty: bool)
    ensures NoRepeats(GroupOrder(rows, catalog, includeEmpty))
    ensures forall row :: row in rows && row.project.Some? ==>
      row.Group().value in GroupOrder(rows, catalog, includeEmpty)
  {
    AddAllKeeps([], CatalogIds(catalog));
    AddAllKeeps(if includeEmpty then AddAll([], CatalogIds(catalog)) else [], RowIds(rows, false));
    AddAllKeeps(OpenGroups(rows, catalog, includeEmpty), RowIds(rows, true));
    forall row | row in rows && row.project.Some? ensures row.Group().value in GroupOrder(rows, catalog, includeEmpty) {
      var i :| 0 <= i < |rows| && rows[i] == row;
      assert RowIds(rows, row.pinned.Some?)[i] == row.Group();
    }
  }

  /** All choices together take every session. */
  lemma EverySessionWanted(rows: seq<Row>, order: seq<GroupId>)
    requires forall row :: row in rows && row.project.Some? ==> row.Group().value in order
    ensures Only(Sessions(rows), Want(true, SetOf(order), true)) == Sessions(rows)
  {
    OnlyAll(Sessions(rows), Want(true, SetOf(order), true));
  }

  /** Whatever the rows and the catalog: the view shows every session exactly once,
      with the number of its place in the ordered snapshot. */
  lemma ViewKeepsEverySession(rows: seq<Row>, catalog: Catalog, o: Options)
    ensures multiset(Shown(Items(rows, catalog, o))) == multiset(Sessions(rows))
  {
    var sessions, order := Sessions(rows), GroupOrder(rows, catalog, o.includeEmpty);
    var pinned, folders, others := Want(true, {}, false), Want(false, SetOf(order), false), Want(false, {}, true);
    GroupOrderCovers(rows, catalog, o.includeEmpty);
    ShowItems(rows, catalog, o);
    FoldersKeep(sessions, catalog, o, order);
    OnlyMerges(sessions, pinned, folders);
    OnlyMerges(sessions, Want(true, SetOf(order), false), others);
    assert Join(pinned, folders) == Want(true, SetOf(order), false);
    assert Join(Want(true, SetOf(order), false), others) == Want(true, SetOf(order), true);
    EverySessionWanted(rows, order);
  }

  lemma ShowItems(rows: seq<Row>, catalog: Catalog, o: Options)
    ensures var sessions := Sessions(rows);
      Shown(Items(rows, catalog, o))
        == Only(sessions, Want(true, {}, false))
         + Shown(InFolders(sessions, catalog, o, GroupOrder(rows, catalog, o.includeEmpty)))
         + Only(sessions, Want(false, {}, true))
  {
    var sessions := Sessions(rows);
    var a, c := Only(sessions, Want(true, {}, false)), Only(sessions, Want(false, {}, true));
    var b := InFolders(sessions, catalog, o, GroupOrder(rows, catalog, o.includeEmpty));
    ShownConcat(a + b, c);
    ShownConcat(a, b);
    ShownOnly(sessions, Want(true, {}, false));
    ShownOnly(sessions, Want(false, {}, true));
  }

  /** If any row is not pinned, the pins are below the value that stands for that. */
  predicate PinsBelow(rows: seq<Row>) {
    forall a, b :: a in rows && b in rows && a.pinned.None? && b.pinned.Some? ==> b.pinned.value < MAX_SAFE_INTEGER
  }

  /** Sections follow one another in the sorted catalog. */
  lemma SectionsInOrder(env: Env, catalog: Catalog, rows: seq<Row>, p: nat, q: nat)
    requires SortedBy(Earlier(env, catalog), rows) && PinsBelow(rows) && p < q < |rows|
    ensures SectionOf(rows[q]).Pinned? ==> SectionOf(rows[p]).Pinned?
    ensures SectionOf(rows[p]).Other? ==> SectionOf(rows[q]).Other?
  {
    assert Earlier(env, catalog)(rows[p], rows[q]);
    assert rows[p] in rows && rows[q] in rows;
  }

  lemma SortedFoldersInOrder(env: Env, catalog: Catalog, shown: Catalog, rows: seq<Row>, includeEmpty: bool)
    requires SortedBy(Earlier(env, catalog), rows) && (includeEmpty ==> Agree(env, catalog, shown, rows))
    ensures FoldersInOrder(Sessions(rows), GroupOrder(rows, shown, includeEmpty))
  {
    var sessions, order := Sessions(rows), GroupOrder(rows, shown, includeEmpty);
    GroupOrderCovers(rows, shown, includeEmpty);
    forall i, j, p, q | 0 <= i < j < |order| && 0 <= p < q < |sessions|
      ensures !(Want(false, {order[j]}, false).Takes(sessions[p]) && Want(false, {order[i]}, false).Takes(sessions[q]))
    {
      if Want(false, {order[j]}, false).Takes(sessions[p]) && Want(false, {order[i]}, false).Takes(sessions[q]) {
        FoldersFollowRows(env, catalog, shown, rows, includeEmpty, p, q, order[j], order[i], j, i);
        assert false;
      }
    }
  }

  lemma AgreeingShowsInOrder(env: Env, catalog: Catalog, shown: Catalog, rows: seq<Row>, o: Options)
    requires SortedBy(Earlier(env, catalog), rows) && PinsBelow(rows)
    requires o.includeEmpty ==> Agree(env, catalog, shown, rows)
    ensures Shown(Items(rows, shown, o)) == Sessions(rows)
  {
    var sessions, order := Sessions(rows), GroupOrder(rows, shown, o.includeEmpty);
    var pinned, folders, others := Want(true, {}, false), Want(false, SetOf(order), false), Want(false, {}, true);
    GroupOrderCovers(rows, shown, o.includeEmpty);
    ShowItems(rows, shown, o);
    SortedFoldersInOrder(env, catalog, shown, rows, o.includeEmpty);
    FoldersShow(sessions, shown, o, order);
    forall p, q | 0 <= p < q < |sessions|
      ensures !(folders.Takes(sessions[p]) && pinned.Takes(sessions[q]))
      ensures !(others.Takes(sessions[p]) && Join(pinned, folders).Takes(sessions[q]))
    {
      SectionsInOrder(env, catalog, rows, p, q);
    }
    OnlyConcat(sessions, pinned, folders);
    OnlyConcat(sessions, Join(pinned, folders), others);
    assert Join(Join(pinned, folders), others) == Want(true, SetOf(order), true);
    EverySessionWanted(rows, order);
  }

  lemma {:induction false} OnlyHas(items: seq<Item>, w: Want, item: Item)
    requires item in items && w.Takes(item)
    ensures item in Only(items, w)
  {
    if item != items[0] { OnlyHas(items[1..], w, item); }
  }

  lemma InEither(a: seq<Item>, b: seq<Item>, item: Item)
    requires item in a || item in b
    ensures item in a + b
  {
  }

  lemma {:induction false} FolderHas(sessions: seq<Item>, catalog: Catalog, o: Options, order: seq<GroupId>, a: nat,
                                     item: Item)
    requires a < |order| && item in sessions && Want(false, {order[a]}, false).Takes(item)
    ensures item in Shown(InFolders(sessions, catalog, o, order))
  {
    if a == 0 {
      OnlyHas(sessions, Want(false, {order[0]}, false), item);
    } else {
      assert order[1..][a - 1] == order[a];
      FolderHas(sessions, catalog, o, order[1..], a - 1, item);
    }
    FolderEither(sessions, catalog, o, order, item);
  }

  lemma FolderEither(sessions: seq<Item>, catalog: Catalog, o: Options, order: seq<GroupId>, item: Item)
    requires order != []
    requires item in Only(sessions, Want(false, {order[0]}, false))
      || item in Shown(InFolders(sessions, catalog, o, order[1..]))
    ensures item in Shown(InFolders(sessions, catalog, o, order))
  {
    FolderShows(sessions, catalog, o, order);
    InEither(Only(sessions, Want(false, {order[0]}, false)), Shown(InFolders(sessions, catalog, o, order[1..])), item);
  }

  /** `x` stands before `y` in `items`. */
  ghost predicate StandsBefore(items: seq<Item>, x: Item, y: Item) {
    exists i, j :: 0 <= i < j < |items| && items[i] == x && items[j] == y
  }

  lemma BeforeAcross(a: seq<Item>, b: seq<Item>, x: Item, y: Item)
    requires x in a && y in b
    ensures StandsBefore(a + b, x, y)
  {
    var i :| 0 <= i < |a| && a[i] == x;
    var j :| 0 <= j < |b| && b[j] == y;
    assert (a + b)[i] == x && (a + b)[|a| + j] == y;
  }

  lemma BeforeWithin(a: seq<Item>, b: seq<Item>, c: seq<Item>, x: Item, y: Item)
    requires StandsBefore(b, x, y)
    ensures StandsBefore(a + b, x, y) && StandsBefore(a + b + c, x, y)
  {
    var i, j :| 0 <= i < j < |b| && b[i] == x && b[j] == y;
    assert (a + b)[|a| + i] == x && (a + b)[|a| + j] == y;
    assert (a + b + c)[|a| + i] == x && (a + b + c)[|a| + j] == y;
  }

  /** Sessions of an earlier folder are shown earlier. */
  lemma {:induction false} EarlierFolderFirst(sessions: seq<Item>, catalog: Catalog, o: Options, order: seq<GroupId>,
                                              b: nat, a: nat, x: Item, y: Item)
    requires b < a < |order| && x in sessions && y in sessions
    requires Want(false, {order[b]}, false).Takes(x) && Want(false, {order[a]}, false).Takes(y)
    ensures StandsBefore(Shown(InFolders(sessions, catalog, o, order)), x, y)
  {
    assert order[1..][a - 1] == order[a];
    if b == 0 {
      OnlyHas(sessions, Want(false, {order[0]}, false), x);
      FolderHas(sessions, catalog, o, order[1..], a - 1, y);
    } else {
      assert order[1..][b - 1] == order[b];
      EarlierFolderFirst(sessions, catalog, o, order[1..], b - 1, a - 1, x, y);
    }
    FolderShows(sessions, catalog, o, order);
    BeforeJoin(Only(sessions, Want(false, {order[0]}, false)), Shown(InFolders(sessions, catalog, o, order[1..])),
      x, y);
  }

  lemma BeforeJoin(a: seq<Item>, b: seq<Item>, x: Item, y: Item)
    requires (x in a && y in b) || StandsBefore(b, x, y)
    ensures StandsBefore(a + b, x, y)
  {
    if StandsBefore(b, x, y) { BeforeWithin(a, b, [], x, y); } else { BeforeAcross(a, b, x, y); }
  }

  /** Numbers run upwards in the snapshot. */
  lemma NotBackwards(rows: seq<Row>, p: nat, q: nat)
    requires p < q < |rows|
    ensures !StandsBefore(Sessions(rows), Sessions(rows)[q], Sessions(rows)[p])
  {
    forall i, j | 0 <= i < j < |rows|
      ensures !(Sessions(rows)[i] == Sessions(rows)[q] && Sessions(rows)[j] == Sessions(rows)[p])
    {
      assert Sessions(rows)[i].number == i + 1 && Sessions(rows)[j].number == j + 1;
    }
  }

  lemma SortedChildren(env: Env, catalog: Catalog, rows: seq<Row>, h: GroupId, g: GroupId, p: nat, q: nat)
    requires SortedBy(Earlier(env, catalog), rows) && p < |rows| && q < |rows| && Child(rows[p], h) && Child(rows[q], g)
    requires CompareGroups(env, catalog, h, g) < 0.0
    ensures h != g && p < q
  {
    GroupsAsymmetric(env, catalog, h, g);
    if q < p { ChildrenCompare(env, catalog, rows[q], rows[p], g, h); }
  }

  /** A disagreeing pair of folders shows a later number before an earlier one. */
  lemma DisagreementShows(env: Env, catalog: Catalog, shown: Catalog, rows: seq<Row>, o: Options, h: GroupId,
                          g: GroupId, p: nat, q: nat)
    requires SortedBy(Earlier(env, catalog), rows) && o.includeEmpty
    requires p < |rows| && q < |rows| && Child(rows[p], h) && Child(rows[q], g)
    requires CompareGroups(env, catalog, h, g) < 0.0 && !ListedBefore(shown, h, g)
    ensures Shown(Items(rows, shown, o)) != Sessions(rows)
  {
    SortedChildren(env, catalog, rows, h, g, p, q);
    UnlistedShows(rows, shown, o, h, g, p, q);
    NotBackwards(rows, p, q);
  }

  lemma UnlistedShows(rows: seq<Row>, shown: Catalog, o: Options, h: GroupId, g: GroupId, p: nat, q: nat)
    requires o.includeEmpty && p < |rows| && q < |rows| && Child(rows[p], h) && Child(rows[q], g)
    requires h != g && !ListedBefore(shown, h, g)
    ensures StandsBefore(Shown(Items(rows, shown, o)), Sessions(rows)[q], Sessions(rows)[p])
  {
    var sessions, order := Sessions(rows), GroupOrder(rows, shown, true);
    GroupOrderCovers(rows, shown, true);
    FirstChild(rows, h, p);
    FirstChild(rows, g, q);
    assert rows[p] in rows && rows[q] in rows;
    var a: nat :| a < |order| && order[a] == h;
    var b: nat :| b < |order| && order[b] == g;
    UnlistedFollows(rows, shown, h, g, a, b);
    assert sessions[p] in sessions && sessions[q] in sessions;
    EarlierFolderFirst(sessions, shown, o, order, b, a, sessions[q], sessions[p]);
    ShowItems(rows, shown, o);
    BeforeWithin(Only(sessions, Want(true, {}, false)), Shown(InFolders(sessions, shown, o, order)),
                 Only(sessions, Want(false, {}, true)), sessions[q], sessions[p]);
  }

  lemma HighPinLast(env: Env, catalog: Catalog, high: Row, row: Row)
    requires high.pinned.Some? && high.pinned.value > MAX_SAFE_INTEGER && row.pinned.None?
    ensures !Earlier(env, catalog)(high, row)
  {
  }

  /** A pin above the sentinel is sorted last but shown first. */
  lemma HighPinShows(env: Env, catalog: Catalog, shown: Catalog, rows: seq<Row>, o: Options, p: nat, q: nat)
    requires SortedBy(Earlier(env, catalog), rows) && p < |rows| && q < |rows|
    requires rows[p].pinned.None? && rows[q].pinned.Some? && rows[q].pinned.value > MAX_SAFE_INTEGER
    ensures Shown(Items(rows, shown, o)) != Sessions(rows)
  {
    HighPinLast(env, catalog, rows[q], rows[p]);
    var sessions, order := Sessions(rows), GroupOrder(rows, shown, o.includeEmpty);
    var pinned, folders := Only(sessions, Want(true, {}, false)), Shown(InFolders(sessions, shown, o, order));
    var rest := folders + Only(sessions, Want(false, {}, true));
    assert sessions[p] in sessions && sessions[q] in sessions;
    OnlyHas(sessions, Want(true, {}, false), sessions[q]);
    UnpinnedShown(rows, shown, o, p);
    ShowItems(rows, shown, o);
    Associates(pinned, Shown(InFolders(sessions, shown, o, order)), Only(sessions, Want(false, {}, true)));
    BeforeAcross(pinned, rest, sessions[q], sessions[p]);
    NotBackwards(rows, p, q);
  }

  lemma UnpinnedShown(rows: seq<Row>, shown: Catalog, o: Options, p: nat)
    requires p < |rows| && rows[p].pinned.None?
    ensures var sessions, order := Sessions(rows), GroupOrder(rows, shown, o.includeEmpty);
      sessions[p] in Shown(InFolders(sessions, shown, o, order)) + Only(sessions, Want(false, {}, true))
  {
    var sessions, order := Sessions(rows), GroupOrder(rows, shown, o.includeEmpty);
    GroupOrderCovers(rows, shown, o.includeEmpty);
    assert sessions[p] in sessions && rows[p] in rows;
    if rows[p].project.Some? {
      var a: nat :| a < |order| && order[a] == rows[p].Group().value;
      FolderHas(sessions, shown, o, order, a, sessions[p]);
    } else {
      OnlyHas(sessions, Want(false, {}, true), sessions[p]);
    }
    InEither(Shown(InFolders(sessions, shown, o, order)), Only(sessions, Want(false, {}, true)), sessions[p]);
  }

  /** Exactly when the sort and the view agree: sorted rows appear in display order as
      1, 2, ..., n, each once, even with empty folders in between, if and only if pins
      are below the sentinel, and no empty folders are asked for or the catalog that is
      shown lists the folders with unpinned sessions as the sort placed them. */
  lemma DisplayOrderIsNumberOrder(env: Env, catalog: Catalog, shown: Catalog, rows: seq<Row>, o: Options)
    requires SortedBy(Earlier(env, catalog), rows) && AllIndexed(rows)
    ensures Shown(Items(rows, shown, o)) == Sessions(rows) <==>
      PinsBelow(rows) && (o.includeEmpty ==> Agree(env, catalog, shown, rows))
  {
    if !PinsBelow(rows) {
      HighPinFound(env, catalog, shown, rows, o);
    } else if !o.includeEmpty {
      AgreeingShowsInOrder(env, catalog, shown, rows, o);
    } else if Agree(env, catalog, shown, rows) {
      AgreeingShowsInOrder(env, catalog, shown, rows, o);
    } else {
      DisagreementFound(env, catalog, shown, rows, o);
    }
  }

  lemma HighPinFound(env: Env, catalog: Catalog, shown: Catalog, rows: seq<Row>, o: Options)
    requires SortedBy(Earlier(env, catalog), rows) && AllIndexed(rows) && !PinsBelow(rows)
    ensures Shown(Items(rows, shown, o)) != Sessions(rows)
  {
    var u, r :| u in rows && r in rows && u.pinned.None? && r.pinned.Some? && r.pinned.value >= MAX_SAFE_INTEGER;
    var p :| 0 <= p < |rows| && rows[p] == u;
    var q :| 0 <= q < |rows| && rows[q] == r;
    HighPinShows(env, catalog, shown, rows, o, p, q);
  }

  lemma DisagreementFound(env: Env, catalog: Catalog, shown: Catalog, rows: seq<Row>, o: Options)
    requires SortedBy(Earlier(env, catalog), rows) && o.includeEmpty && !Agree(env, catalog, shown, rows)
    ensures Shown(Items(rows, shown, o)) != Sessions(rows)
  {
    var h, g :| Populated(rows, h) && Populated(rows, g) && CompareGroups(env, catalog, h, g) < 0.0
      && !ListedBefore(shown, h, g);
    var p :| 0 <= p < |rows| && Child(rows[p], h);
    var q :| 0 <= q < |rows| && Child(rows[q], g);
    DisagreementShows(env, catalog, shown, rows, o, h, g, p, q);
  }

  lemma FirstTellsApart(ids: seq<Option<GroupId>>, h: GroupId, g: GroupId)
    ensures h != g && Some(g) in ids ==> First(ids, h) != First(ids, g)
  {
  }

  /** One catalog without duplicates, used for both, always agrees with itself. */
  lemma NoDuplicatesAgree(env: Env, catalog: Catalog, rows: seq<Row>)
    requires NoDuplicates(catalog) && |catalog| < MAX_SAFE_INTEGER
    ensures Agree(env, catalog, catalog, rows)
  {
    forall h, g | CompareGroups(env, catalog, h, g) < 0.0 ensures ListedBefore(catalog, h, g) {
      FirstIsIndex(catalog, h);
      FirstIsIndex(catalog, g);
      FirstTellsApart(CatalogIds(catalog), h, g);
    }
  }

  /** A catalog filtered to one project agrees if and only if no other folder with
      unpinned sessions is sorted before it. */
  lemma OneProjectAgrees(env: Env, catalog: Catalog, shown: Catalog, rows: seq<Row>, only: GroupId)
    requires forall i :: 0 <= i < |shown| ==> shown[i].Id() == Some(only)
    ensures Agree(env, catalog, shown, rows) <==>
      (shown != [] && Populated(rows, only) ==> forall h :: Populated(rows, h) ==>
        CompareGroups(env, catalog, h, only) >= 0.0)
  {
    var ids := CatalogIds(shown);
    assert forall g :: Some(g) in ids ==> g == only;
    if shown != [] {
      assert ids[0] == Some(only);
      assert forall h :: h != only ==> First(ids, h) == |ids|;
    }
    forall h | CompareGroups(env, catalog, h, only) < 0.0 ensures h != only { }
    if shown != [] && Populated(rows, only) {
      forall h | Populated(rows, h) && CompareGroups(env, catalog, h, only) < 0.0
        ensures !ListedBefore(shown, h, only)
      {
      }
    }
  }

  lemma DuplicateKeepsFirstPlace(rows: seq<Row>, a: Candidate, b: Candidate)
    requires a.Id().Some? && b.Id().Some? && a.Id() != b.Id()
    requires forall row :: row in rows && row.project.Some? ==> row.Group() == a.Id() || row.Group() == b.Id()
    ensures GroupOrder(rows, [a, b, a], true) == [a.Id().value, b.Id().value]
    ensures CatalogIndex([a, b, a], a.Id().value) == Some(2) && CatalogIndex([a, b, a], b.Id().value) == Some(1)
  {
    var ga, gb := a.Id().value, b.Id().value;
    assert [a, b, a][..2] == [a, b];
    assert CatalogIds([a, b, a]) == [Some(ga), Some(gb), Some(ga)];
    assert [Some(ga), Some(gb), Some(ga)][1..] == [Some(gb), Some(ga)] && [Some(gb), Some(ga)][1..] == [Some(ga)];
    assert [] + [ga] == [ga] && [ga] + [gb] == [ga, gb];
    assert AddAll([ga, gb], [Some(ga)]) == [ga, gb];
    assert AddAll([ga], [Some(gb), Some(ga)]) == AddAll([ga, gb], [Some(ga)]);
    AddNothing([ga, gb], RowIds(rows, false));
    AddNothing([ga, gb], RowIds(rows, true));
  }

  /** With a duplicate the sort uses the last place of a folder and the view its
      first, and the numbers on display no longer run upwards. */
  lemma DuplicateCatalogMisleads(env: Env)
    ensures var a, b := Candidate(None, Some("a"), None), Candidate(None, Some("b"), None);
      var first := Row("local", "1", Some("b"), None, None, Some(0.0), None);
      var rows, second := [first, first.(threadId := "2", project := Some("a"))],
        first.(threadId := "2", project := Some("a"));
      && SortedBy(Earlier(env, [a, b, a]), rows)
      && Shown(Items(rows, [a, b, a], Options(true, map[])))
         == [Session(second, 2, Project), Session(first, 1, Project)]
  {
    var a, b := Candidate(None, Some("a"), None), Candidate(None, Some("b"), None);
    var ga, gb := GroupId("local", "a"), GroupId("local", "b");
    var first := Row("local", "1", Some("b"), None, None, Some(0.0), None);
    var second := first.(threadId := "2", project := Some("a"));
    var catalog, rows, o := [a, b, a], [first, second], Options(true, map[]);
    DuplicateKeepsFirstPlace(rows, a, b);
    var s1, s2 := Session(first, 1, Project), Session(second, 2, Project);
    assert Sessions(rows) == [s1, s2];
    OnlyOfTwo(s1, s2, Want(false, {ga}, false));
    OnlyOfTwo(s1, s2, Want(false, {gb}, false));
    OnlyOfTwo(s1, s2, Want(true, {}, false));
    OnlyOfTwo(s1, s2, Want(false, {}, true));
    assert [ga, gb][1..] == [gb] && [gb][1..] == [];
    assert InFolders([s1, s2], catalog, o, [gb]) == [s1];
    assert Items(rows, catalog, o) == [s2] + [s1];
    ShownConcat([s2], [s1]);
  }

  lemma {:induction false} AddNothing(order: seq<GroupId>, ids: seq<Option<GroupId>>)
    requires forall id :: id in ids ==> id.None? || id.value in order
    ensures AddAll(order, ids) == order
    decreases |ids|
  {
    if ids != [] { AddNothing(order, ids[1..]); }
  }

  lemma OnlyOfTwo(a: Item, b: Item, w: Want)
    ensures Only([a, b], w) == (if w.Takes(a) then [a] else []) + (if w.Takes(b) then [b] else [])
  {
    assert [a, b][1..] == [b] && [b][1..] == [];
    assert Only([b], w) == if w.Takes(b) then [b] else [];
  }

  // ---------------------------------------------------------------- the loops

  /** Insert the ids one after the other. */
  method Collect(known: seq<GroupId>, ids: seq<Option<GroupId>>) returns (groups: seq<GroupId>)
    ensures groups == AddAll(known, ids)
  {
    groups := known;
    for i := 0 to |ids|
      invariant AddAll(groups, ids[i..]) == AddAll(known, ids)
    {
      assert ids[i..][1..] == ids[i + 1..];
      if ids[i].Some? && ids[i].value !in groups { groups := groups + [ids[i].value]; }
    }
  }

  method Number(rows: seq<Row>) returns (sessions: seq<Item>)
    ensures sessions == Sessions(rows)
  {
    sessions := [];
    for i := 0 to |rows|
      invariant sessions == Sessions(rows)[..i]
    {
      var row := rows[i];
      var section := if row.pinned.Some? then Pinned else if row.project.Some? then Project else Other;
      sessions := sessions + [Session(row, i + 1, section)];
    }
  }

  lemma {:induction false} InFoldersAppend(sessions: seq<Item>, catalog: Catalog, o: Options, order: seq<GroupId>,
                                           g: GroupId)
    ensures InFolders(sessions, catalog, o, order + [g])
         == InFolders(sessions, catalog, o, order) + InFolder(sessions, catalog, o, g)
  {
    if order == [] {
      assert [g][1..] == [] && [] + [g] == [g];
    } else {
      assert (order + [g])[1..] == order[1..] + [g];
      InFoldersAppend(sessions, catalog, o, order[1..], g);
    }
  }

  /** Each folder's sessions, or the empty folder itself. */
  method Regroup(sessions: seq<Item>, catalog: Catalog, o: Options, groups: seq<GroupId>) returns (items: seq<Item>)
    ensures items == InFolders(sessions, catalog, o, groups)
  {
    items := [];
    for k := 0 to |groups|
      invariant items == InFolders(sessions, catalog, o, groups[..k])
    {
      InFoldersAppend(sessions, catalog, o, groups[..k], groups[k]);
      assert groups[..k + 1] == groups[..k] + [groups[k]];
      var children := Only(sessions, Want(false, {groups[k]}, false));
      if children != [] {
        items := items + children;
      } else if o.includeEmpty {
        items := items + [Folder(groups[k], NoticeFor(sessions, catalog, o, groups[k]))];
      }
    }
    assert groups[..|groups|] == groups;
  }

  method SessionCatalogItems(rows: seq<Row>, catalog: Catalog, o: Options) returns (items: seq<Item>)
    ensures items == Items(rows, catalog, o)
  {
    var groups: seq<GroupId> := [];
    if o.includeEmpty { groups := Collect(groups, CatalogIds(catalog)); }
    groups := Collect(groups, RowIds(rows, false));
    groups := Collect(groups, RowIds(rows, true));
    var sessions := Number(rows);
    var folders := Regroup(sessions, catalog, o, groups);
    items := Only(sessions, Want(true, {}, false)) + folders + Only(sessions, Want(false, {}, true));
  }
}
