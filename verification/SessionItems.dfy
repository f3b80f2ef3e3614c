/** What the regrouped view of sessions shows, and where: each item in terms of the rows,
    the catalog and the options it is made of. */
module SessionItems {
  import opened Common
  import opened SessionCatalog
  import opened SessionView

  /** The row belongs to the folder. */
  predicate InGroup(row: Row, g: GroupId) { row.project == Some(g.projectId) && row.hostId == g.hostId }

  lemma GroupIff(row: Row, g: GroupId)
    ensures row.Group() == Some(g) <==> InGroup(row, g)
  {
  }

  lemma ListedIff(c: Candidate, g: GroupId)
    ensures c.Id() == Some(g) <==> Lists(c, g)
  {
  }

  // ---------------------------------------------------------------- what is shown

  /** A session is shown with its place in the ordered snapshot, as pinned, in its folder,
      or among the others. */
  lemma NumberMeans(rows: seq<Row>, i: nat)
    requires i < |rows|
    ensures |Sessions(rows)| == |rows|
    ensures Sessions(rows)[i] == Session(rows[i], i + 1, match rows[i].pinned
      case Some(_) => Pinned
      case None => match rows[i].project
        case Some(_) => Project
        case None => Other)
  {
  }

  lemma {:induction false} OnlyMembers(items: seq<Item>, w: Want, item: Item)
    ensures item in Only(items, w) <==> item in items && w.Takes(item)
  {
    if items != [] {
      OnlyMembers(items[1..], w, item);
      assert items == [items[0]] + items[1..];
    }
  }

  lemma {:induction false} FolderItem(sessions: seq<Item>, catalog: Catalog, o: Options, order: seq<GroupId>,
                                      g: GroupId,
                                      notice: Notice)
    requires forall item :: item in sessions ==> item.Session?
    ensures Folder(g, notice) in InFolders(sessions, catalog, o, order) <==>
      && g in order && o.includeEmpty && Only(sessions, Want(false, {g}, false)) == []
      && notice == NoticeFor(sessions, catalog, o, g)
  {
    if order != [] {
      FolderItem(sessions, catalog, o, order[1..], g, notice);
      OnlyMembers(sessions, Want(false, {order[0]}, false), Folder(g, notice));
      assert order == [order[0]] + order[1..];
    }
  }

  lemma NoChildren(rows: seq<Row>, g: GroupId)
    ensures Only(Sessions(rows), Want(false, {g}, false)) == [] <==>
      forall i :: 0 <= i < |rows| ==> rows[i].pinned.Some? || !InGroup(rows[i], g)
  {
    var sessions, w := Sessions(rows), Want(false, {g}, false);
    if i :| 0 <= i < |rows| && rows[i].pinned.None? && InGroup(rows[i], g) {
      assert sessions[i] in sessions && w.Takes(sessions[i]);
      OnlyMembers(sessions, w, sessions[i]);
    } else {
      forall item | item in sessions ensures !w.Takes(item) {
        var i :| 0 <= i < |sessions| && sessions[i] == item;
        GroupIff(rows[i], g);
      }
      OnlyNone(sessions, w);
    }
  }

  /** What an empty folder says: that its host could not be read completely; that the
      catalog calls its first entry unavailable; that its sessions are all pinned; or that
      it has none. */
  lemma NoticeMeans(rows: seq<Row>, catalog: Catalog, o: Options, g: GroupId)
    ensures
      var notice := NoticeFor(Sessions(rows), catalog, o, g);
      var unavailable := exists i ::
        && 0 <= i < |catalog| && Lists(catalog[i], g) && catalog[i].available == Some(false)
        && forall k :: 0 <= k < i ==> !Lists(catalog[k], g);
      var shown := exists i :: 0 <= i < |rows| && InGroup(rows[i], g);
      if g.hostId in o.incompleteHosts then notice == Incomplete(o.incompleteHosts[g.hostId])
      else if unavailable then notice == Unavailable
      else notice == if shown then ShownPinned else NoSessions
  {
    var sessions := Sessions(rows);
    forall i | 0 <= i < |rows| ensures sessions[i].row.Group() == Some(g) <==> InGroup(rows[i], g) {
      GroupIff(rows[i], g);
    }
    forall i | 0 <= i < |catalog| ensures catalog[i].Id() == Some(g) <==> Lists(catalog[i], g) {
      ListedIff(catalog[i], g);
    }
    forall i | 0 <= i < |catalog|
      ensures FirstIs(catalog, i, g) <==> forall k :: 0 <= k < i ==> !Lists(catalog[k], g)
    {
    }
    if i :| 0 <= i < |rows| && InGroup(rows[i], g) { assert sessions[i].Session?; }
  }

  /** Which folders there are. */
  lemma GroupsMembers(rows: seq<Row>, catalog: Catalog, includeEmpty: bool, g: GroupId)
    ensures g in GroupOrder(rows, catalog, includeEmpty) <==>
      || (includeEmpty && exists i :: 0 <= i < |catalog| && Lists(catalog[i], g))
      || (exists i :: 0 <= i < |rows| && InGroup(rows[i], g))
  {
    AddAllKeeps([], CatalogIds(catalog));
    var base := if includeEmpty then AddAll([], CatalogIds(catalog)) else [];
    AddAllKeeps(base, RowIds(rows, false));
    AddAllKeeps(OpenGroups(rows, catalog, includeEmpty), RowIds(rows, true));
    CatalogMembers(catalog, g);
    RowMembers(rows, g);
  }

  lemma CatalogMembers(catalog: Catalog, g: GroupId)
    ensures Some(g) in CatalogIds(catalog) <==> exists i :: 0 <= i < |catalog| && Lists(catalog[i], g)
  {
    forall i | 0 <= i < |catalog| ensures CatalogIds(catalog)[i] == Some(g) <==> Lists(catalog[i], g) {
      ListedIff(catalog[i], g);
    }
  }

  lemma RowMembers(rows: seq<Row>, g: GroupId)
    ensures Some(g) in RowIds(rows, false) || Some(g) in RowIds(rows, true) <==>
      exists i :: 0 <= i < |rows| && InGroup(rows[i], g)
  {
    forall i | 0 <= i < |rows| ensures InGroup(rows[i], g) <==>
      RowIds(rows, false)[i] == Some(g) || RowIds(rows, true)[i] == Some(g)
    {
      GroupIff(rows[i], g);
    }
    if i :| 0 <= i < |rows| && InGroup(rows[i], g) {
      assert RowIds(rows, rows[i].pinned.Some?)[i] == Some(g);
    }
  }

  /** Exactly which folders stand as empty: those of the catalog, when they are asked for,
      and those of pinned sessions, when they have no unpinned session. */
  lemma EmptyFolderIff(rows: seq<Row>, catalog: Catalog, o: Options, g: GroupId, notice: Notice)
    ensures Folder(g, notice) in Items(rows, catalog, o) <==>
      && o.includeEmpty && notice == NoticeFor(Sessions(rows), catalog, o, g)
      && (|| (exists i :: 0 <= i < |catalog| && Lists(catalog[i], g))
          || (exists i :: 0 <= i < |rows| && InGroup(rows[i], g)))
      && (forall i :: 0 <= i < |rows| && InGroup(rows[i], g) ==> rows[i].pinned.Some?)
  {
    var sessions := Sessions(rows);
    OnlyMembers(sessions, Want(true, {}, false), Folder(g, notice));
    OnlyMembers(sessions, Want(false, {}, true), Folder(g, notice));
    FolderItem(sessions, catalog, o, GroupOrder(rows, catalog, o.includeEmpty), g, notice);
    GroupsMembers(rows, catalog, o.includeEmpty, g);
    NoChildren(rows, g);
  }

  // ---------------------------------------------------------------- the order of folders

  predicate Unpinned(row: Row, g: GroupId) { row.pinned.None? && InGroup(row, g) }

  /** Of two folders the earlier one is first in the catalog, if empty folders are shown and
      the later one is in it; else, unless the earlier one is in it, it has the first
      unpinned session of both; and else, without either, the first pinned one. */
  lemma FolderOrder(rows: seq<Row>, catalog: Catalog, includeEmpty: bool, a: nat, b: nat, q: nat)
    requires a < b < |GroupOrder(rows, catalog, includeEmpty)|
    ensures
      var order := GroupOrder(rows, catalog, includeEmpty);
      var (g, h) := (order[a], order[b]);
      var listed := includeEmpty && exists p :: 0 <= p < |catalog| && Lists(catalog[p], g);
      && (includeEmpty && q < |catalog| && Lists(catalog[q], h) ==> exists p :: 0 <= p < q && Lists(catalog[p], g))
      && (!listed && q < |rows| && Unpinned(rows[q], h) ==> exists p :: 0 <= p < q && Unpinned(rows[p], g))
      && (!listed && (forall p :: 0 <= p < |rows| ==> !Unpinned(rows[p], g)) && q < |rows| && InGroup(rows[q], h) ==>
            exists p :: 0 <= p < q && InGroup(rows[p], g))
  {
    var base := if includeEmpty then AddAll([], CatalogIds(catalog)) else [];
    var open := AddAll(base, RowIds(rows, false));
    var order := AddAll(open, RowIds(rows, true));
    assert open == OpenGroups(rows, catalog, includeEmpty) && order == GroupOrder(rows, catalog, includeEmpty);
    AddAllKeeps([], CatalogIds(catalog));
    AddAllKeeps(base, RowIds(rows, false));
    AddAllKeeps(open, RowIds(rows, true));
    var g, h := order[a], order[b];
    CatalogMembers(catalog, g);
    if includeEmpty && q < |catalog| && Lists(catalog[q], h) {
      CatalogFirst(rows, catalog, a, b, q, base, open, order);
    }
    if g !in base && q < |rows| && Unpinned(rows[q], h) {
      RowFirst(rows, false, a, b, q, base, open, order);
    }
    if g !in base && (forall p :: 0 <= p < |rows| ==> !Unpinned(rows[p], g)) && q < |rows| && InGroup(rows[q], h) {
      PinnedFirst(rows, a, b, q, base, open, order);
    }
  }

  lemma Placed(order: seq<GroupId>, head: seq<GroupId>, k: nat)
    requires NoRepeats(order) && head <= order && k < |order|
    ensures order[k] in head <==> k < |head|
    ensures k < |head| ==> head[k] == order[k]
  {
    if order[k] in head { OrderPosition(order, head, order[k], k); }
  }

  lemma CatalogFirst(rows: seq<Row>, catalog: Catalog, a: nat, b: nat, q: nat, base: seq<GroupId>, open: seq<GroupId>,
                     order: seq<GroupId>)
    requires base == AddAll([], CatalogIds(catalog)) && NoRepeats(base)
    requires base <= open <= order && NoRepeats(order) && a < b < |order|
    requires forall x :: x in base <==> Some(x) in CatalogIds(catalog)
    requires q < |catalog| && Lists(catalog[q], order[b])
    ensures exists p :: 0 <= p < q && Lists(catalog[p], order[a])
  {
    var ids, g, h := CatalogIds(catalog), order[a], order[b];
    ListedIff(catalog[q], h);
    assert ids[q] == Some(h);
    Placed(order, base, b);
    Placed(order, base, a);
    AddAllOrder([], ids, a, b);
    var p := First(ids, g);
    ListedIff(catalog[p], g);
  }

  lemma RowFirst(rows: seq<Row>, pinned: bool, a: nat, b: nat, q: nat, base: seq<GroupId>, open: seq<GroupId>,
                 order: seq<GroupId>)
    requires open == AddAll(base, RowIds(rows, pinned)) && NoRepeats(base) && NoRepeats(open)
    requires base <= open <= order && NoRepeats(order) && a < b < |order| && order[a] !in base
    requires forall x :: x in open <==> x in base || Some(x) in RowIds(rows, pinned)
    requires q < |rows| && rows[q].pinned.Some? == pinned && InGroup(rows[q], order[b])
    ensures exists p :: 0 <= p < q && rows[p].pinned.Some? == pinned && InGroup(rows[p], order[a])
  {
    var ids, g, h := RowIds(rows, pinned), order[a], order[b];
    GroupIff(rows[q], h);
    assert ids[q] == Some(h);
    Placed(order, open, b);
    Placed(order, open, a);
    Placed(order, base, a);
    AddAllOrder(base, ids, a, b);
    var p := First(ids, g);
    GroupIff(rows[p], g);
    assert ids[p] == Some(g);
  }

  lemma PinnedFirst(rows: seq<Row>, a: nat, b: nat, q: nat, base: seq<GroupId>, open: seq<GroupId>,
                    order: seq<GroupId>)
    requires open == AddAll(base, RowIds(rows, false)) && NoRepeats(base) && NoRepeats(open)
    requires order == AddAll(open, RowIds(rows, true)) && open <= order && NoRepeats(order)
    requires base <= open && a < b < |order| && order[a] !in base
    requires forall x :: x in open <==> x in base || Some(x) in RowIds(rows, false)
    requires forall x :: x in order <==> x in open || Some(x) in RowIds(rows, true)
    requires forall p :: 0 <= p < |rows| ==> !Unpinned(rows[p], order[a])
    requires q < |rows| && InGroup(rows[q], order[b])
    ensures exists p :: 0 <= p < q && InGroup(rows[p], order[a])
  {
    if rows[q].pinned.None? {
      RowFirst(rows, false, a, b, q, base, open, order);
    } else {
      forall p | 0 <= p < |rows| ensures RowIds(rows, false)[p] != Some(order[a]) { GroupIff(rows[p], order[a]); }
      RowFirst(rows, true, a, b, q, open, order, order);
    }
  }

  // ---------------------------------------------------------------- the order of items

  /** Pinned sessions, then the folders, then the other sessions. */
  function Rank(item: Item): nat {
    match item
    case Folder(_, _) => 1
    case Session(_, _, section) =>
      match section
      case Pinned => 0
      case Project => 1
      case Other => 2
  }

  function FolderOf(item: Item): Option<GroupId> {
    match item
    case Folder(g, _) => Some(g)
    case Session(row, _, _) => row.Group()
  }

  /** Sessions with rising numbers, each one in its section. */
  ghost predicate Rising(items: seq<Item>) {
    && (forall i :: 0 <= i < |items| ==> items[i].Session? && items[i].section == SectionOf(items[i].row))
    && (forall i, k :: 0 <= i < k < |items| ==> items[i].number < items[k].number)
  }

  lemma {:induction false} OnlyRises(items: seq<Item>, w: Want)
    requires Rising(items)
    ensures Rising(Only(items, w))
    ensures forall k :: 0 <= k < |Only(items, w)| ==> Only(items, w)[k] in items && w.Takes(Only(items, w)[k])
  {
    if items != [] {
      OnlyRises(items[1..], w);
      forall k | 0 <= k < |Only(items[1..], w)| ensures items[0].number < Only(items[1..], w)[k].number {
        var n :| 0 <= n < |items[1..]| && items[1..][n] == Only(items[1..], w)[k];
        assert items[n + 1] == Only(items[1..], w)[k];
      }
    }
  }

  /** One folder's part of the view. */
  lemma FolderPart(sessions: seq<Item>, catalog: Catalog, o: Options, g: GroupId, part: seq<Item>)
    requires Rising(sessions) && part == InFolder(sessions, catalog, o, g)
    ensures forall k :: 0 <= k < |part| ==> FolderOf(part[k]) == Some(g) && Rank(part[k]) == 1
    ensures forall i, k :: 0 <= i < k < |part| ==>
      part[i].Session? && part[k].Session? && part[i].number < part[k].number
  {
    OnlyRises(sessions, Want(false, {g}, false));
  }

  function Flat(parts: seq<seq<Item>>): seq<Item> { if parts == [] then [] else parts[0] + Flat(parts[1..]) }

  /** Where two items of a flattened sequence come from. */
  lemma {:induction false} FlatPlace(parts: seq<seq<Item>>, i: nat, j: nat) returns (a: nat, p: nat, b: nat, q: nat)
    requires i <= j < |Flat(parts)|
    ensures a <= b < |parts| && p < |parts[a]| && q < |parts[b]|
    ensures Flat(parts)[i] == parts[a][p] && Flat(parts)[j] == parts[b][q] && (a == b ==> p <= q)
    ensures (i < j ==> (a, p) != (b, q))
  {
    var n := |parts[0]|;
    if j < n {
      a, p, b, q := 0, i, 0, j;
    } else if i < n {
      var _, _, c, d := FlatPlace(parts[1..], j - n, j - n);
      a, p, b, q := 0, i, c + 1, d;
    } else {
      a, p, b, q := FlatPlace(parts[1..], i - n, j - n);
      a, b := a + 1, b + 1;
    }
  }

  function FolderParts(sessions: seq<Item>, catalog: Catalog, o: Options, order: seq<GroupId>): (parts: seq<seq<Item>>)
    ensures |parts| == |order|
    ensures forall k :: 0 <= k < |order| ==> parts[k] == InFolder(sessions, catalog, o, order[k])
  {
    seq(|order|, k requires 0 <= k < |order| => InFolder(sessions, catalog, o, order[k]))
  }

  lemma {:induction false} FoldersAreFlat(sessions: seq<Item>, catalog: Catalog, o: Options, order: seq<GroupId>)
    ensures InFolders(sessions, catalog, o, order) == Flat(FolderParts(sessions, catalog, o, order))
  {
    if order != [] {
      FoldersAreFlat(sessions, catalog, o, order[1..]);
      assert FolderParts(sessions, catalog, o, order)[1..] == FolderParts(sessions, catalog, o, order[1..]);
    }
  }

  lemma FoldersPlace(sessions: seq<Item>, catalog: Catalog, o: Options, order: seq<GroupId>, items: seq<Item>, i: nat,
                     j: nat)
    returns (a: nat, b: nat)
    requires Rising(sessions) && items == InFolders(sessions, catalog, o, order) && i <= j < |items|
    ensures a <= b < |order| && FolderOf(items[i]) == Some(order[a]) && FolderOf(items[j]) == Some(order[b])
    ensures Rank(items[i]) == 1 && Rank(items[j]) == 1
    ensures a == b && i < j ==> items[i].Session? && items[j].Session? && items[i].number < items[j].number
  {
    var parts := FolderParts(sessions, catalog, o, order);
    FoldersAreFlat(sessions, catalog, o, order);
    var p, q;
    a, p, b, q := FlatPlace(parts, i, j);
    FolderPart(sessions, catalog, o, order[a], parts[a]);
    FolderPart(sessions, catalog, o, order[b], parts[b]);
  }

  lemma SessionsRise(rows: seq<Row>)
    ensures Rising(Sessions(rows))
  {
  }

  /** Where everything stands: pinned sessions first, then the folders in their order, each
      with its sessions together, then the other sessions; and within each of these parts
      the numbers rise. */
  lemma ItemsInOrder(rows: seq<Row>, catalog: Catalog, o: Options, items: seq<Item>, i: nat, j: nat)
    returns (a: nat, b: nat)
    requires items == Items(rows, catalog, o) && i < j < |items|
    ensures
      var x, y, order := items[i], items[j], GroupOrder(rows, catalog, o.includeEmpty);
      && Rank(x) <= Rank(y)
      && (Rank(x) == Rank(y) && Rank(x) != 1 ==> x.Session? && y.Session? && x.number < y.number)
      && (Rank(x) == Rank(y) == 1 ==>
            && a <= b < |order| && FolderOf(x) == Some(order[a]) && FolderOf(y) == Some(order[b])
            && (a == b ==> x.Session? && y.Session? && x.number < y.number))
  {
    var top, middle, bottom := Parts(rows, catalog, o, items);
    a, b := InParts(rows, catalog, o, items, top, middle, bottom, i, j);
  }

  lemma InParts(rows: seq<Row>, catalog: Catalog, o: Options, items: seq<Item>, top: seq<Item>, middle: seq<Item>,
                bottom: seq<Item>, i: nat, j: nat)
    returns (a: nat, b: nat)
    requires Rising(top) && Rising(bottom) && AllRanked(top, 0) && AllRanked(middle, 1) && AllRanked(bottom, 2)
    requires items == top + middle + bottom && i < j < |items|
    requires middle == InFolders(Sessions(rows), catalog, o, GroupOrder(rows, catalog, o.includeEmpty))
    ensures Rank(items[i]) <= Rank(items[j])
    ensures Rank(items[i]) == Rank(items[j]) && Rank(items[i]) != 1 ==>
      items[i].Session? && items[j].Session? && items[i].number < items[j].number
    ensures Rank(items[i]) == Rank(items[j]) == 1 ==>
      var order := GroupOrder(rows, catalog, o.includeEmpty);
      && a <= b < |order| && FolderOf(items[i]) == Some(order[a]) && FolderOf(items[j]) == Some(order[b])
      && (a == b ==> items[i].Session? && items[j].Session? && items[i].number < items[j].number)
  {
    RanksRise(items, top, middle, bottom, i, j);
    a, b := 0, 0;
    if Rank(items[i]) == Rank(items[j]) == 1 { a, b := InMiddle(rows, catalog, o, middle, i - |top|, j - |top|); }
  }

  lemma InMiddle(rows: seq<Row>, catalog: Catalog, o: Options, middle: seq<Item>, i: nat, j: nat)
    returns (a: nat, b: nat)
    requires middle == InFolders(Sessions(rows), catalog, o, GroupOrder(rows, catalog, o.includeEmpty))
    requires i < j < |middle|
    ensures
      var order := GroupOrder(rows, catalog, o.includeEmpty);
      && a <= b < |order| && FolderOf(middle[i]) == Some(order[a]) && FolderOf(middle[j]) == Some(order[b])
      && (a == b ==> middle[i].Session? && middle[j].Session? && middle[i].number < middle[j].number)
  {
    SessionsRise(rows);
    a, b := FoldersPlace(Sessions(rows), catalog, o, GroupOrder(rows, catalog, o.includeEmpty), middle, i, j);
  }

  lemma Parts(rows: seq<Row>, catalog: Catalog, o: Options, items: seq<Item>)
    returns (top: seq<Item>, middle: seq<Item>, bottom: seq<Item>)
    requires items == Items(rows, catalog, o)
    ensures items == top + middle + bottom
    ensures middle == InFolders(Sessions(rows), catalog, o, GroupOrder(rows, catalog, o.includeEmpty))
    ensures Rising(top) && Rising(bottom) && AllRanked(top, 0) && AllRanked(middle, 1) && AllRanked(bottom, 2)
  {
    var sessions := Sessions(rows);
    var order := GroupOrder(rows, catalog, o.includeEmpty);
    top, middle := Only(sessions, Want(true, {}, false)), InFolders(sessions, catalog, o, order);
    bottom := Only(sessions, Want(false, {}, true));
    SessionsRise(rows);
    OnlyRises(sessions, Want(true, {}, false));
    OnlyRises(sessions, Want(false, {}, true));
    MiddleRanked(sessions, catalog, o, order, middle);
  }

  lemma MiddleRanked(sessions: seq<Item>, catalog: Catalog, o: Options, order: seq<GroupId>, items: seq<Item>)
    requires Rising(sessions) && items == InFolders(sessions, catalog, o, order)
    ensures AllRanked(items, 1)
  {
    forall k | 0 <= k < |items| ensures Rank(items[k]) == 1 {
      var _, _ := FoldersPlace(sessions, catalog, o, order, items, k, k);
    }
  }

  ghost predicate AllRanked(items: seq<Item>, rank: nat) { forall k :: 0 <= k < |items| ==> Rank(items[k]) == rank }

  lemma RanksRise(items: seq<Item>, top: seq<Item>, middle: seq<Item>, bottom: seq<Item>, i: nat, j: nat)
    requires Rising(top) && Rising(bottom) && AllRanked(top, 0) && AllRanked(middle, 1) && AllRanked(bottom, 2)
    requires items == top + middle + bottom && i < j < |items|
    ensures Rank(items[i]) <= Rank(items[j])
    ensures Rank(items[i]) == Rank(items[j]) && Rank(items[i]) != 1 ==>
      items[i].Session? && items[j].Session? && items[i].number < items[j].number
    ensures Rank(items[i]) == Rank(items[j]) == 1 ==>
      |top| <= i && j < |top| + |middle| && items[i] == middle[i - |top|] && items[j] == middle[j - |top|]
  {
    ThreeParts(top, middle, bottom, i);
    ThreeParts(top, middle, bottom, j);
  }

  lemma ThreeParts(a: seq<Item>, b: seq<Item>, c: seq<Item>, k: nat)
    requires k < |a + b + c|
    ensures (a + b + c)[k]
         == if k < |a| then a[k] else if k < |a| + |b| then b[k - |a|] else c[k - |a| - |b|]
  {
  }
}
