/** `AdmissionService`: bounded requests and single-use tickets.

    Random ids and versions are fresh values; the configured accounts, the clock
    and whether the access list already admits a request are inputs.  The list of
    administrators is not modelled. */
module Admission {
  import opened Common

  datatype Account = Account(accountId: string, channel: string, providerId: string)
  datatype Principal = Principal(account: Account, actorId: string)
  datatype Kind = Direct | Group
  datatype Phase = Pending | Applying | Dismissed

  datatype Request = Request(
    id: nat, version: nat, principal: Principal, conversationId: string, kind: Kind, expiresAt: nat, phase: Phase)

  datatype Clock = Clock(now: nat, accounts: set<Account>)
  {
    /** `current`: unexpired, and its channel account is still configured. */
    predicate Current(r: Request) { r.expiresAt > now && r.principal.account in accounts }
    predicate Open(r: Request) { Current(r) && !r.phase.Dismissed? }
    predicate Closed(r: Request) { Current(r) && r.phase.Dismissed? }
  }

  const DAY := 86400000

  /** What the service filters its rows for. */
  datatype Filter =
    | Open(clock: Clock)
    | Closed(clock: Clock)
    | By(p: Principal)
    | OpenBy(p: Principal)
    | Same(clock: Clock, p: Principal, conversationId: string, kind: Kind)
    | Elsewhere(accountId: string)
    | Decided(e: Event)
  {
    predicate Takes(r: Request) {
      match this
      case Open(c) => c.Open(r)
      case Closed(c) => c.Closed(r)
      case By(p) => r.principal == p
      case OpenBy(p) => r.principal == p && !r.phase.Dismissed?
      case Same(c, p, conversationId, kind) =>
        r.principal == p && r.conversationId == conversationId && r.kind == kind && c.Open(r)
      case Elsewhere(accountId) => r.principal.account.accountId != accountId
      case Decided(e) => Decides(e, r)
    }
  }

  function Where(rows: seq<Request>, f: Filter): seq<Request> {
    if rows == [] then [] else (if f.Takes(rows[0]) then [rows[0]] else []) + Where(rows[1..], f)
  }

  lemma {:induction false} WhereMembers(rows: seq<Request>, f: Filter)
    ensures |Where(rows, f)| <= |rows|
    ensures forall r :: r in Where(rows, f) <==> r in rows && f.Takes(r)
  {
    if rows != [] { WhereMembers(rows[1..], f); }
  }

  /** JavaScript `slice(-n)` for a positive `n`. */
  function Last(rows: seq<Request>, n: nat): (kept: seq<Request>)
    ensures |kept| <= n && |kept| <= |rows|
    ensures forall r :: r in kept ==> r in rows
  {
    if |rows| <= n then rows else rows[|rows| - n..]
  }

  /** The open requests a principal has on record, current or not. */
  function OpenOf(rows: seq<Request>, p: Principal): seq<Request> { Where(rows, OpenBy(p)) }

  predicate Full(rows: seq<Request>, c: Clock, p: Principal) {
    |Where(rows, Open(c))| >= 500 || |Where(Where(rows, Open(c)), By(p))| >= 8
  }

  /** Finished tickets as far as there is room for them. */
  function Completed(rows: seq<Request>, c: Clock): seq<Request> {
    var room := 499 - |Where(rows, Open(c))|;
    if room > 0 then Last(Where(rows, Closed(c)), room) else []
  }

  /** The list with one added: finished tickets make room, open ones never do. */
  function Added(rows: seq<Request>, c: Clock, added: Request): seq<Request> {
    Completed(rows, c) + Where(rows, Open(c)) + [added]
  }

  function Rephased(rows: seq<Request>, id: nat, phase: Phase): seq<Request> {
    seq(|rows|, i requires 0 <= i < |rows| => if rows[i].id == id then rows[i].(phase := phase) else rows[i])
  }

  // ---------------------------------------------------------------- capacity

  lemma {:induction false} WhereConcat(a: seq<Request>, b: seq<Request>, f: Filter)
    ensures Where(a + b, f) == Where(a, f) + Where(b, f)
  {
    if a == [] {
      assert a + b == b;
    } else {
      assert (a + b)[1..] == a[1..] + b && (a + b)[0] == a[0];
      WhereConcat(a[1..], b, f);
      Associates(if f.Takes(a[0]) then [a[0]] else [], Where(a[1..], f), Where(b, f));
    }
  }

  lemma Associates(a: seq<Request>, b: seq<Request>, c: seq<Request>)
    ensures (a + b) + c == a + (b + c)
  {
  }

  lemma {:induction false} WhereNone(rows: seq<Request>, f: Filter)
    requires forall r :: r in rows ==> !f.Takes(r)
    ensures Where(rows, f) == []
  {
    if rows != [] { WhereNone(rows[1..], f); }
  }

  /** Two filters that agree on the members keep the same rows. */
  lemma {:induction false} WhereAgrees(rows: seq<Request>, f: Filter, other: Filter)
    requires forall r :: r in rows ==> f.Takes(r) == other.Takes(r)
    ensures Where(rows, f) == Where(rows, other)
  {
    if rows != [] { WhereAgrees(rows[1..], f, other); }
  }

  lemma {:induction false} OpenShrinks(rows: seq<Request>, f: Filter, p: Principal)
    ensures |OpenOf(Where(rows, f), p)| <= |OpenOf(rows, p)|
  {
    if rows != [] {
      OpenShrinks(rows[1..], f, p);
      WhereConcat(if f.Takes(rows[0]) then [rows[0]] else [], Where(rows[1..], f), OpenBy(p));
    }
  }

  ghost predicate Bounded(rows: seq<Request>) {
    |rows| <= 500 && forall p :: |OpenOf(rows, p)| <= 8
  }

  /** Where the open requests of a principal are, once one is added. */
  lemma AddedOpenOf(rows: seq<Request>, c: Clock, r: Request, p: Principal)
    ensures |OpenOf(Added(rows, c, r), p)|
         <= |OpenOf(Where(rows, Open(c)), p)| + if p == r.principal then 1 else 0
  {
    var open, completed := Where(rows, Open(c)), Completed(rows, c);
    WhereMembers(rows, Closed(c));
    WhereConcat(completed + open, [r], OpenBy(p));
    WhereConcat(completed, open, OpenBy(p));
    WhereNone(completed, OpenBy(p));
    assert [r][1..] == [];
  }

  /** Adding a request keeps both bounds and every open request that is unexpired. */
  lemma AddedIsBounded(rows: seq<Request>, c: Clock, r: Request)
    requires Bounded(rows) && !Full(rows, c, r.principal)
    ensures Bounded(Added(rows, c, r))
    ensures forall x :: x in rows && c.Open(x) ==> x in Added(rows, c, r)
    ensures forall x :: x in Added(rows, c, r) ==> x in rows || x == r
  {
    WhereMembers(rows, Open(c));
    WhereMembers(rows, Closed(c));
    forall p ensures |OpenOf(Added(rows, c, r), p)| <= 8 {
      AddedOpenOf(rows, c, r, p);
      if p == r.principal {
        WhereAgrees(Where(rows, Open(c)), OpenBy(p), By(p));
      } else {
        OpenShrinks(rows, Open(c), p);
      }
    }
  }

  /** Deciding a pending request opens nothing. */
  lemma {:induction false} RephasedShrinks(rows: seq<Request>, id: nat, phase: Phase, p: Principal)
    requires forall r :: r in rows && r.id == id ==> !r.phase.Dismissed?
    ensures |OpenOf(Rephased(rows, id, phase), p)| <= |OpenOf(rows, p)|
  {
    if rows != [] {
      RephasedShrinks(rows[1..], id, phase, p);
      assert Rephased(rows, id, phase)[1..] == Rephased(rows[1..], id, phase);
    }
  }

  // ---------------------------------------------------------------- tickets

  /** `granted` counts the calls of `allow` for a version. */
  datatype Office = Office(rows: seq<Request>, file: seq<Request>, granted: map<nat, nat>, used: set<nat>)

  function Count(granted: map<nat, nat>, version: nat): nat {
    if version in granted then granted[version] else 0
  }

  datatype Choice = Actor | Conversation | Deny

  /** A call of `allow`: the account and the user or group that gets access. */
  datatype Grant = Grant(accountId: string, target: string)

  datatype Event =
    | Observe(p: Principal, conversationId: string, kind: Kind, id: nat, version: nat, clock: Clock, w: FileWrite)
    | Decide(id: nat, version: nat, choice: Choice, admitted: bool, threw: bool, clock: Clock, w1: FileWrite,
      w2: FileWrite)
    | Forget(accountId: string, w: FileWrite)
    | Crash

  /** `randomBytes`: an id no row has, a version nobody ever had. */
  predicate Enabled(o: Office, e: Event) {
    e.Observe? ==> e.version !in o.used && forall r :: r in o.rows ==> r.id != e.id
  }

  function Saved(o: Office, rows: seq<Request>, w: FileWrite): Office {
    o.(file := FileAfter(o.file, rows, w), rows := if w.Returned() then rows else o.rows)
  }

  /** The request a decision is about: still pending, under its own version. */
  predicate Decides(e: Event, r: Request) {
    && e.Decide? && r.id == e.id && r.version == e.version && e.clock.Current(r) && r.phase.Pending?
    && !e.admitted && (e.choice.Conversation? ==> r.kind.Group?)
  }

  /** The dispatch boundary is saved before the access list is touched. */
  function Applied(o: Office, applying: seq<Request>, dismissed: seq<Request>, e: Event): Office
    requires e.Decide?
  {
    if e.choice.Deny? then Saved(o, dismissed, e.w1)
    else
      var marked := Saved(o, applying, e.w1);
      if !e.w1.Returned() then marked
      else
        var allowed := marked.(granted := marked.granted[e.version := Count(marked.granted, e.version) + 1]);
        if e.threw then allowed else Saved(allowed, dismissed, e.w2)
  }

  function Next(o: Office, e: Event): Office {
    if !Enabled(o, e) then o else
    match e
    case Observe(p, conversationId, kind, id, version, clock, w) =>
      if p.account !in clock.accounts || (kind.Group? && p.actorId == conversationId)
         || Where(o.rows, Same(clock, p, conversationId, kind)) != [] || Full(o.rows, clock, p) then o
      else
        var r := Request(id, version, p, conversationId, kind, clock.now + DAY, Pending);
        Saved(o, Added(o.rows, clock, r), w).(used := o.used + {version})
    case Decide(id, version, choice, admitted, threw, clock, w1, w2) =>
      if Where(o.rows, Decided(e)) == [] then o
      else Applied(o, Rephased(o.rows, id, Applying), Rephased(o.rows, id, Dismissed), e)
    case Forget(accountId, w) => Saved(o, Where(o.rows, Elsewhere(accountId)), w)
    case Crash => o.(rows := o.file)
  }

  function After(events: seq<Event>): Office {
    if events == [] then Office([], [], map[], {}) else Next(After(events[..|events| - 1]), events[|events| - 1])
  }

  predicate Distinct(rows: seq<Request>) { forall i, k :: 0 <= i < k < |rows| ==> rows[i] != rows[k] }

  lemma {:induction false} WhereDistinct(rows: seq<Request>, f: Filter)
    requires Distinct(rows)
    ensures Distinct(Where(rows, f))
  {
    if rows != [] {
      WhereDistinct(rows[1..], f);
      WhereMembers(rows[1..], f);
    }
  }

  lemma AddedDistinct(rows: seq<Request>, c: Clock, r: Request)
    requires Distinct(rows) && r !in rows
    ensures Distinct(Added(rows, c, r))
  {
    WhereDistinct(rows, Open(c));
    WhereDistinct(rows, Closed(c));
    WhereMembers(rows, Open(c));
    WhereMembers(rows, Closed(c));
    JoinDistinct(Completed(rows, c), Where(rows, Open(c)));
    JoinDistinct(Completed(rows, c) + Where(rows, Open(c)), [r]);
  }

  lemma JoinDistinct(a: seq<Request>, b: seq<Request>)
    requires Distinct(a) && Distinct(b) && forall r :: r in a ==> r !in b
    ensures Distinct(a + b)
  {
    forall i, k | 0 <= i < |a| <= k < |a + b| ensures (a + b)[i] != (a + b)[k] {
      assert (a + b)[i] in a && (a + b)[k] == b[k - |a|];
    }
  }

  /** Rows are told apart by id and by version, and none that was granted is
      pending. */
  ghost predicate Clean(granted: map<nat, nat>, used: set<nat>, rows: seq<Request>) {
    && Bounded(rows) && Distinct(rows)
    && (forall a, b :: a in rows && b in rows && (a.id == b.id || a.version == b.version) ==> a == b)
    && (forall r :: r in rows ==> r.version in used && (r.phase.Pending? ==> Count(granted, r.version) == 0))
  }

  /** Versions are granted once at most, and only versions that were issued. */
  ghost predicate Single(granted: map<nat, nat>, used: set<nat>) {
    forall v: nat :: Count(granted, v) <= 1 && (Count(granted, v) == 1 ==> v in used)
  }

  ghost predicate Sound(o: Office) {
    Clean(o.granted, o.used, o.rows) && Clean(o.granted, o.used, o.file) && Single(o.granted, o.used)
  }

  lemma RephasedClean(granted: map<nat, nat>, used: set<nat>, rows: seq<Request>, r: Request, phase: Phase)
    requires Clean(granted, used, rows) && r in rows && !r.phase.Dismissed? && !phase.Pending?
    ensures Clean(granted, used, Rephased(rows, r.id, phase))
    ensures forall x :: x in Rephased(rows, r.id, phase) && x.version == r.version ==> x.phase == phase
  {
    var next := Rephased(rows, r.id, phase);
    assert forall i :: 0 <= i < |next| ==>
      rows[i] in rows && next[i].id == rows[i].id && next[i].version == rows[i].version;
    forall p ensures |OpenOf(next, p)| <= 8 { RephasedShrinks(rows, r.id, phase, p); }
  }

  lemma AddedClean(granted: map<nat, nat>, used: set<nat>, rows: seq<Request>, c: Clock, r: Request)
    requires Clean(granted, used, rows) && Single(granted, used) && !Full(rows, c, r.principal)
    requires r.version !in used && forall x :: x in rows ==> x.id != r.id
    ensures Clean(granted, used + {r.version}, Added(rows, c, r))
  {
    AddedIsBounded(rows, c, r);
    AddedDistinct(rows, c, r);
    assert Count(granted, r.version) == 0;
  }

  lemma ObserveAdds(o: Office, e: Event)
    requires Enabled(o, e) && e.Observe? && e.p.account in e.clock.accounts
    requires !(e.kind.Group? && e.p.actorId == e.conversationId)
    requires Where(o.rows, Same(e.clock, e.p, e.conversationId, e.kind)) == [] && !Full(o.rows, e.clock, e.p)
    ensures var r := Request(e.id, e.version, e.p, e.conversationId, e.kind, e.clock.now + DAY, Pending);
      Next(o, e) == Saved(o, Added(o.rows, e.clock, r), e.w).(used := o.used + {e.version})
  {
  }

  lemma UsedGrows(granted: map<nat, nat>, used: set<nat>, rows: seq<Request>, version: nat)
    requires Clean(granted, used, rows)
    ensures Clean(granted, used + {version}, rows)
    ensures Single(granted, used) ==> Single(granted, used + {version})
  {
  }

  lemma ObserveSound(o: Office, e: Event)
    requires Sound(o) && Enabled(o, e) && e.Observe?
    ensures Sound(Next(o, e))
  {
    if Next(o, e) != o {
      var r := Request(e.id, e.version, e.p, e.conversationId, e.kind, e.clock.now + DAY, Pending);
      AddedClean(o.granted, o.used, o.rows, e.clock, r);
      UsedGrows(o.granted, o.used, o.rows, e.version);
      UsedGrows(o.granted, o.used, o.file, e.version);
      assert Next(o, e) == Saved(o, Added(o.rows, e.clock, r), e.w).(used := o.used + {e.version});
    }
  }

  lemma GrantClean(granted: map<nat, nat>, used: set<nat>, rows: seq<Request>, version: nat)
    requires Clean(granted, used, rows) && forall x :: x in rows && x.version == version ==> !x.phase.Pending?
    ensures Clean(granted[version := Count(granted, version) + 1], used, rows)
  {
  }

  lemma GrantSingle(granted: map<nat, nat>, used: set<nat>, version: nat)
    requires Single(granted, used) && Count(granted, version) == 0 && version in used
    ensures Single(granted[version := Count(granted, version) + 1], used)
  {
    var now := granted[version := Count(granted, version) + 1];
    forall v: nat ensures Count(now, v) <= 1 && (Count(now, v) == 1 ==> v in used) {
      assert Count(granted, v) <= 1;
    }
  }

  /** Both lists that a decision may leave are clean once the grant is counted. */
  lemma DecidedClean(o: Office, e: Event, r: Request)
    requires Sound(o) && r in o.rows && Decides(e, r)
    ensures var granted := o.granted[e.version := Count(o.granted, e.version) + 1];
      && Clean(o.granted, o.used, Rephased(o.rows, e.id, Applying))
      && Clean(o.granted, o.used, Rephased(o.rows, e.id, Dismissed))
      && Clean(granted, o.used, Rephased(o.rows, e.id, Applying))
      && Clean(granted, o.used, Rephased(o.rows, e.id, Dismissed))
      && Single(granted, o.used)
  {
    assert Count(o.granted, e.version) == 0 && e.version in o.used;
    RephasedClean(o.granted, o.used, o.rows, r, Dismissed);
    RephasedClean(o.granted, o.used, o.rows, r, Applying);
    GrantClean(o.granted, o.used, Rephased(o.rows, e.id, Applying), e.version);
    GrantClean(o.granted, o.used, Rephased(o.rows, e.id, Dismissed), e.version);
    GrantSingle(o.granted, o.used, e.version);
  }

  lemma AppliedSound(o: Office, applying: seq<Request>, dismissed: seq<Request>, e: Event)
    requires Sound(o) && e.Decide?
    requires Clean(o.granted, o.used, applying) && Clean(o.granted, o.used, dismissed)
    requires var granted := o.granted[e.version := Count(o.granted, e.version) + 1];
      Clean(granted, o.used, applying) && Clean(granted, o.used, dismissed) && Single(granted, o.used)
    ensures Sound(Applied(o, applying, dismissed, e))
  {
    if e.choice.Deny? {
      SavedSound(o, dismissed, e.w1);
    } else if e.w1.Returned() {
      GrantedSound(o, applying, dismissed, e);
    } else {
      SavedSound(o, applying, e.w1);
    }
  }

  lemma GrantedSound(o: Office, applying: seq<Request>, dismissed: seq<Request>, e: Event)
    requires e.Decide? && !e.choice.Deny? && e.w1.Returned()
    requires var granted := o.granted[e.version := Count(o.granted, e.version) + 1];
      Clean(granted, o.used, applying) && Clean(granted, o.used, dismissed) && Single(granted, o.used)
    ensures Sound(Applied(o, applying, dismissed, e))
  {
  }

  lemma SavedSound(o: Office, rows: seq<Request>, w: FileWrite)
    requires Sound(o) && Clean(o.granted, o.used, rows)
    ensures Sound(Saved(o, rows, w))
  {
  }

  lemma DecideSound(o: Office, e: Event)
    requires Sound(o) && e.Decide?
    ensures Sound(Next(o, e))
  {
    var found := Where(o.rows, Decided(e));
    if found != [] {
      FirstTaken(o.rows, Decided(e));
      DecidedClean(o, e, found[0]);
      AppliedSound(o, Rephased(o.rows, e.id, Applying), Rephased(o.rows, e.id, Dismissed), e);
    }
  }

  lemma FirstTaken(rows: seq<Request>, f: Filter)
    requires Where(rows, f) != []
    ensures Where(rows, f)[0] in rows && f.Takes(Where(rows, f)[0])
  {
    WhereMembers(rows, f);
    assert Where(rows, f)[0] in Where(rows, f);
  }

  lemma NextSound(o: Office, e: Event)
    requires Sound(o)
    ensures Sound(Next(o, e))
  {
    match e
    case Observe(_, _, _, _, _, _, _) => if Enabled(o, e) { ObserveSound(o, e); }
    case Decide(_, _, _, _, _, _, _, _) => DecideSound(o, e);
    case Forget(accountId, w) =>
      WhereMembers(o.rows, Elsewhere(accountId));
      forall p
        ensures |OpenOf(Where(o.rows, Elsewhere(accountId)), p)| <= 8
      {
        OpenShrinks(o.rows, Elsewhere(accountId), p);
      }
      WhereDistinct(o.rows, Elsewhere(accountId));
      assert Clean(o.granted, o.used, Where(o.rows, Elsewhere(accountId)));
    case Crash =>
  }

  /** In every reachable state: at most 500 requests and eight open ones for each
      principal, in memory and on disk, and no ticket was ever allowed twice, a
      crash or a failed write between its two saves included. */
  lemma {:induction false} AllowedAtMostOnce(events: seq<Event>, version: nat, p: Principal)
    ensures Sound(After(events))
    ensures Count(After(events).granted, version) <= 1
    ensures |After(events).rows| <= 500 && |OpenOf(After(events).rows, p)| <= 8
    ensures |After(events).file| <= 500 && |OpenOf(After(events).file, p)| <= 8
  {
    if events == [] {
      assert forall q: Principal :: OpenOf([], q) == [];
    } else {
      AllowedAtMostOnce(events[..|events| - 1], version, p);
      NextSound(After(events[..|events| - 1]), events[|events| - 1]);
    }
  }

  /** A new request never evicts an open one that is unexpired. */
  lemma OpenTicketsStay(events: seq<Event>, e: Event, r: Request)
    requires e.Observe? && r in After(events).rows && e.clock.Open(r)
    ensures r in Next(After(events), e).rows
  {
    var o := After(events);
    if Enabled(o, e) && !Full(o.rows, e.clock, e.p) {
      AllowedAtMostOnce(events, 0, e.p);
      var added := Request(e.id, e.version, e.p, e.conversationId, e.kind, e.clock.now + DAY, Pending);
      AddedIsBounded(o.rows, e.clock, added);
    }
  }

  /** The access list is called only for a pending, current request that somebody
      approved, only once its mark is on disk, and then the ticket is pending nowhere
      any more. */
  lemma GrantedOnlyOnApproval(events: seq<Event>, e: Event, version: nat)
    requires Count(Next(After(events), e).granted, version) != Count(After(events).granted, version)
    ensures e.Decide? && e.version == version && !e.choice.Deny? && e.w1.Returned()
    ensures exists r ::
      && r in After(events).rows && r.id == e.id && r.version == version && r.phase.Pending?
      && r.expiresAt > e.clock.now && r.principal.account in e.clock.accounts
      && !e.admitted && (e.choice.Conversation? ==> r.kind.Group?)
    ensures forall r :: r in Next(After(events), e).rows + Next(After(events), e).file && r.version == version ==>
      !r.phase.Pending?
  {
    var o := After(events);
    AllowedAtMostOnce(events + [e], version, Principal(Account("", "", ""), ""));
    assert (events + [e])[..|events|] == events;
    AllowedAtMostOnce(events, version, Principal(Account("", "", ""), ""));
    FirstTaken(o.rows, Decided(e));
  }

  // ---------------------------------------------------------------- what each step means

  ghost function Taken(rows: seq<Request>, f: Filter): set<Request> { set r | r in rows && f.Takes(r) }

  lemma TakenFirst(rows: seq<Request>, f: Filter)
    requires rows != []
    ensures Taken(rows, f) == Taken(rows[1..], f) + if f.Takes(rows[0]) then {rows[0]} else {}
  {
    assert rows == [rows[0]] + rows[1..];
  }

  /** Of rows without repetition a filter keeps as many as there are. */
  lemma {:induction false} WhereCounts(rows: seq<Request>, f: Filter)
    requires Distinct(rows)
    ensures |Where(rows, f)| == |Taken(rows, f)|
  {
    if rows != [] {
      WhereCounts(rows[1..], f);
      TakenFirst(rows, f);
      assert rows[0] !in Taken(rows[1..], f);
    }
  }

  /** The open requests on record at `clock`, in all and of one principal. */
  ghost function OpenAt(rows: seq<Request>, clock: Clock): set<Request> {
    set r | r in rows && r.expiresAt > clock.now && r.principal.account in clock.accounts && !r.phase.Dismissed?
  }

  ghost function OpenAtBy(rows: seq<Request>, clock: Clock, p: Principal): set<Request> {
    set r | r in OpenAt(rows, clock) && r.principal == p
  }

  lemma FullIff(rows: seq<Request>, clock: Clock, p: Principal)
    requires Distinct(rows)
    ensures Full(rows, clock, p) <==> |OpenAt(rows, clock)| >= 500 || |OpenAtBy(rows, clock, p)| >= 8
  {
    var open := Where(rows, Open(clock));
    WhereMembers(rows, Open(clock));
    WhereCounts(rows, Open(clock));
    WhereDistinct(rows, Open(clock));
    WhereCounts(open, By(p));
    assert Taken(rows, Open(clock)) == OpenAt(rows, clock);
    assert Taken(open, By(p)) == OpenAtBy(rows, clock, p);
  }

  /** Exactly when an observation opens a request: the account is configured, the sender is
      a person, nothing of the same sender, conversation and kind is open, and there is
      room.  Once saved, the request is pending on file and open for exactly 24 hours. */
  lemma ObservedIff(o: Office, e: Event)
    requires Sound(o) && Enabled(o, e) && e.Observe?
    ensures
      var opens :=
        && e.p.account in e.clock.accounts && !(e.kind.Group? && e.p.actorId == e.conversationId)
        && (forall r :: r in OpenAtBy(o.rows, e.clock, e.p) ==>
           r.conversationId != e.conversationId || r.kind != e.kind)
        && |OpenAt(o.rows, e.clock)| < 500 && |OpenAtBy(o.rows, e.clock, e.p)| < 8;
      var r := Request(e.id, e.version, e.p, e.conversationId, e.kind, e.clock.now + 24 * 60 * 60 * 1000, Pending);
      && (!opens ==> Next(o, e) == o)
      && (opens && e.w.Returned() ==> r in Next(o, e).rows && Next(o, e).file == Next(o, e).rows)
      && (opens && !e.w.Returned() ==> Next(o, e).rows == o.rows)
      && forall c: Clock :: r in OpenAt([r], c) <==>
           c.now < e.clock.now + 24 * 60 * 60 * 1000 && e.p.account in c.accounts
  {
    var same := Same(e.clock, e.p, e.conversationId, e.kind);
    FullIff(o.rows, e.clock, e.p);
    WhereMembers(o.rows, same);
    forall r | r in o.rows ensures same.Takes(r) <==>
      r in OpenAtBy(o.rows, e.clock, e.p) && r.conversationId == e.conversationId && r.kind == e.kind
    { }
    if Where(o.rows, same) != [] { FirstTaken(o.rows, same); } else { NoneTaken(o.rows, same); }
    var r := Request(e.id, e.version, e.p, e.conversationId, e.kind, e.clock.now + DAY, Pending);
    var added := Added(o.rows, e.clock, r);
    assert added[|added| - 1] == r;
  }

  lemma NoneTaken(rows: seq<Request>, f: Filter)
    requires Where(rows, f) == []
    ensures forall r :: r in rows ==> !f.Takes(r)
  {
    WhereMembers(rows, f);
  }

  /** What is kept when a request is added: all that is open, and of the finished tickets
      the newest ones as far as 499 rows allow. */
  lemma NewestTicketsStay(rows: seq<Request>, c: Clock, r: Request)
    ensures
      var (open, closed) := (Where(rows, Open(c)), Where(rows, Closed(c)));
      var room := if |open| >= 499 then 0 else 499 - |open|;
      Added(rows, c, r) == closed[if |closed| <= room then 0 else |closed| - room..] + open + [r]
  {
  }

  /** What a decision does to the pending ticket it names: a denial dismisses it and
      grants nothing; an approval marks it, on file, before its one grant, dismisses it
      when the grant went through, and leaves it marked otherwise.  Every other ticket
      stays as it is. */
  lemma DecisionMeans(o: Office, e: Event, r: Request)
    requires Sound(o) && e.Decide? && r in o.rows && r.id == e.id && r.version == e.version && r.phase.Pending?
    requires r.expiresAt > e.clock.now && r.principal.account in e.clock.accounts
    requires !e.admitted && (e.choice.Conversation? ==> r.kind.Group?)
    ensures
      var n := Next(o, e);
      var granted := !e.choice.Deny? && e.w1.Returned();
      && Count(n.granted, r.version) == (if granted then 1 else 0)
      && (!e.w1.Returned() ==> n.rows == o.rows)
      && (e.choice.Deny? && e.w1.Returned() ==> r.(phase := Dismissed) in n.rows && n.file == n.rows)
      && (granted && e.threw ==> r.(phase := Applying) in n.rows && n.file == n.rows)
      && (granted && !e.threw && !e.w2.Returned() ==> r.(phase := Applying) in n.rows)
      && (granted && !e.threw && e.w2.Returned() ==> r.(phase := Dismissed) in n.rows && n.file == n.rows)
      && (forall x :: x in o.rows && x != r ==> x in n.rows)
      && (forall v :: v != r.version ==> Count(n.granted, v) == Count(o.granted, v))
  {
    WhereMembers(o.rows, Decided(e));
    assert r in Where(o.rows, Decided(e));
    RephasedAt(o.rows, r, Applying);
    RephasedAt(o.rows, r, Dismissed);
    assert Count(o.granted, r.version) == 0;
  }

  lemma RephasedAt(rows: seq<Request>, r: Request, phase: Phase)
    requires r in rows && forall a, b :: a in rows && b in rows && a.id == b.id ==> a == b
    ensures r.(phase := phase) in Rephased(rows, r.id, phase)
    ensures forall x :: x in rows && x != r ==> x in Rephased(rows, r.id, phase)
  {
    var next := Rephased(rows, r.id, phase);
    forall x | x in rows ensures (if x == r then r.(phase := phase) else x) in next {
      var i :| 0 <= i < |rows| && rows[i] == x;
      assert next[i] in next;
    }
  }

  /** A decision that names no such ticket changes nothing. */
  lemma NoDecision(o: Office, e: Event)
    requires e.Decide?
    requires forall r ::
      && r in o.rows && r.id == e.id && r.version == e.version && r.phase.Pending?
      && r.expiresAt > e.clock.now && r.principal.account in e.clock.accounts
      ==> e.admitted || (e.choice.Conversation? && r.kind.Direct?)
    ensures Next(o, e) == o
  {
    WhereNone(o.rows, Decided(e));
  }

  /** An account that is forgotten loses its requests, and nobody else does; a new process
      knows what the file says. */
  lemma ForgottenIff(o: Office, accountId: string, w: FileWrite, r: Request)
    ensures w.Returned() ==>
      (r in Next(o, Forget(accountId, w)).rows <==> r in o.rows && r.principal.account.accountId != accountId)
    ensures Next(o, Crash).rows == o.file && Next(o, Crash).file == o.file
  {
    WhereMembers(o.rows, Elsewhere(accountId));
  }

  // ---------------------------------------------------------------- the object

  class AdmissionService {
    var rows: seq<Request>
    var file: seq<Request>
    ghost var granted: map<nat, nat>
    ghost var used: set<nat>

    ghost function Abs(): Office reads this { Office(rows, file, granted, used) }

    constructor Load(file: seq<Request>, ghost before: Office)
      requires Sound(before) && file == before.file
      ensures Abs() == Next(before, Crash) && Sound(Abs())
    {
      rows, this.file, granted, used := file, file, before.granted, before.used;
      NextSound(before, Crash);
    }

    method Save(next: seq<Request>, w: FileWrite) returns (failed: bool)
      modifies `rows, `file
      ensures Abs() == Saved(old(Abs()), next, w) && failed == !w.Returned()
    {
      if w.Replaced() { file := next; }
      if w.Returned() { rows := next; }
      failed := !w.Returned();
    }

    method Observe(p: Principal, conversationId: string, kind: Kind, id: nat, version: nat, clock: Clock, w: FileWrite)
      returns (ticket: Option<Request>)
      requires Sound(Abs()) && Enabled(Abs(), Event.Observe(p, conversationId, kind, id, version, clock, w))
      modifies this
      ensures Sound(Abs()) && Abs() == Next(old(Abs()), Event.Observe(p, conversationId, kind, id, version, clock, w))
      ensures ticket.Some? ==> ticket.value in rows && ticket.value.principal == p && clock.Current(ticket.value)
    {
      NextSound(Abs(), Event.Observe(p, conversationId, kind, id, version, clock, w));
      ticket := Answer(p, conversationId, kind, id, version, clock, w);
    }

    method Answer(p: Principal, conversationId: string, kind: Kind, id: nat, version: nat, clock: Clock, w: FileWrite)
      returns (ticket: Option<Request>)
      requires Enabled(Abs(), Event.Observe(p, conversationId, kind, id, version, clock, w))
      modifies this
      ensures Abs() == Next(old(Abs()), Event.Observe(p, conversationId, kind, id, version, clock, w))
      ensures ticket.Some? ==> ticket.value in rows && ticket.value.principal == p && clock.Current(ticket.value)
    {
      if p.account !in clock.accounts || (kind.Group? && p.actorId == conversationId) { return None; }
      var existing := Where(rows, Same(clock, p, conversationId, kind));
      if existing != [] {
        FirstTaken(rows, Same(clock, p, conversationId, kind));
        return Some(existing[0]);
      }
      if Full(rows, clock, p) { return None; }
      ObserveAdds(Abs(), Event.Observe(p, conversationId, kind, id, version, clock, w));
      ticket := Enter(Request(id, version, p, conversationId, kind, clock.now + DAY, Pending), clock, w);
    }

    method Enter(r: Request, clock: Clock, w: FileWrite) returns (ticket: Option<Request>)
      modifies this
      ensures Abs() == Saved(old(Abs()), Added(old(rows), clock, r), w).(used := old(used) + {r.version})
      ensures ticket == if w.Returned() then Some(r) else None
      ensures ticket.Some? ==> r in rows
    {
      used := used + {r.version};
      var next := Added(rows, clock, r);
      assert next[|next| - 1] == r;
      var failed := Save(next, w);
      ticket := if failed then None else Some(r);
    }

    /** `applyChoice`.  `allow` is what the access list was called with: the sender when
        the actor was approved, the whole conversation when that was. */
    method ApplyChoice(id: nat, version: nat, choice: Choice, admitted: bool, threw: bool, clock: Clock, w1: FileWrite,
                       w2: FileWrite)
      returns (allow: Option<Grant>)
      requires Sound(Abs())
      modifies this
      ensures Sound(Abs())
      ensures Abs() == Next(old(Abs()), Decide(id, version, choice, admitted, threw, clock, w1, w2))
      ensures allow.Some? ==> Count(granted, version) == Count(old(granted), version) + 1 == 1
      ensures allow.Some? ==> exists r ::
        && r in old(rows) && r.id == id && r.version == version && r.phase.Pending?
        && allow.value.accountId == r.principal.account.accountId
        && (choice.Actor? ==> allow.value.target == r.principal.actorId)
        && (choice.Conversation? ==> r.kind.Group? && allow.value.target == r.conversationId)
      ensures allow.None? ==> granted == old(granted)
    {
      ghost var e := Decide(id, version, choice, admitted, threw, clock, w1, w2);
      NextSound(Abs(), e);
      allow := None;
      var found := FindPending(id, version, choice, admitted, clock, e);
      if found.Some? {
        var called := Apply(id, version, choice, threw, w1, w2, e);
        var r := found.value;
        if called {
          allow := Some(Grant(r.principal.account.accountId, if choice.Actor? then r.principal.actorId
                                                             else r.conversationId));
        }
      }
    }

    method Apply(id: nat, version: nat, choice: Choice, threw: bool, w1: FileWrite, w2: FileWrite, ghost e: Event)
      returns (allow: bool)
      requires e.Decide? && e.id == id && e.version == version && e.choice == choice && e.threw == threw && e.w1 == w1
      requires e.w2 == w2
      modifies this
      ensures Abs() == Applied(old(Abs()), Rephased(old(rows), id, Applying), Rephased(old(rows), id, Dismissed), e)
      ensures allow <==> !choice.Deny? && w1.Returned()
      ensures granted == if allow then old(granted)[version := Count(old(granted), version) + 1] else old(granted)
    {
      var was := rows;
      var failed := Save(Rephased(was, id, if choice.Deny? then Dismissed else Applying), w1);
      if failed || choice.Deny? { return false; }
      granted := granted[version := Count(granted, version) + 1];
      allow := true;
      if !threw { failed := Save(Rephased(was, id, Dismissed), w2); }
    }

    /** `request` and the checks of `applyChoice` before its first save. */
    method FindPending(id: nat, version: nat, choice: Choice, admitted: bool, clock: Clock, ghost e: Event)
      returns (found: Option<Request>)
      requires Sound(Abs()) && e.Decide? && e.id == id && e.version == version && e.choice == choice
      requires e.admitted == admitted && e.clock == clock
      ensures found.Some? <==> Where(rows, Decided(e)) != []
      ensures found.Some? ==> found.value in rows && Decides(e, found.value) && Count(granted, version) == 0
    {
      var i := 0;
      while i < |rows| && !(rows[i].id == id && rows[i].version == version && clock.Current(rows[i]))
        invariant i <= |rows|
        invariant forall k :: 0 <= k < i ==> !(rows[k].id == id && rows[k].version == version && clock.Current(rows[k]))
      {
        i := i + 1;
      }
      WhereMembers(rows, Decided(e));
      found := None;
      if i < |rows| && rows[i].phase.Pending? && !admitted && (choice.Conversation? ==> rows[i].kind.Group?) {
        found := Some(rows[i]);
        assert rows[i] in Where(rows, Decided(e));
      } else {
        assert forall r :: r in rows && i < |rows| && r.id == id ==> r == rows[i];
        WhereNone(rows, Decided(e));
      }
    }
  }
}
