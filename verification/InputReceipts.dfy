/** `findNativeInputReceipts`: acceptance evidence from a paged history, complete or
    not at all. */
module InputReceipts {
  import opened Common

  /** A history entry; `turnId` is `None` when it is no text. */
  datatype Message = Message(user: bool, clientId: Option<string>, turnId: Option<string>)

  datatype Cursor = End | More(cursor: string) | Malformed

  /** What the k-th read brought: a page, one without a message list, or an error,
      a timeout or an abort. */
  datatype Reply = Page(messages: seq<Message>, next: Cursor) | Incomplete | Failed

  /** Whether the message speaks about the saved input `id`. */
  predicate About(m: Message, id: string) { m.user && id != "" && m.clientId == Some(id) }

  predicate Names(m: Message) { m.turnId.Some? && !Blank(m.turnId.value) }

  // ---------------------------------------------------------------- one pass

  /** The turns that the whole history names for an input. */
  function Turns(history: seq<Message>, id: string): set<string> {
    set k | 0 <= k < |history| && About(history[k], id) && Names(history[k]) :: history[k].turnId.value
  }

  predicate Invalid(history: seq<Message>, id: string) {
    exists k :: 0 <= k < |history| && About(history[k], id) && !Names(history[k])
  }

  /** The receipts are exactly the inputs with one distinct, valid turn. */
  ghost predicate AreReceipts(history: seq<Message>, ids: set<string>, receipts: map<string, string>) {
    && (forall id :: id in receipts <==> id in ids && !Invalid(history, id) && exists t :: Turns(history, id) == {t})
    && (forall id :: id in receipts ==> Turns(history, id) == {receipts[id]})
  }

  lemma ReceiptsAreUnique(history: seq<Message>, ids: set<string>, a: map<string, string>, b: map<string, string>)
    requires AreReceipts(history, ids, a) && AreReceipts(history, ids, b)
    ensures a == b
  {
    forall id | id in a ensures id in b && a[id] == b[id] {
      assert a[id] in Turns(history, id) && b[id] in Turns(history, id);
    }
    assert a.Keys == b.Keys;
  }

  /** Two turns for one input are no evidence. */
  lemma ConflictIsNoReceipt(history: seq<Message>, ids: set<string>, receipts: map<string, string>, id: string, i: nat,
                            j: nat)
    requires AreReceipts(history, ids, receipts) && i < |history| && j < |history|
    requires About(history[i], id) && About(history[j], id) && Names(history[i]) && Names(history[j])
    requires history[i].turnId != history[j].turnId
    ensures id !in receipts
  {
    assert history[i].turnId.value in Turns(history, id) && history[j].turnId.value in Turns(history, id);
  }

  /** Some user message bears the id, and every one that does names `turn`. */
  ghost predicate OnlyNames(history: seq<Message>, id: string, turn: string) {
    && (exists k :: 0 <= k < |history| && history[k].user && history[k].clientId == Some(id))
    && (forall k :: 0 <= k < |history| && history[k].user && history[k].clientId == Some(id) ==>
          history[k].turnId == Some(turn))
  }

  /** Exactly when an input has the receipt `turn`: it was asked for, some user message of the
      whole history bears its id, and every one that does names this turn, which is not
      blank. */
  lemma ReceiptIff(history: seq<Message>, ids: set<string>, receipts: map<string, string>, id: string, turn: string)
    requires AreReceipts(history, ids, receipts)
    ensures id in receipts && receipts[id] == turn <==>
      id in ids && id != "" && (exists c :: c in turn && !IsWhite(c)) && OnlyNames(history, id, turn)
  {
    if id in receipts && receipts[id] == turn { ReceiptNames(history, id, turn); }
    if id != "" && (exists c :: c in turn && !IsWhite(c)) && OnlyNames(history, id, turn) {
      OneTurnNamed(history, id, turn);
    }
  }

  lemma ReceiptNames(history: seq<Message>, id: string, turn: string)
    requires Turns(history, id) == {turn} && !Invalid(history, id)
    ensures id != "" && (exists c :: c in turn && !IsWhite(c)) && OnlyNames(history, id, turn)
  {
    assert turn in Turns(history, id);
    forall k | 0 <= k < |history| && history[k].user && history[k].clientId == Some(id)
      ensures history[k].turnId == Some(turn)
    {
      assert About(history[k], id);
      assert history[k].turnId.value in Turns(history, id);
    }
  }

  lemma OneTurnNamed(history: seq<Message>, id: string, turn: string)
    requires id != "" && (exists c :: c in turn && !IsWhite(c)) && OnlyNames(history, id, turn)
    ensures Turns(history, id) == {turn} && !Invalid(history, id)
  {
    var k :| 0 <= k < |history| && history[k].user && history[k].clientId == Some(id);
    assert About(history[k], id) && Names(history[k]);
    assert history[k].turnId.value in Turns(history, id);
  }

  // ---------------------------------------------------------------- pages

  function History(replies: seq<Reply>): seq<Message> {
    if replies == [] then []
    else
      var last := replies[|replies| - 1];
      History(replies[..|replies| - 1]) + if last.Page? then last.messages else []
  }

  /** The reads so far form pages with new cursors. */
  predicate Continues(replies: seq<Reply>) {
    && (forall k :: 0 <= k < |replies| ==> replies[k].Page? && replies[k].next.More? && replies[k].next.cursor != "")
    && (forall i, j :: 0 <= i < j < |replies| ==> replies[i].next != replies[j].next)
  }

  predicate Ends(r: Reply) { r.Page? && (r.next.End? || r.next == More("")) }

  /** The history is complete after `n + 1` reads. */
  predicate CompleteAt(replies: seq<Reply>, n: nat) {
    n < |replies| && Continues(replies[..n]) && Ends(replies[n])
  }

  /** Exactly when the history is complete after `n + 1` reads: all of them are pages, the last
      one has no cursor or an empty one, and each one before has a cursor of its own. */
  lemma CompleteIff(replies: seq<Reply>, n: nat)
    ensures CompleteAt(replies, n) <==>
      && n < |replies| && (forall k :: 0 <= k <= n ==> replies[k].Page?)
      && (replies[n].next == End || replies[n].next == More(""))
      && (forall k :: 0 <= k < n ==> replies[k].next.More? && replies[k].next.cursor != "")
      && (forall i, k :: 0 <= i < k < n ==> replies[i].next != replies[k].next)
  {
    if n < |replies| { assert forall k :: 0 <= k < n ==> replies[..n][k] == replies[k]; }
  }

  lemma EarlierContinues(replies: seq<Reply>, m: nat, n: nat)
    requires m < n <= |replies| && Continues(replies[..n])
    ensures !Ends(replies[m])
  {
    assert replies[..n][m] == replies[m];
  }

  lemma CompleteOnce(replies: seq<Reply>, m: nat, n: nat)
    requires CompleteAt(replies, m) && CompleteAt(replies, n)
    ensures m == n
  {
    if m < n {
      EarlierContinues(replies, m, n);
    } else if n < m {
      EarlierContinues(replies, n, m);
    }
  }

  // ---------------------------------------------------------------- the scan

  /** `matches` and `invalid` of the source, for one input. */
  ghost predicate Tally(history: seq<Message>, ids: set<string>, matches: map<string, set<string>>,
                        invalid: set<string>) {
    && (forall id :: id in ids ==>
      && (id in matches <==> Turns(history, id) != {})
      && (id in matches ==> matches[id] == Turns(history, id))
      && (id in invalid <==> Invalid(history, id)))
    && (forall id :: id in matches || id in invalid ==> id in ids)
  }

  lemma TurnsStep(history: seq<Message>, m: Message, id: string)
    ensures Turns(history + [m], id) == Turns(history, id) + if About(m, id) && Names(m) then {m.turnId.value} else {}
    ensures Invalid(history + [m], id) <==> Invalid(history, id) || (About(m, id) && !Names(m))
  {
    var all := history + [m];
    assert all[|history|] == m;
    assert forall k :: 0 <= k < |history| ==> all[k] == history[k];
    if Invalid(history, id) {
      var k :| 0 <= k < |history| && About(history[k], id) && !Names(history[k]);
      assert About(all[k], id) && !Names(all[k]);
    }
    if About(m, id) && !Names(m) { assert About(all[|history|], id); }
    forall t | t in Turns(history, id) ensures t in Turns(all, id) {
      var k :| 0 <= k < |history| && About(history[k], id) && Names(history[k]) && history[k].turnId.value == t;
      assert About(all[k], id) && Names(all[k]) && all[k].turnId.value == t;
    }
    if About(m, id) && Names(m) { assert all[|history|].turnId.value in Turns(all, id); }
  }

  /** Fold one page into the tally. */
  method CountPage(ghost before: seq<Message>, page: seq<Message>, ids: set<string>,
                   matches: map<string, set<string>>, invalid: set<string>)
    returns (matches': map<string, set<string>>, invalid': set<string>)
    requires Tally(before, ids, matches, invalid)
    ensures Tally(before + page, ids, matches', invalid')
  {
    matches', invalid' := matches, invalid;
    assert before + page[..0] == before;
    for i := 0 to |page|
      invariant Tally(before + page[..i], ids, matches', invalid')
    {
      assert before + page[..i + 1] == before + page[..i] + [page[i]];
      matches', invalid' := CountMessage(before + page[..i], page[i], ids, matches', invalid');
    }
    assert page[..|page|] == page;
  }

  method CountMessage(ghost before: seq<Message>, message: Message, ids: set<string>,
                      matches: map<string, set<string>>, invalid: set<string>)
    returns (matches': map<string, set<string>>, invalid': set<string>)
    requires Tally(before, ids, matches, invalid)
    ensures Tally(before + [message], ids, matches', invalid')
  {
    matches', invalid' := matches, invalid;
    forall id { TurnsStep(before, message, id); }
    if message.user && message.clientId.Some? && message.clientId.value != "" && message.clientId.value in ids {
      var id := message.clientId.value;
      if message.turnId.None? || Blank(message.turnId.value) {
        invalid' := invalid' + {id};
      } else {
        var turns := if id in matches' then matches'[id] else {};
        matches' := matches'[id := turns + {message.turnId.value}];
      }
    }
  }

  /** One id with one turn and no invalid entry. */
  method Select(ghost history: seq<Message>, ids: set<string>, matches: map<string, set<string>>, invalid: set<string>)
    returns (receipts: map<string, string>)
    requires Tally(history, ids, matches, invalid)
    ensures AreReceipts(history, ids, receipts)
  {
    receipts := map[];
    var rest := matches.Keys;
    while rest != {}
      invariant rest <= matches.Keys
      invariant forall id :: id in receipts <==> id in matches && id !in rest && |matches[id]| == 1 && id !in invalid
      invariant forall id :: id in receipts ==> matches[id] == {receipts[id]}
      decreases |rest|
    {
      var id :| id in rest;
      rest := rest - {id};
      if |matches[id]| == 1 && id !in invalid {
        var t :| t in matches[id];
        Singleton(matches[id], t);
        receipts := receipts[id := t];
      }
    }
    forall id ensures id in receipts <==> id in ids && !Invalid(history, id) && exists t :: Turns(history, id) == {t} {
      if id in matches {
        if t :| Turns(history, id) == {t} {
          assert matches[id] == {t};
        }
      }
    }
  }

  lemma Singleton(s: set<string>, t: string)
    requires |s| == 1 && t in s
    ensures s == {t}
  {
    assert |s - {t}| == 0;
  }

  /** The cursors met so far. */
  predicate Met(replies: seq<Reply>, cursors: set<string>) {
    && (forall k :: 0 <= k < |replies| && replies[k].Page? && replies[k].next.More? ==>
       replies[k].next.cursor in cursors)
    && (forall c :: c in cursors ==> exists k :: 0 <= k < |replies| && replies[k].Page? && replies[k].next == More(c))
  }

  lemma OnePageMore(replies: seq<Reply>, n: nat, cursors: set<string>)
    requires n < |replies| && Continues(replies[..n]) && Met(replies[..n], cursors)
    requires replies[n].Page? && replies[n].next.More? && replies[n].next.cursor != ""
    ensures Continues(replies[..n + 1]) <==> replies[n].next.cursor !in cursors
    ensures Met(replies[..n + 1], cursors + {replies[n].next.cursor})
  {
    var c, before, more := replies[n].next.cursor, replies[..n], replies[..n + 1];
    assert more == before + [replies[n]];
    if c in cursors {
      var k :| 0 <= k < n && before[k].Page? && before[k].next == More(c);
      assert more[k].next == more[n].next;
    }
    forall d | d in cursors + {c} ensures exists k :: 0 <= k < |more| && more[k].Page? && more[k].next == More(d) {
      if d == c {
        assert more[n].next == More(d);
      } else {
        var k :| 0 <= k < n && before[k].Page? && before[k].next == More(d);
        assert more[k].next == More(d);
      }
    }
  }

  lemma PageSpoils(replies: seq<Reply>, at: nat)
    requires at < |replies| && (!replies[at].Page? || replies[at].next.Malformed?)
    ensures !Continues(replies[..at + 1])
  {
    assert replies[..at + 1][at] == replies[at];
  }

  /** A read that neither ends the history nor continues it spoils the scan. */
  lemma NeverComplete(replies: seq<Reply>, at: nat)
    requires at < |replies| && Continues(replies[..at]) && !Ends(replies[at]) && !Continues(replies[..at + 1])
    ensures forall n: nat :: !CompleteAt(replies, n)
  {
    forall n: nat ensures !CompleteAt(replies, n) {
      if n < at { EarlierContinues(replies, n, at); }
      if at < n <= |replies| && Continues(replies[..n]) {
        assert replies[..n][..at + 1] == replies[..at + 1];
        ContinuesBefore(replies[..n], at + 1);
      }
    }
  }

  lemma ContinuesBefore(replies: seq<Reply>, n: nat)
    requires Continues(replies) && n <= |replies|
    ensures Continues(replies[..n])
  {
  }

  lemma BudgetSpent(replies: seq<Reply>, n: nat)
    requires n <= |replies| && Continues(replies[..n])
    ensures forall m: nat :: m < n ==> !CompleteAt(replies, m)
  {
    forall m: nat | m < n ensures !CompleteAt(replies, m) { EarlierContinues(replies, m, n); }
  }

  /** The whole scan.  `replies[k]` is what the k-th read would bring; it stops
      within its page budget.  Receipts come out exactly when the pages are complete
      within it, and they are those of a single pass over the whole history. */
  method FindNativeInputReceipts(replies: seq<Reply>, ids: set<string>, maxPages: nat)
    returns (found: Option<map<string, string>>)
    requires |replies| >= maxPages
    ensures found.Some? <==> exists n: nat :: n < maxPages && CompleteAt(replies, n)
    ensures forall n: nat :: n < maxPages && CompleteAt(replies, n) ==>
      AreReceipts(History(replies[..n + 1]), ids, found.value)
  {
    var matches: map<string, set<string>>, invalid: set<string>, cursors: set<string> := map[], {}, {};
    var pageNumber := 0;
    while pageNumber < maxPages
      invariant 0 <= pageNumber <= maxPages
      invariant Continues(replies[..pageNumber]) && Met(replies[..pageNumber], cursors)
      invariant Tally(History(replies[..pageNumber]), ids, matches, invalid)
    {
      var page := replies[pageNumber];
      if !page.Page? {
        PageSpoils(replies, pageNumber);
        NeverComplete(replies, pageNumber);
        return None;
      }
      assert replies[..pageNumber + 1][..pageNumber] == replies[..pageNumber];
      matches, invalid := CountPage(History(replies[..pageNumber]), page.messages, ids, matches, invalid);
      if page.next.End? || page.next == More("") {
        var receipts := Select(History(replies[..pageNumber + 1]), ids, matches, invalid);
        assert CompleteAt(replies, pageNumber);
        forall n: nat | CompleteAt(replies, n) ensures n == pageNumber { CompleteOnce(replies, n, pageNumber); }
        return Some(receipts);
      }
      if page.next.Malformed? {
        PageSpoils(replies, pageNumber);
        NeverComplete(replies, pageNumber);
        return None;
      }
      OnePageMore(replies, pageNumber, cursors);
      if page.next.cursor in cursors {
        NeverComplete(replies, pageNumber);
        return None;
      }
      cursors := cursors + {page.next.cursor};
      pageNumber := pageNumber + 1;
    }
    BudgetSpent(replies, pageNumber);
    return None;
  }

  /** How the history was cut into pages does not matter. */
  lemma PagingIsInvisible(a: seq<Reply>, b: seq<Reply>, m: nat, n: nat, ids: set<string>, ra: map<string, string>,
                          rb: map<string, string>)
    requires CompleteAt(a, m) && CompleteAt(b, n) && History(a[..m + 1]) == History(b[..n + 1])
    requires AreReceipts(History(a[..m + 1]), ids, ra) && AreReceipts(History(b[..n + 1]), ids, rb)
    ensures ra == rb
  {
    ReceiptsAreUnique(History(a[..m + 1]), ids, ra, rb);
  }
}
