/**
 The ingestion ledger: which executions of a connection were stored, errored or skipped, and
 what the cursor promises about them over any sequence of polls, failures and crashes included.
 */
module Ingestion {
  import opened Common

  /** The outcome of fetching one execution: a row, a failed fetch, or one that has not started. */
  datatype Fetch = Row | Error | Skip

  /** One page of a listing; rows without a usable id are only counted. */
  datatype Page = Page(ids: seq<int>, skipped: nat, more: bool)

  const CONCURRENCY: nat := 10

  // ---- Discovery -------------------------------------------------------------------------

  predicate Seen(prev: Option<int>, id: int) { prev.Some? && id <= prev.value }

  /** The ids of a page before the first one already seen. */
  function Unseen(ids: seq<int>, prev: Option<int>): seq<int>
  {
    if ids == [] || Seen(prev, ids[0]) then [] else [ids[0]] + Unseen(ids[1..], prev)
  }

  function AllIds(pages: seq<Page>): seq<int> { if pages == [] then [] else pages[0].ids + AllIds(pages[1..]) }

  /** What a poll discovers: one page on the first run, otherwise everything before the first seen id. */
  function Discovered(pages: seq<Page>, prev: Option<int>): seq<int>
  {
    if prev.None? then (if pages == [] then [] else pages[0].ids) else Unseen(AllIds(pages), prev)
  }

  /** Whether no page is asked for after the first of these: the first run, an id already seen, or no more pages. */
  predicate StopsAtFirst(pages: seq<Page>, prev: Option<int>)
  {
    |pages| <= 1 || prev.None? || Unseen(pages[0].ids, prev) != pages[0].ids
  }

  /** How many pages the paging loop asks for. */
  function PagesRead(pages: seq<Page>, prev: Option<int>): nat
  {
    if StopsAtFirst(pages, prev) then 1 else 1 + PagesRead(pages[1..], prev)
  }

  /** The rows without a usable id on the first `n` pages. */
  function ListSkipped(pages: seq<Page>, n: nat): nat
    requires n <= |pages|
  {
    if n == 0 then 0 else ListSkipped(pages, n - 1) + pages[n - 1].skipped
  }

  lemma {:induction false} PagesReadAtMost(pages: seq<Page>, prev: Option<int>)
    requires pages != []
    ensures 1 <= PagesRead(pages, prev) <= |pages|
  {
    if !StopsAtFirst(pages, prev) { PagesReadAtMost(pages[1..], prev); }
  }

  /** Whether the listing comes through: the failing page, if any, is never asked for. */
  predicate Listed(pages: seq<Page>, prev: Option<int>, failsAt: Option<nat>)
  {
    failsAt.Some? ==> PagesRead(pages, prev) <= failsAt.value
  }

  predicate NewestFirst(ids: seq<int>) { forall i, j | 0 <= i < j < |ids| :: ids[j] < ids[i] }

  /** Only the last page says that there are no more. */
  predicate WellPaged(pages: seq<Page>)
  {
    pages != [] && forall i | 0 <= i < |pages| :: pages[i].more <==> i + 1 < |pages|
  }

  lemma {:induction false} AllUnseenConcat(a: seq<int>, b: seq<int>, prev: Option<int>)
    requires Unseen(a, prev) == a
    ensures Unseen(a + b, prev) == a + Unseen(b, prev)
  {
    if a == [] {
      assert a + b == b;
    } else {
      assert Unseen(a[1..], prev) == a[1..];
      AllUnseenConcat(a[1..], b, prev);
      assert (a + b)[1..] == a[1..] + b;
      assert a + Unseen(b, prev) == [a[0]] + (a[1..] + Unseen(b, prev));
    }
  }

  lemma {:induction false} SomeSeenConcat(a: seq<int>, b: seq<int>, prev: Option<int>)
    requires Unseen(a, prev) != a
    ensures Unseen(a + b, prev) == Unseen(a, prev)
  {
    if !Seen(prev, a[0]) {
      assert a == [a[0]] + a[1..];
      SomeSeenConcat(a[1..], b, prev);
      assert (a + b)[1..] == a[1..] + b;
    }
  }

  lemma {:induction false} UnseenConcat(a: seq<int>, b: seq<int>, prev: Option<int>)
    ensures Unseen(a + b, prev) == if Unseen(a, prev) == a then a + Unseen(b, prev) else Unseen(a, prev)
  {
    if Unseen(a, prev) == a { AllUnseenConcat(a, b, prev); } else { SomeSeenConcat(a, b, prev); }
  }

  /** A listing newest first loses nothing by stopping at the first seen id. */
  lemma {:induction false} UnseenIsComplete(ids: seq<int>, prev: Option<int>, id: int)
    requires NewestFirst(ids)
    ensures id in Unseen(ids, prev) <==> id in ids && !Seen(prev, id)
  {
    if ids != [] {
      assert NewestFirst(ids[1..]);
      UnseenIsComplete(ids[1..], prev, id);
      assert ids == [ids[0]] + ids[1..];
      if Seen(prev, ids[0]) && id in ids {
        var i :| 0 <= i < |ids| && ids[i] == id;
        assert id <= ids[0];
      }
    }
  }

  lemma {:induction false} UnseenOfPage(ids: seq<int>, prev: Option<int>, n: nat)
    requires n <= |ids| && forall i | 0 <= i < n :: !Seen(prev, ids[i])
    ensures n < |ids| && Seen(prev, ids[n]) ==> Unseen(ids, prev) == ids[..n]
    ensures n == |ids| ==> Unseen(ids, prev) == ids
    decreases n
  {
    if n > 0 {
      UnseenOfPage(ids[1..], prev, n - 1);
      assert ids == [ids[0]] + ids[1..];
      if n < |ids| { assert ids[..n] == [ids[0]] + ids[1..][..n - 1]; }
    }
  }

  lemma {:induction false} AllIdsAppend(a: seq<Page>, b: seq<Page>)
    ensures AllIds(a + b) == AllIds(a) + AllIds(b)
  {
    if a == [] {
      assert a + b == b;
    } else {
      AllIdsAppend(a[1..], b);
      assert (a + b)[1..] == a[1..] + b && (a + b)[0] == a[0];
      Associative(a[0].ids, AllIds(a[1..]), AllIds(b));
    }
  }

  lemma AllIdsOfOne(page: Page)
    ensures AllIds([page]) == page.ids
  {
    assert [page][1..] == [];
  }

  lemma AllIdsAround(a: seq<Page>, page: Page, b: seq<Page>)
    ensures AllIds(a + [page]) == AllIds(a) + page.ids
    ensures AllIds(a + [page] + b) == AllIds(a) + page.ids + AllIds(b)
  {
    AllIdsAppend(a, [page]);
    AllIdsOfOne(page);
    AllIdsAppend(a + [page], b);
  }

  lemma SliceAround(pages: seq<Page>, n: nat)
    requires n < |pages|
    ensures pages[..n + 1] == pages[..n] + [pages[n]]
    ensures pages == pages[..n] + [pages[n]] + pages[n + 1..]
  {
  }

  lemma AllIdsConcat(pages: seq<Page>, n: nat)
    requires n < |pages|
    ensures AllIds(pages) == AllIds(pages[..n]) + pages[n].ids + AllIds(pages[n + 1..])
    ensures AllIds(pages[..n + 1]) == AllIds(pages[..n]) + pages[n].ids
  {
    SliceAround(pages, n);
    AllIdsAround(pages[..n], pages[n], pages[n + 1..]);
  }

  lemma {:induction false} NothingSeenYet(ids: seq<int>)
    ensures Unseen(ids, None) == ids
  {
    if ids != [] { NothingSeenYet(ids[1..]); }
  }

  /** Reading page `i` when every id so far was new: go on past it, or stop with what was discovered. */
  lemma ReadingPage(pages: seq<Page>, prev: Option<int>, i: nat, ids: seq<int>)
    requires WellPaged(pages) && i < |pages| && (i > 0 ==> prev.Some?)
    requires ids == AllIds(pages[..i]) && Unseen(ids, prev) == ids
    ensures var u := Unseen(pages[i].ids, prev);
            && (prev.None? || u != pages[i].ids || !pages[i].more ==> Discovered(pages, prev) == ids + u)
            && (u == pages[i].ids ==> AllIds(pages[..i + 1]) == ids + u && Unseen(ids + u, prev) == ids + u)
  {
    var u := Unseen(pages[i].ids, prev);
    AllIdsConcat(pages, i);
    UnseenConcat(ids, pages[i].ids, prev);
    if prev.None? {
      NothingSeenYet(pages[i].ids);
    } else {
      UnseenConcat(ids + pages[i].ids, AllIds(pages[i + 1..]), prev);
      if u != pages[i].ids { assert ids + u != ids + pages[i].ids by { SameTail(ids, u, pages[i].ids); } }
    }
  }

  lemma SameTail(a: seq<int>, x: seq<int>, y: seq<int>)
    ensures a + x == a + y ==> x == y
  {
    assert x == (a + x)[|a|..] && y == (a + y)[|a|..];
  }

  /** The loop over one page: how many ids come before the first seen one. */
  method ReadPage(ids: seq<int>, prev: Option<int>) returns (n: nat)
    ensures n <= |ids| && Unseen(ids, prev) == ids[..n]
  {
    n := 0;
    while n < |ids| && !Seen(prev, ids[n])
      invariant 0 <= n <= |ids| && forall k | 0 <= k < n :: !Seen(prev, ids[k])
    {
      n := n + 1;
    }
    UnseenOfPage(ids, prev, n);
    assert n == |ids| ==> ids[..n] == ids;
  }

  /** When the loop leaves page `i`, `n` of whose ids were new, for another one. */
  lemma PageDecides(pages: seq<Page>, prev: Option<int>, i: nat, n: nat)
    requires WellPaged(pages) && i < |pages| && n <= |pages[i].ids| && Unseen(pages[i].ids, prev) == pages[i].ids[..n]
    ensures n == |pages[i].ids| ==> Unseen(pages[i].ids, prev) == pages[i].ids
    ensures PagesRead(pages[i..], prev)
            == if prev.None? || n < |pages[i].ids| || !pages[i].more then 1 else 1 + PagesRead(pages[i + 1..], prev)
  {
    assert n == |pages[i].ids| ==> pages[i].ids[..n] == pages[i].ids;
    assert pages[i..][0] == pages[i];
    if i + 1 < |pages| { assert pages[i..][1..] == pages[i + 1..]; }
  }

  /** Every id of the first `i` pages was new. */
  ghost predicate ReadUpTo(pages: seq<Page>, prev: Option<int>, i: nat, ids: seq<int>, listSkipped: nat)
    requires i < |pages|
  {
    && (i > 0 ==> prev.Some?) && ids == AllIds(pages[..i]) && Unseen(ids, prev) == ids
    && i < PagesRead(pages, prev) == i + PagesRead(pages[i..], prev) && listSkipped == ListSkipped(pages, i)
  }

  /** Page `i`, `n` of whose ids were new, is the last one or leads to the next. */
  lemma PageIsRead(pages: seq<Page>, prev: Option<int>, i: nat, ids: seq<int>, listSkipped: nat, n: nat)
    requires WellPaged(pages) && i < |pages| && ReadUpTo(pages, prev, i, ids, listSkipped)
    requires n <= |pages[i].ids| && Unseen(pages[i].ids, prev) == pages[i].ids[..n]
    ensures if prev.None? || n < |pages[i].ids| || !pages[i].more then
              && Discovered(pages, prev) == ids + pages[i].ids[..n] && PagesRead(pages, prev) == i + 1
              && listSkipped + pages[i].skipped == ListSkipped(pages, i + 1)
            else
              i + 1 < |pages| && ReadUpTo(pages, prev, i + 1, ids + pages[i].ids[..n], listSkipped + pages[i].skipped)
  {
    ReadingPage(pages, prev, i, ids);
    PageDecides(pages, prev, i, n);
    if pages[i].more { PagesReadAtMost(pages[i + 1..], prev); }
  }

  /** The paging loop. None is a listing that failed, at page `failsAt`, before the loop was done. */
  method Discover(pages: seq<Page>, prev: Option<int>, failsAt: Option<nat>) returns (found: Option<seq<int>>, listSkipped: nat)
    requires WellPaged(pages)
    ensures found == if Listed(pages, prev, failsAt) then Some(Discovered(pages, prev)) else None
    ensures PagesRead(pages, prev) <= |pages|
    ensures found.Some? ==> listSkipped == ListSkipped(pages, PagesRead(pages, prev))
  {
    var ids: seq<int> := [];
    listSkipped := 0;
    var i := 0;
    PagesReadAtMost(pages, prev);
    while true
      invariant 0 <= i < |pages| && ReadUpTo(pages, prev, i, ids, listSkipped)
      invariant failsAt.Some? ==> i <= failsAt.value
      decreases |pages| - i
    {
      if failsAt == Some(i) { return None, listSkipped; }
      var page := pages[i];
      var n := ReadPage(page.ids, prev);
      PageIsRead(pages, prev, i, ids, listSkipped, n);
      listSkipped := listSkipped + page.skipped;
      ids := ids + page.ids[..n];
      if prev.None? { break; } // first run: only the most recent page
      if n < |page.ids| { break; } // reached an id already seen
      if !page.more { break; }
      i := i + 1;
    }
    found := Some(ids);
  }

  // ---- Fetching ----------------------------------------------------------------------------

  function One(id: int, fetch: int -> Fetch, kind: Fetch): seq<int> { if fetch(id) == kind then [id] else [] }

  /** The ids of one outcome, in order. */
  function Having(ids: seq<int>, fetch: int -> Fetch, kind: Fetch): seq<int>
  {
    if ids == [] then [] else One(ids[0], fetch, kind) + Having(ids[1..], fetch, kind)
  }

  lemma {:induction false} HavingConcat(a: seq<int>, b: seq<int>, fetch: int -> Fetch, kind: Fetch)
    ensures Having(a + b, fetch, kind) == Having(a, fetch, kind) + Having(b, fetch, kind)
  {
    if a == [] {
      assert a + b == b;
    } else {
      HavingConcat(a[1..], b, fetch, kind);
      assert (a + b)[1..] == a[1..] + b && (a + b)[0] == a[0];
      Associative(One(a[0], fetch, kind), Having(a[1..], fetch, kind), Having(b, fetch, kind));
    }
  }

  lemma {:induction false} HavingExactly(ids: seq<int>, fetch: int -> Fetch, kind: Fetch, id: int)
    ensures id in Having(ids, fetch, kind) <==> id in ids && fetch(id) == kind
  {
    if ids != [] {
      HavingExactly(ids[1..], fetch, kind, id);
      assert ids == [ids[0]] + ids[1..];
    }
  }

  /** The three outcomes account for every id once. */
  lemma {:induction false} OutcomesAddUp(ids: seq<int>, fetch: int -> Fetch)
    ensures |Having(ids, fetch, Row)| + |Having(ids, fetch, Error)| + |Having(ids, fetch, Skip)| == |ids|
  {
    if ids != [] { OutcomesAddUp(ids[1..], fetch); }
  }

  lemma HavingNext(ids: seq<int>, i: nat, fetch: int -> Fetch, kind: Fetch)
    requires i < |ids|
    ensures Having(ids[..i + 1], fetch, kind) == Having(ids[..i], fetch, kind) + One(ids[i], fetch, kind)
  {
    assert ids[..i + 1] == ids[..i] + [ids[i]];
    HavingConcat(ids[..i], [ids[i]], fetch, kind);
    assert [ids[i]][1..] == [];
  }

  /** One chunk of at most CONCURRENCY fetches, settled together. */
  method Settle(chunk: seq<int>, fetch: int -> Fetch, rows: seq<int>, errors: nat, skips: nat)
    returns (rows': seq<int>, errors': nat, skips': nat)
    ensures rows' == rows + Having(chunk, fetch, Row)
    ensures errors' == errors + |Having(chunk, fetch, Error)| && skips' == skips + |Having(chunk, fetch, Skip)|
  {
    rows', errors', skips' := rows, errors, skips;
    for i := 0 to |chunk|
      invariant rows' == rows + Having(chunk[..i], fetch, Row)
      invariant errors' == errors + |Having(chunk[..i], fetch, Error)| && skips' == skips + |Having(chunk[..i], fetch, Skip)|
    {
      var id := chunk[i];
      HavingNext(chunk, i, fetch, Row);
      HavingNext(chunk, i, fetch, Error);
      HavingNext(chunk, i, fetch, Skip);
      match fetch(id)
      case Row => rows' := rows' + [id];
      case Error => errors' := errors' + 1;
      case Skip => skips' := skips' + 1;
    }
    assert chunk[..|chunk|] == chunk;
  }

  /** The chunk loop: every discovered id is fetched once, in order, ten at a time. */
  method FetchAll(ids: seq<int>, fetch: int -> Fetch) returns (rows: seq<int>, errors: nat, skips: nat)
    ensures rows == Having(ids, fetch, Row)
    ensures errors == |Having(ids, fetch, Error)| && skips == |Having(ids, fetch, Skip)|
    ensures |rows| + errors + skips == |ids|
  {
    rows, errors, skips := [], 0, 0;
    var i := 0;
    while i < |ids|
      invariant 0 <= i <= |ids|
      invariant rows == Having(ids[..i], fetch, Row)
      invariant errors == |Having(ids[..i], fetch, Error)| && skips == |Having(ids[..i], fetch, Skip)|
    {
      var end := if i + CONCURRENCY < |ids| then i + CONCURRENCY else |ids|;
      assert ids[..end] == ids[..i] + ids[i..end];
      HavingConcat(ids[..i], ids[i..end], fetch, Row);
      HavingConcat(ids[..i], ids[i..end], fetch, Error);
      HavingConcat(ids[..i], ids[i..end], fetch, Skip);
      rows, errors, skips := Settle(ids[i..end], fetch, rows, errors, skips);
      i := end;
    }
    assert ids[..i] == ids;
    OutcomesAddUp(ids, fetch);
  }

  /** The reduce over the discovered ids. */
  method MaxSeen(ids: seq<int>, prev: Option<int>) returns (cursor: Option<int>)
    ensures cursor == NewCursor(ids, prev)
  {
    cursor := prev;
    for i := 0 to |ids|
      invariant cursor == NewCursor(ids[..i], prev)
    {
      NewCursorStep(ids[..i], ids[i], prev);
      assert ids[..i + 1] == ids[..i] + [ids[i]];
      cursor := Some(if cursor.Some? then Max(cursor.value, ids[i]) else ids[i]);
    }
    assert ids[..|ids|] == ids;
  }

  function NewCursor(ids: seq<int>, prev: Option<int>): Option<int>
  {
    if ids == [] then prev
    else
      var rest := NewCursor(ids[..|ids| - 1], prev);
      var last := ids[|ids| - 1];
      Some(if rest.Some? then Max(rest.value, last) else last)
  }

  lemma NewCursorStep(ids: seq<int>, id: int, prev: Option<int>)
    ensures NewCursor(ids + [id], prev)
            == Some(if NewCursor(ids, prev).Some? then Max(NewCursor(ids, prev).value, id) else id)
  {
    assert (ids + [id])[..|ids|] == ids;
  }

  /** The new cursor covers the old one and every discovered id, and is one of them. */
  lemma {:induction false} CursorCovers(ids: seq<int>, prev: Option<int>)
    ensures prev.Some? ==> NewCursor(ids, prev).Some? && prev.value <= NewCursor(ids, prev).value
    ensures forall id | id in ids :: NewCursor(ids, prev).Some? && id <= NewCursor(ids, prev).value
    ensures NewCursor(ids, prev) != prev ==> NewCursor(ids, prev).Some? && NewCursor(ids, prev).value in ids
  {
    if ids != [] {
      CursorCovers(ids[..|ids| - 1], prev);
      assert ids == ids[..|ids| - 1] + [ids[|ids| - 1]];
    }
  }

  // ---- The ledger --------------------------------------------------------------------------

  /**
   `cursor` and `stored` are the database's; the rest is what a reader of the log knows: the
   ids a committed poll errored or skipped, every id such a poll's listing showed, and the ids
   stored by a poll that crashed before recording itself.
   */
  datatype Ledger = Ledger(cursor: Option<int>, stored: set<int>, errored: set<int>, skipped: set<int>, shown: set<int>, early: set<int>)

  datatype Crash = NoCrash | BeforeUpsert | BeforeCursor

  /** One poll of the connection. */
  datatype Poll = Poll(pages: seq<Page>, failsAt: Option<nat>, fetch: int -> Fetch, crash: Crash)

  function Ids(s: seq<int>): set<int> { set id | id in s }

  function News(l: Ledger, p: Poll): seq<int> { Discovered(p.pages, l.cursor) }

  function Of(l: Ledger, p: Poll, kind: Fetch): set<int> { Ids(Having(News(l, p), p.fetch, kind)) }

  /** What a poll leaves. `listed` says whether its listing came through. */
  function Polled(l: Ledger, p: Poll, listed: bool): Ledger
  {
    if !listed || p.crash.BeforeUpsert? then l
    else if p.crash.BeforeCursor? then l.(stored := l.stored + Of(l, p, Row), early := l.early + Of(l, p, Row))
    else
      var cursor := NewCursor(News(l, p), l.cursor);
      Ledger(cursor, l.stored + Of(l, p, Row), l.errored + Of(l, p, Error), l.skipped + Of(l, p, Skip),
             if cursor.Some? then l.shown + Ids(AllIds(p.pages)) else l.shown, l.early)
  }

  /** A listing newest first, in which no id turns up late below the cursor. */
  predicate FairListing(l: Ledger, p: Poll)
  {
    && WellPaged(p.pages) && NewestFirst(AllIds(p.pages))
    && (forall id | id in AllIds(p.pages) && Seen(l.cursor, id) :: id in l.shown)
  }

  /** Every id shown above `base` and up to the cursor is accounted for, and in one way unless a crash stored it early. */
  ghost predicate Accounted(l: Ledger, base: int, id: int)
  {
    && (base < id && Seen(l.cursor, id) ==> id in l.stored || id in l.errored || id in l.skipped)
    && !(id in l.errored && id in l.skipped)
    && (id in l.stored && (id in l.errored || id in l.skipped) ==> id in l.early)
  }

  ghost predicate LedgerOk(l: Ledger, base: int)
  {
    && (forall id | id in l.shown :: Accounted(l, base, id) && Seen(l.cursor, id))
    && (forall id | id in l.errored || id in l.skipped :: id in l.shown)
    && (forall id | id in l.stored && id !in l.early :: id in l.shown)
    && (l.cursor.Some? ==> base <= l.cursor.value)
  }

  lemma DiscoveredIsComplete(l: Ledger, p: Poll, id: int)
    requires FairListing(l, p)
    ensures id in News(l, p) ==> id in AllIds(p.pages) && !Seen(l.cursor, id)
    ensures l.cursor.Some? && id in AllIds(p.pages) && !Seen(l.cursor, id) ==> id in News(l, p)
  {
    if l.cursor.Some? {
      UnseenIsComplete(AllIds(p.pages), l.cursor, id);
    } else {
      assert AllIds(p.pages) == p.pages[0].ids + AllIds(p.pages[1..]);
    }
  }

  lemma OfExactly(l: Ledger, p: Poll, kind: Fetch, id: int)
    ensures id in Of(l, p, kind) <==> id in News(l, p) && p.fetch(id) == kind
  {
    HavingExactly(News(l, p), p.fetch, kind, id);
  }

  /** What a committed poll makes of one id. */
  lemma CommitTells(l: Ledger, p: Poll, id: int)
    requires FairListing(l, p) && p.crash.NoCrash?
    ensures var t := Polled(l, p, true);
            && (id in News(l, p) ==> id in t.shown && Seen(t.cursor, id) && !Seen(l.cursor, id))
            && (Seen(l.cursor, id) ==> Seen(t.cursor, id))
            && (id in t.stored <==> id in l.stored || (id in News(l, p) && p.fetch(id).Row?))
            && (id in t.errored <==> id in l.errored || (id in News(l, p) && p.fetch(id).Error?))
            && (id in t.skipped <==> id in l.skipped || (id in News(l, p) && p.fetch(id).Skip?))
  {
    DiscoveredIsComplete(l, p, id);
    OfExactly(l, p, Row, id);
    OfExactly(l, p, Error, id);
    OfExactly(l, p, Skip, id);
    CursorCovers(News(l, p), l.cursor);
  }

  lemma CommitAccounts(l: Ledger, p: Poll, base: int, id: int)
    requires FairListing(l, p) && LedgerOk(l, base) && p.crash.NoCrash? && l.cursor.Some?
    requires id in Polled(l, p, true).shown
    ensures Accounted(Polled(l, p, true), base, id) && Seen(Polled(l, p, true).cursor, id)
  {
    CommitTells(l, p, id);
    DiscoveredIsComplete(l, p, id);
    if id in l.shown {
      assert Accounted(l, base, id) && Seen(l.cursor, id);
    } else {
      assert id in AllIds(p.pages);
    }
  }

  /** Once there is a cursor, every poll keeps the ledger: committed, failed or crashed. */
  lemma PollKeepsLedger(l: Ledger, p: Poll, base: int)
    requires FairListing(l, p) && LedgerOk(l, base) && l.cursor.Some?
    ensures LedgerOk(Polled(l, p, Listed(p.pages, l.cursor, p.failsAt)), base)
  {
    var t := Polled(l, p, Listed(p.pages, l.cursor, p.failsAt));
    if Listed(p.pages, l.cursor, p.failsAt) && p.crash.NoCrash? {
      CursorCovers(News(l, p), l.cursor);
      forall id | id in t.shown ensures Accounted(t, base, id) && Seen(t.cursor, id) { CommitAccounts(l, p, base, id); }
      forall id | id in t.errored || id in t.skipped ensures id in t.shown { CommitTells(l, p, id); }
      forall id | id in t.stored && id !in t.early ensures id in t.shown { CommitTells(l, p, id); }
    } else {
      forall id | id in t.shown ensures Accounted(t, base, id) && Seen(t.cursor, id) { assert Accounted(l, base, id); }
    }
  }

  // ---- The first run ---------------------------------------------------------------------------

  /** A connection nobody has polled to the end yet; crashed polls may have stored rows. */
  predicate Untouched(l: Ledger)
  {
    l.cursor.None? && l.errored == {} && l.skipped == {} && l.shown == {} && l.stored == l.early
  }

  /** Just below the oldest id of the first page. */
  function FirstBase(p: Poll): int
    requires p.pages != [] && p.pages[0].ids != []
  {
    p.pages[0].ids[|p.pages[0].ids| - 1] - 1
  }

  /** The first committed poll opens the books from the oldest id of its page. */
  lemma FirstCommitOpensLedger(l: Ledger, p: Poll)
    requires FairListing(l, p) && Untouched(l) && p.crash.NoCrash? && p.pages[0].ids != []
    ensures LedgerOk(Polled(l, p, true), FirstBase(p)) && Polled(l, p, true).cursor.Some?
  {
    var t := Polled(l, p, true);
    var (all, first) := (AllIds(p.pages), p.pages[0].ids);
    CursorCovers(first, None);
    assert all == first + AllIds(p.pages[1..]);
    assert first[0] in first;
    forall id | id in t.shown ensures Accounted(t, FirstBase(p), id) && Seen(t.cursor, id) {
      CommitTells(l, p, id);
      var i :| 0 <= i < |all| && all[i] == id;
      if i >= |first| { assert all[|first| - 1] == first[|first| - 1]; }
      assert id <= all[0] == first[0];
    }
    forall id | id in t.errored || id in t.skipped ensures id in t.shown { CommitTells(l, p, id); }
    forall id | id in t.stored && id !in t.early ensures id in t.shown { CommitTells(l, p, id); }
  }

  /** History beyond the first page is never ingested: it lies under the cursor, unaccounted, for good. */
  lemma FirstRunLeavesHistory(l: Ledger, p: Poll, id: int)
    requires FairListing(l, p) && Untouched(l) && p.crash.NoCrash? && p.pages[0].ids != []
    requires id in AllIds(p.pages) && id !in p.pages[0].ids
    ensures var t := Polled(l, p, true);
            && Seen(t.cursor, id) && id <= FirstBase(p) && id !in t.errored && id !in t.skipped && (id in t.stored ==> id in l.early)
  {
    var (all, first) := (AllIds(p.pages), p.pages[0].ids);
    CommitTells(l, p, id);
    CursorCovers(first, None);
    assert all == first + AllIds(p.pages[1..]);
    assert first[0] in first;
    var i :| 0 <= i < |all| && all[i] == id;
    assert i >= |first|;
    assert all[|first| - 1] == first[|first| - 1];
  }

  // ---- Runs of polls -----------------------------------------------------------------------------

  function After(l: Ledger, polls: seq<Poll>): Ledger
    decreases |polls|
  {
    if polls == [] then l else After(Polled(l, polls[0], Listed(polls[0].pages, l.cursor, polls[0].failsAt)), polls[1..])
  }

  predicate FairRun(l: Ledger, polls: seq<Poll>)
    decreases |polls|
  {
    polls != [] ==>
      FairListing(l, polls[0]) && FairRun(Polled(l, polls[0], Listed(polls[0].pages, l.cursor, polls[0].failsAt)), polls[1..])
  }

  /** Over any sequence of polls, failed listings and crashes included, the books stay right and the cursor never goes back. */
  lemma {:induction false} LedgerStaysRight(l: Ledger, polls: seq<Poll>, base: int)
    requires LedgerOk(l, base) && l.cursor.Some? && FairRun(l, polls)
    ensures LedgerOk(After(l, polls), base)
    ensures After(l, polls).cursor.Some? && l.cursor.value <= After(l, polls).cursor.value
    decreases |polls|
  {
    if polls != [] {
      var p := polls[0];
      PollKeepsLedger(l, p, base);
      CursorCovers(News(l, p), l.cursor);
      LedgerStaysRight(Polled(l, p, Listed(p.pages, l.cursor, p.failsAt)), polls[1..], base);
    }
  }

  /** The poll that opens the books: the first one that lists a page with an id on it and gets to its end. */
  predicate Opens(l: Ledger, p: Poll)
    requires p.pages != []
  {
    Listed(p.pages, l.cursor, p.failsAt) && p.crash.NoCrash? && p.pages[0].ids != []
  }

  /** Where the books of a run from an untouched connection begin, if any poll opens them. */
  function BooksBase(l: Ledger, polls: seq<Poll>): Option<int>
    requires FairRun(l, polls)
    decreases |polls|
  {
    if polls == [] then None
    else if Opens(l, polls[0]) then Some(FirstBase(polls[0]))
    else BooksBase(Polled(l, polls[0], Listed(polls[0].pages, l.cursor, polls[0].failsAt)), polls[1..])
  }

  /** A poll that fails, crashes or finds an empty page leaves the connection untouched. */
  lemma UntouchedStays(l: Ledger, p: Poll)
    requires FairListing(l, p) && Untouched(l) && !Opens(l, p)
    ensures Untouched(Polled(l, p, Listed(p.pages, l.cursor, p.failsAt)))
  {
    if Listed(p.pages, l.cursor, p.failsAt) && p.crash.NoCrash? {
      assert News(l, p) == [];
      assert Of(l, p, Row) == {} && Of(l, p, Error) == {} && Of(l, p, Skip) == {};
    }
  }

  /**
   From the first poll of a connection on: until one opens the books nothing is on them, and
   from then on they are right, down to the oldest id of that poll's first page.
   */
  lemma {:induction false} LedgerIsRightFromTheStart(l: Ledger, polls: seq<Poll>)
    requires Untouched(l) && FairRun(l, polls)
    ensures match BooksBase(l, polls)
            case None => Untouched(After(l, polls))
            case Some(base) => LedgerOk(After(l, polls), base) && After(l, polls).cursor.Some?
    decreases |polls|
  {
    if polls != [] {
      var p := polls[0];
      var t := Polled(l, p, Listed(p.pages, l.cursor, p.failsAt));
      if Opens(l, p) {
        FirstCommitOpensLedger(l, p);
        LedgerStaysRight(t, polls[1..], FirstBase(p));
      } else {
        UntouchedStays(l, p);
        LedgerIsRightFromTheStart(t, polls[1..]);
      }
    }
  }

  /**
   A poll stores and at the same time errors or skips an id exactly when an earlier poll had
   stored it and crashed before moving the cursor, and now its fetch gives no row.
   */
  lemma BothIffCrashed(l: Ledger, p: Poll, base: int, id: int)
    requires FairListing(l, p) && LedgerOk(l, base) && l.cursor.Some? && p.crash.NoCrash? && id in News(l, p)
    ensures var t := Polled(l, p, true);
            (id in t.stored && (id in t.errored || id in t.skipped)) <==> (id in l.early && id in l.stored && !p.fetch(id).Row?)
  {
    CommitTells(l, p, id);
    assert id !in l.shown;
    assert id !in l.errored && id !in l.skipped && (id in l.stored ==> id in l.early);
  }

  // ---- A double entry -----------------------------------------------------------------------------

  /** A poll whose listing is one page, and whose every fetch comes out the same. */
  function Plain(ids: seq<int>, outcome: Fetch, crash: Crash): Poll { Poll([Page(ids, 0, false)], None, _ => outcome, crash) }

  lemma PlainIds(ids: seq<int>, outcome: Fetch, crash: Crash)
    ensures AllIds(Plain(ids, outcome, crash).pages) == ids
    ensures forall prev :: Listed(Plain(ids, outcome, crash).pages, prev, None)
  {
    AllIdsOfOne(Page(ids, 0, false));
  }

  lemma {:induction false} PlainHaving(ids: seq<int>, outcome: Fetch, kind: Fetch)
    ensures Having(ids, _ => outcome, kind) == if outcome == kind then ids else []
  {
    if ids != [] { PlainHaving(ids[1..], outcome, kind); }
  }

  /** What a poll with this listing discovers. */
  predicate NewAre(ids: seq<int>, prev: Option<int>, news: seq<int>)
  {
    news == if prev.None? then ids else Unseen(ids, prev)
  }

  lemma PlainPolled(l: Ledger, ids: seq<int>, outcome: Fetch, crash: Crash, news: seq<int>)
    requires NewAre(ids, l.cursor, news)
    ensures News(l, Plain(ids, outcome, crash)) == news
    ensures forall kind :: Of(l, Plain(ids, outcome, crash), kind) == if outcome == kind then Ids(news) else {}
  {
    PlainIds(ids, outcome, crash);
    forall kind ensures Of(l, Plain(ids, outcome, crash), kind) == if outcome == kind then Ids(news) else {} {
      PlainHaving(news, outcome, kind);
    }
  }

  const NEVER_POLLED := Ledger(None, {}, {}, {}, {}, {})

  lemma OpensAtOne()
    ensures Polled(NEVER_POLLED, Plain([1], Row, NoCrash), true) == Ledger(Some(1), {1}, {}, {}, {1}, {})
  {
    PlainPolled(NEVER_POLLED, [1], Row, NoCrash, [1]);
    PlainIds([1], Row, NoCrash);
    assert Ids([1]) == {1};
    assert [1][..0] == [];
  }

  lemma TwoIsNew()
    ensures NewAre([2, 1], Some(1), [2])
  {
    assert [2, 1][1..] == [1] && [1][1..] == [];
    assert Unseen([1], Some(1)) == [];
  }

  lemma CrashStoresTwo()
    ensures Polled(Ledger(Some(1), {1}, {}, {}, {1}, {}), Plain([2, 1], Row, BeforeCursor), true) == Ledger(Some(1), {1, 2}, {}, {}, {1}, {2})
  {
    TwoIsNew();
    PlainPolled(Ledger(Some(1), {1}, {}, {}, {1}, {}), [2, 1], Row, BeforeCursor, [2]);
    assert Ids([2]) == {2};
  }

  /** After one good poll, one that crashes before moving the cursor and one whose fetch fails, execution 2 is both stored and errored. */
  lemma StoredAndErrored()
    ensures Untouched(NEVER_POLLED)
    ensures var polls := [Plain([1], Row, NoCrash), Plain([2, 1], Row, BeforeCursor), Plain([2, 1], Error, NoCrash)];
            FairRun(NEVER_POLLED, polls) && 2 in After(NEVER_POLLED, polls).stored && 2 in After(NEVER_POLLED, polls).errored
  {
    hide PagesRead, Unseen, Having, NewCursor;
    var (p, q, r) := (Plain([1], Row, NoCrash), Plain([2, 1], Row, BeforeCursor), Plain([2, 1], Error, NoCrash));
    var (l, m) := (Ledger(Some(1), {1}, {}, {}, {1}, {}), Ledger(Some(1), {1, 2}, {}, {}, {1}, {2}));
    PlainIds([1], Row, NoCrash);
    PlainIds([2, 1], Row, BeforeCursor);
    PlainIds([2, 1], Error, NoCrash);
    OpensAtOne();
    CrashStoresTwo();
    TwoIsNew();
    PlainPolled(m, [2, 1], Error, NoCrash, [2]);
    assert Ids([2]) == {2};
    var t := Polled(m, r, true);
    assert 2 in t.stored && 2 in t.errored;
    assert FairListing(NEVER_POLLED, p) && FairListing(l, q) && FairListing(m, r);
    ThreePolls(NEVER_POLLED, p, q, r);
  }

  lemma ThreePolls(l: Ledger, p: Poll, q: Poll, r: Poll)
    requires forall prev :: Listed(p.pages, prev, p.failsAt) && Listed(q.pages, prev, q.failsAt) && Listed(r.pages, prev, r.failsAt)
    ensures After(l, [p, q, r]) == Polled(Polled(Polled(l, p, true), q, true), r, true)
    ensures FairRun(l, [p, q, r]) <==>
              FairListing(l, p) && FairListing(Polled(l, p, true), q) && FairListing(Polled(Polled(l, p, true), q, true), r)
  {
    hide Polled, FairListing;
    assert [p, q, r][1..] == [q, r] && [q, r][1..] == [r] && [r][1..] == [];
    var (m, n) := (Polled(l, p, true), Polled(Polled(l, p, true), q, true));
    var t := Polled(n, r, true);
    assert After(n, [r]) == After(t, []) == t;
    assert After(m, [q, r]) == After(n, [r]);
    assert FairRun(n, [r]) <==> FairListing(n, r);
    assert FairRun(m, [q, r]) <==> FairListing(m, q) && FairRun(n, [r]);
  }

  // ---- The service ---------------------------------------------------------------------------------

  /** What one poll reports. */
  datatype Report = Report(fetched: nat, inserted: nat, errors: nat, skipped: nat, cursor: Option<int>)

  /** The places of the ids whose fetch came out so. */
  function Places(ids: seq<int>, fetch: int -> Fetch, kind: Fetch): set<nat> { set i: nat | i < |ids| && fetch(ids[i]) == kind }

  /** The rows without a usable id on some pages. */
  function NoIdOn(pages: seq<Page>): nat { if pages == [] then 0 else pages[0].skipped + NoIdOn(pages[1..]) }

  /** The report counts each outcome among the discovered ids, and the rows of the pages read that had no id as skipped. */
  ghost predicate Counts(report: Report, news: seq<int>, p: Poll, read: seq<Page>)
  {
    && report.fetched == |Places(news, p.fetch, Row)| && report.errors == |Places(news, p.fetch, Error)|
    && report.skipped == |Places(news, p.fetch, Skip)| + NoIdOn(read)
  }

  lemma PlacesNext(ids: seq<int>, fetch: int -> Fetch, kind: Fetch)
    requires ids != []
    ensures |Places(ids, fetch, kind)| == |Places(ids[..|ids| - 1], fetch, kind)| + |One(ids[|ids| - 1], fetch, kind)|
  {
    var n: nat := |ids| - 1;
    var (all, before) := (Places(ids, fetch, kind), Places(ids[..n], fetch, kind));
    assert forall i: nat | i < n :: ids[..n][i] == ids[i];
    if fetch(ids[n]) == kind {
      assert all == before + {n};
    } else {
      assert all == before;
    }
  }

  lemma {:induction false} HavingCounts(ids: seq<int>, fetch: int -> Fetch, kind: Fetch)
    ensures |Having(ids, fetch, kind)| == |Places(ids, fetch, kind)|
  {
    if ids == [] {
      assert Places(ids, fetch, kind) == {};
    } else {
      hide Places, Having, One;
      var n := |ids| - 1;
      HavingCounts(ids[..n], fetch, kind);
      HavingNext(ids, n, fetch, kind);
      assert ids[..n + 1] == ids;
      PlacesNext(ids, fetch, kind);
    }
  }

  lemma {:induction false} NoIdAppend(pages: seq<Page>, page: Page)
    ensures NoIdOn(pages + [page]) == NoIdOn(pages) + page.skipped
  {
    if pages == [] {
      assert pages + [page] == [page] && [page][1..] == [];
    } else {
      NoIdAppend(pages[1..], page);
      assert (pages + [page])[1..] == pages[1..] + [page] && (pages + [page])[0] == pages[0];
    }
  }

  lemma {:induction false} ListSkippedIs(pages: seq<Page>, n: nat)
    requires n <= |pages|
    ensures ListSkipped(pages, n) == NoIdOn(pages[..n])
  {
    if n > 0 {
      ListSkippedIs(pages, n - 1);
      NoIdAppend(pages[..n - 1], pages[n - 1]);
      assert pages[..n] == pages[..n - 1] + [pages[n - 1]];
    }
  }

  lemma ReportCounts(report: Report, news: seq<int>, p: Poll, n: nat)
    requires n <= |p.pages| && report.fetched == |Having(news, p.fetch, Row)| && report.errors == |Having(news, p.fetch, Error)|
    requires report.skipped == |Having(news, p.fetch, Skip)| + ListSkipped(p.pages, n)
    ensures Counts(report, news, p, p.pages[..n])
  {
    HavingCounts(news, p.fetch, Row);
    HavingCounts(news, p.fetch, Error);
    HavingCounts(news, p.fetch, Skip);
    ListSkippedIs(p.pages, n);
  }

  /** `ingestExecutionsForConnection`; the tables as fields, the log as ghost ones. */
  class Connection {
    var cursor: Option<int>
    var stored: set<int>
    ghost var errored: set<int>
    ghost var skipped: set<int>
    ghost var shown: set<int>
    ghost var early: set<int>

    ghost function Value(): Ledger
      reads this
    {
      Ledger(cursor, stored, errored, skipped, shown, early)
    }

    constructor ()
      ensures Untouched(Value())
    {
      cursor, stored := None, {};
      errored, skipped, shown, early := {}, {}, {}, {};
    }

    /** `upsertMany`: ON CONFLICT DO NOTHING, and the number of rows that were new. */
    method Upsert(rows: seq<int>) returns (inserted: nat)
      modifies `stored
      ensures stored == old(stored) + Ids(rows)
      ensures |stored| == |old(stored)| + inserted
    {
      inserted := |Ids(rows) - stored|;
      assert stored + Ids(rows) == stored + (Ids(rows) - stored);
      stored := stored + Ids(rows);
    }

    /** One poll, up to the point where its process dies if it does. */
    method Ingest(p: Poll) returns (report: Report)
      requires WellPaged(p.pages)
      modifies this
      ensures Value() == Polled(old(Value()), p, Listed(p.pages, old(cursor), p.failsAt))
      ensures |stored| == |old(stored)| + report.inserted
      ensures Listed(p.pages, old(cursor), p.failsAt) && p.crash.NoCrash? ==>
                && report.cursor == cursor && report.inserted <= report.fetched
                && PagesRead(p.pages, old(cursor)) <= |p.pages|
                && Counts(report, News(old(Value()), p), p, p.pages[..PagesRead(p.pages, old(cursor))])
      ensures !Listed(p.pages, old(cursor), p.failsAt) ==> report == Report(0, 0, 1, 0, old(cursor))
    {
      var found, listSkipped := Discover(p.pages, cursor, p.failsAt);
      if found.None? { return Report(0, 0, 1, 0, cursor); }
      var rows, errors, skips := FetchAll(found.value, p.fetch);
      if p.crash.BeforeUpsert? { return Report(0, 0, 0, 0, cursor); }
      var inserted := Upsert(rows);
      if p.crash.BeforeCursor? {
        early := early + Ids(rows);
        return Report(0, inserted, 0, 0, cursor);
      }
      InsertedAtMost(old(stored), rows, inserted, stored);
      var max := MaxSeen(found.value, cursor);
      errored := errored + Ids(Having(found.value, p.fetch, Error));
      skipped := skipped + Ids(Having(found.value, p.fetch, Skip));
      cursor := if found.value != [] then max else cursor;
      if cursor.Some? { shown := shown + Ids(AllIds(p.pages)); }
      report := Report(|rows|, inserted, errors, listSkipped + skips, cursor);
      ReportCounts(report, found.value, p, PagesRead(p.pages, old(cursor)));
    }
  }

  lemma {:induction false} IdsAtMost(rows: seq<int>)
    ensures |Ids(rows)| <= |rows|
  {
    if rows == [] {
      assert Ids(rows) == {};
    } else {
      IdsAtMost(rows[1..]);
      assert rows == [rows[0]] + rows[1..];
      assert Ids(rows) == {rows[0]} + Ids(rows[1..]);
    }
  }

  lemma InsertedAtMost(before: set<int>, rows: seq<int>, inserted: nat, after: set<int>)
    requires after == before + Ids(rows) && |after| == |before| + inserted
    ensures inserted <= |rows|
  {
    IdsAtMost(rows);
    assert |before + Ids(rows)| == |before| + |Ids(rows) - before| by { assert before + Ids(rows) == before + (Ids(rows) - before); }
    assert Ids(rows) - before <= Ids(rows);
    SubsetSize(Ids(rows) - before, Ids(rows));
  }

  lemma SubsetSize(a: set<int>, b: set<int>)
    requires a <= b
    ensures |a| <= |b|
  {
    assert b == a + (b - a);
  }
}
