/**
 What OpenAI billed, split by business: exact lines to the owner of their project, the rest of
 a day by the tokens of the businesses without one. Every dollar is accounted for, except that a
 day whose shared part is negative is dropped.
 */
module BillingSplit {
  import opened Common

  /** A business key; the empty one stands for workflows of no business. */
  type Client = string
  type Day = string
  type Project = string

  datatype Line = Line(day: Day, project: Project, usd: real)

  datatype Usage = Usage(client: Client, tokens: real)

  datatype DayTokens = DayTokens(day: Day, byClient: seq<Usage>)

  datatype Assignment = Assignment(client: Client, project: Project)

  datatype ClientSplit = ClientSplit(exact: real, shared: real, total: real)

  /** `byClient`, with its insertion order. */
  datatype Books = Books(order: seq<Client>, rows: map<Client, ClientSplit>)

  const EMPTY_ROW := ClientSplit(0.0, 0.0, 0.0)
  const NOBODY: Client := ""

  ghost predicate Valid(b: Books)
  {
    && Distinct(b.order)
    && (forall c :: c in b.order <==> c in b.rows)
    && (forall c | c in b.rows :: b.rows[c].total == b.rows[c].exact + b.rows[c].shared)
  }

  function Row(b: Books, c: Client): ClientSplit { if c in b.rows then b.rows[c] else EMPTY_ROW }

  function SumOver(order: seq<Client>, rows: map<Client, ClientSplit>): real
  {
    if order == [] then 0.0 else (if order[0] in rows then rows[order[0]].total else 0.0) + SumOver(order[1..], rows)
  }

  /** What all businesses pay. */
  function Sum(b: Books): real { SumOver(b.order, b.rows) }

  // ---- add -----------------------------------------------------------------------------------

  function Grown(row: ClientSplit, toExact: bool, usd: real): ClientSplit
  {
    if toExact then row.(exact := row.exact + usd, total := row.total + usd) else row.(shared := row.shared + usd, total := row.total + usd)
  }

  /** `add`. */
  function Add(b: Books, c: Client, toExact: bool, usd: real): Books
  {
    Books(if c in b.rows then b.order else b.order + [c], b.rows[c := Grown(Row(b, c), toExact, usd)])
  }

  lemma {:induction false} SumIgnoresOthers(order: seq<Client>, rows: map<Client, ClientSplit>, c: Client, row: ClientSplit)
    requires c !in order
    ensures SumOver(order, rows[c := row]) == SumOver(order, rows)
  {
    if order != [] { SumIgnoresOthers(order[1..], rows, c, row); }
  }

  lemma {:induction false} SumOfUpdate(order: seq<Client>, rows: map<Client, ClientSplit>, c: Client, row: ClientSplit)
    requires c in order && c in rows && Distinct(order)
    ensures SumOver(order, rows[c := row]) == SumOver(order, rows) + row.total - rows[c].total
  {
    if order[0] == c {
      SumIgnoresOthers(order[1..], rows, c, row);
    } else {
      SumOfUpdate(order[1..], rows, c, row);
    }
  }

  lemma {:induction false} SumAppend(order: seq<Client>, rows: map<Client, ClientSplit>, c: Client)
    ensures SumOver(order + [c], rows) == SumOver(order, rows) + (if c in rows then rows[c].total else 0.0)
  {
    if order == [] {
      assert order + [c] == [c] && [c][1..] == [];
    } else {
      SumAppend(order[1..], rows, c);
      assert (order + [c])[1..] == order[1..] + [c];
    }
  }

  lemma AddKeepsBooks(b: Books, c: Client, toExact: bool, usd: real)
    requires Valid(b)
    ensures Valid(Add(b, c, toExact, usd))
    ensures Sum(Add(b, c, toExact, usd)) == Sum(b) + usd
  {
    var row := Grown(Row(b, c), toExact, usd);
    if c in b.rows {
      SumOfUpdate(b.order, b.rows, c, row);
    } else {
      SumIgnoresOthers(b.order, b.rows, c, row);
      SumAppend(b.order, b.rows[c := row], c);
    }
  }

  // ---- One day: the lines -----------------------------------------------------------------------

  function Owner(ownerOf: map<Project, Client>, l: Line): Option<Client>
  {
    if l.project in ownerOf then Some(ownerOf[l.project]) else None
  }

  /** The lines of a day, or of all days, that one business owns. */
  function Exact(lines: seq<Line>, ownerOf: map<Project, Client>, c: Client): real
  {
    if lines == [] then 0.0
    else (if Owner(ownerOf, lines[0]) == Some(c) then lines[0].usd else 0.0) + Exact(lines[1..], ownerOf, c)
  }

  /** The lines nobody owns. */
  function Pool(lines: seq<Line>, ownerOf: map<Project, Client>): real
  {
    if lines == [] then 0.0
    else (if Owner(ownerOf, lines[0]).None? then lines[0].usd else 0.0) + Pool(lines[1..], ownerOf)
  }

  function Billed(lines: seq<Line>): real { if lines == [] then 0.0 else lines[0].usd + Billed(lines[1..]) }

  /** The businesses with a positive line of their own. */
  function ExactToday(lines: seq<Line>, ownerOf: map<Project, Client>): set<Client>
  {
    set i | 0 <= i < |lines| && lines[i].usd > 0.0 && lines[i].project in ownerOf :: ownerOf[lines[i].project]
  }

  lemma {:induction false} ExactAppend(a: seq<Line>, b: seq<Line>, ownerOf: map<Project, Client>, c: Client)
    ensures Exact(a + b, ownerOf, c) == Exact(a, ownerOf, c) + Exact(b, ownerOf, c)
  {
    if a == [] {
      assert a + b == b;
    } else {
      ExactAppend(a[1..], b, ownerOf, c);
      assert (a + b)[1..] == a[1..] + b;
    }
  }

  lemma {:induction false} PoolAppend(a: seq<Line>, b: seq<Line>, ownerOf: map<Project, Client>)
    ensures Pool(a + b, ownerOf) == Pool(a, ownerOf) + Pool(b, ownerOf) && Billed(a + b) == Billed(a) + Billed(b)
  {
    if a == [] {
      assert a + b == b;
    } else {
      PoolAppend(a[1..], b, ownerOf);
      assert (a + b)[1..] == a[1..] + b;
    }
  }

  lemma LinesNext(lines: seq<Line>, i: nat, ownerOf: map<Project, Client>)
    requires i < |lines|
    ensures Pool(lines[..i + 1], ownerOf) == Pool(lines[..i], ownerOf) + (if Owner(ownerOf, lines[i]).None? then lines[i].usd else 0.0)
    ensures Billed(lines[..i + 1]) == Billed(lines[..i]) + lines[i].usd
  {
    assert lines[..i + 1] == lines[..i] + [lines[i]];
    PoolAppend(lines[..i], [lines[i]], ownerOf);
  }

  lemma ExactNext(lines: seq<Line>, i: nat, ownerOf: map<Project, Client>, c: Client)
    requires i < |lines|
    ensures Exact(lines[..i + 1], ownerOf, c) == Exact(lines[..i], ownerOf, c) + (if Owner(ownerOf, lines[i]) == Some(c) then lines[i].usd else 0.0)
  {
    assert lines[..i + 1] == lines[..i] + [lines[i]];
    ExactAppend(lines[..i], [lines[i]], ownerOf, c);
  }

  lemma ExactTodayNext(lines: seq<Line>, i: nat, ownerOf: map<Project, Client>)
    requires i < |lines|
    ensures ExactToday(lines[..i + 1], ownerOf)
            == ExactToday(lines[..i], ownerOf) + (if lines[i].usd > 0.0 && lines[i].project in ownerOf then {ownerOf[lines[i].project]} else {})
  {
    var (a, b) := (lines[..i], lines[..i + 1]);
    forall c | c in ExactToday(a, ownerOf) ensures c in ExactToday(b, ownerOf) {
      var k :| 0 <= k < |a| && a[k].usd > 0.0 && a[k].project in ownerOf && ownerOf[a[k].project] == c;
      assert b[k] == a[k];
    }
    if lines[i].usd > 0.0 && lines[i].project in ownerOf { assert b[i] == lines[i]; }
    forall c | c in ExactToday(b, ownerOf)
      ensures c in ExactToday(a, ownerOf) || (lines[i].usd > 0.0 && lines[i].project in ownerOf && c == ownerOf[lines[i].project])
    {
      var k :| 0 <= k < |b| && b[k].usd > 0.0 && b[k].project in ownerOf && ownerOf[b[k].project] == c;
      if k < i { assert a[k] == b[k]; }
    }
  }

  /** The loop over a day's lines: owned ones are booked, the rest pooled. */
  method BookLines(before: Books, lines: seq<Line>, ownerOf: map<Project, Client>)
    returns (books: Books, pool: real, exactToday: set<Client>, billed: real)
    requires Valid(before)
    ensures Valid(books) && pool == Pool(lines, ownerOf) && billed == Billed(lines) && exactToday == ExactToday(lines, ownerOf)
    ensures Sum(books) + pool == Sum(before) + billed
    ensures forall c :: Row(books, c).exact == Row(before, c).exact + Exact(lines, ownerOf, c) && Row(books, c).shared == Row(before, c).shared
  {
    books, pool, exactToday, billed := before, 0.0, {}, 0.0;
    for i := 0 to |lines|
      invariant Valid(books) && pool == Pool(lines[..i], ownerOf) && billed == Billed(lines[..i])
      invariant exactToday == ExactToday(lines[..i], ownerOf)
      invariant Sum(books) + pool == Sum(before) + billed
      invariant forall c :: Row(books, c).exact == Row(before, c).exact + Exact(lines[..i], ownerOf, c)
      invariant forall c :: Row(books, c).shared == Row(before, c).shared
    {
      var l := lines[i];
      LinesNext(lines, i, ownerOf);
      ExactTodayNext(lines, i, ownerOf);
      forall c ensures Exact(lines[..i + 1], ownerOf, c)
                       == Exact(lines[..i], ownerOf, c) + (if Owner(ownerOf, l) == Some(c) then l.usd else 0.0) {
        ExactNext(lines, i, ownerOf, c);
      }
      billed := billed + l.usd;
      var owner := Owner(ownerOf, l);
      if owner.Some? {
        AddKeepsBooks(books, owner.value, true, l.usd);
        books := Add(books, owner.value, true, l.usd);
        if l.usd > 0.0 { exactToday := exactToday + {owner.value}; }
      } else {
        pool := pool + l.usd;
      }
    }
    assert lines[..|lines|] == lines;
  }

  // ---- One day: the pool ---------------------------------------------------------------------------

  /** Usage that takes part of the pool: some tokens, and no billed project of one's own that day. */
  function IfEligible(u: Usage, exactToday: set<Client>): seq<Usage>
  {
    if u.tokens > 0.0 && u.client !in exactToday then [u] else []
  }

  function Eligible(usage: seq<Usage>, exactToday: set<Client>): seq<Usage>
  {
    if usage == [] then [] else IfEligible(usage[0], exactToday) + Eligible(usage[1..], exactToday)
  }

  lemma {:induction false} EligibleAppend(usage: seq<Usage>, u: Usage, exactToday: set<Client>)
    ensures Eligible(usage + [u], exactToday) == Eligible(usage, exactToday) + IfEligible(u, exactToday)
  {
    if usage == [] {
      assert usage + [u] == [u] && [u][1..] == [];
      assert Eligible([u], exactToday) == IfEligible(u, exactToday) + Eligible([], exactToday);
    } else {
      EligibleAppend(usage[1..], u, exactToday);
      assert (usage + [u])[1..] == usage[1..] + [u] && (usage + [u])[0] == usage[0];
      Associative(IfEligible(usage[0], exactToday), Eligible(usage[1..], exactToday), IfEligible(u, exactToday));
    }
  }

  lemma EligibleNext(usage: seq<Usage>, i: nat, exactToday: set<Client>)
    requires i < |usage|
    ensures Eligible(usage[..i + 1], exactToday) == Eligible(usage[..i], exactToday) + IfEligible(usage[i], exactToday)
  {
    assert usage[..i + 1] == usage[..i] + [usage[i]];
    EligibleAppend(usage[..i], usage[i], exactToday);
  }

  function Tokens(usage: seq<Usage>): real { if usage == [] then 0.0 else usage[0].tokens + Tokens(usage[1..]) }

  function Part(pool: real, tokens: real, all: real): real
    requires all > 0.0
  {
    pool * tokens / all
  }

  /** What one business takes of the pool. */
  function Taken(usage: seq<Usage>, c: Client, pool: real, all: real): real
    requires all > 0.0
  {
    if usage == [] then 0.0 else (if usage[0].client == c then Part(pool, usage[0].tokens, all) else 0.0) + Taken(usage[1..], c, pool, all)
  }

  lemma {:induction false} TakenAppend(a: seq<Usage>, b: seq<Usage>, c: Client, pool: real, all: real)
    requires all > 0.0
    ensures Taken(a + b, c, pool, all) == Taken(a, c, pool, all) + Taken(b, c, pool, all)
    ensures Tokens(a + b) == Tokens(a) + Tokens(b)
  {
    if a == [] {
      assert a + b == b;
    } else {
      TakenAppend(a[1..], b, c, pool, all);
      assert (a + b)[1..] == a[1..] + b;
    }
  }

  lemma PartsAdd(pool: real, a: real, b: real, all: real)
    requires all > 0.0
    ensures Part(pool, a + b, all) == Part(pool, a, all) + Part(pool, b, all)
  {
    assert pool * (a + b) == pool * a + pool * b;
  }

  lemma WholeIsPool(pool: real, all: real)
    requires all > 0.0
    ensures Part(pool, all, all) == pool && Part(pool, 0.0, all) == 0.0
  {
  }

  /** The books after part of the pool has been shared. */
  ghost predicate SharedSoFar(before: Books, books: Books, unassigned: real, usage: seq<Usage>, pool: real, all: real)
    requires all > 0.0
  {
    && Valid(books) && Sum(books) + unassigned == Sum(before) + Part(pool, Tokens(usage), all)
    && (forall c :: Row(books, c).exact == Row(before, c).exact)
    && (forall c :: Row(books, c).shared == Row(before, c).shared + (if c == NOBODY then 0.0 else Taken(usage, c, pool, all)))
    && unassigned == Taken(usage, NOBODY, pool, all)
  }

  /** One part of the pool given away. */
  method ShareOne(ghost before: Books, given: Books, sofar: real, ghost done: seq<Usage>, u: Usage, pool: real, all: real)
    returns (books: Books, unassigned: real)
    requires all > 0.0 && SharedSoFar(before, given, sofar, done, pool, all)
    ensures SharedSoFar(before, books, unassigned, done + [u], pool, all)
  {
    books, unassigned := given, sofar;
    var share := Part(pool, u.tokens, all);
    forall c ensures Taken(done + [u], c, pool, all) == Taken(done, c, pool, all) + (if u.client == c then share else 0.0) {
      TakenAppend(done, [u], c, pool, all);
      assert [u][1..] == [];
    }
    TokensNext(done, u);
    PartsAdd(pool, Tokens(done), u.tokens, all);
    if u.client == NOBODY {
      unassigned := unassigned + share;
    } else {
      AddKeepsBooks(given, u.client, false, share);
      books := Add(books, u.client, false, share);
    }
  }

  /** The loop over the eligible usage: every part goes to its business, nobody's to the unassigned. */
  method SharePool(before: Books, usage: seq<Usage>, pool: real, all: real) returns (books: Books, unassigned: real)
    requires Valid(before) && all == Tokens(usage) && all > 0.0
    ensures SharedSoFar(before, books, unassigned, usage, pool, all)
    ensures Sum(books) + unassigned == Sum(before) + pool
  {
    books, unassigned := before, 0.0;
    WholeIsPool(pool, all);
    for i := 0 to |usage|
      invariant SharedSoFar(before, books, unassigned, usage[..i], pool, all)
    {
      assert usage[..i + 1] == usage[..i] + [usage[i]];
      books, unassigned := ShareOne(before, books, unassigned, usage[..i], usage[i], pool, all);
    }
    assert usage[..|usage|] == usage;
  }

  /** What a day's pool gives a business. */
  function DayShare(lines: seq<Line>, usage: seq<Usage>, ownerOf: map<Project, Client>, c: Client): real
  {
    var eligible := Eligible(usage, ExactToday(lines, ownerOf));
    if Pool(lines, ownerOf) <= 0.0 || Tokens(eligible) <= 0.0 || c == NOBODY then 0.0
    else Taken(eligible, c, Pool(lines, ownerOf), Tokens(eligible))
  }

  /** The part of a day that is dropped: a pool that credits have made negative. */
  function Lost(lines: seq<Line>, ownerOf: map<Project, Client>): real
  {
    if Pool(lines, ownerOf) < 0.0 then Pool(lines, ownerOf) else 0.0
  }

  lemma {:induction false} NotEligible(usage: seq<Usage>, exactToday: set<Client>, c: Client, pool: real, all: real)
    requires c in exactToday && all > 0.0
    ensures Taken(Eligible(usage, exactToday), c, pool, all) == 0.0
  {
    if usage != [] {
      NotEligible(usage[1..], exactToday, c, pool, all);
      TakenAppend(IfEligible(usage[0], exactToday), Eligible(usage[1..], exactToday), c, pool, all);
      assert Taken(IfEligible(usage[0], exactToday), c, pool, all) == 0.0;
    }
  }

  /** A business whose own project explains its spend of a day takes no shared part that day. */
  lemma OwnSpendTakesNoShare(lines: seq<Line>, usage: seq<Usage>, ownerOf: map<Project, Client>, c: Client)
    requires c in ExactToday(lines, ownerOf)
    ensures DayShare(lines, usage, ownerOf, c) == 0.0
  {
    var eligible := Eligible(usage, ExactToday(lines, ownerOf));
    if Tokens(eligible) > 0.0 { NotEligible(usage, ExactToday(lines, ownerOf), c, Pool(lines, ownerOf), Tokens(eligible)); }
  }

  /** The filter over a day's entries. */
  method SelectEligible(usage: seq<Usage>, exactToday: set<Client>) returns (eligible: seq<Usage>, all: real)
    ensures eligible == Eligible(usage, exactToday) && all == Tokens(eligible)
  {
    eligible, all := [], 0.0;
    for i := 0 to |usage|
      invariant eligible == Eligible(usage[..i], exactToday) && all == Tokens(eligible)
    {
      EligibleNext(usage, i, exactToday);
      if usage[i].tokens > 0.0 && usage[i].client !in exactToday {
        TokensNext(eligible, usage[i]);
        eligible, all := eligible + [usage[i]], all + usage[i].tokens;
      }
    }
    assert usage[..|usage|] == usage;
  }

  lemma {:induction false} TokensNext(usage: seq<Usage>, u: Usage)
    ensures Tokens(usage + [u]) == Tokens(usage) + u.tokens
  {
    if usage == [] {
      assert usage + [u] == [u] && [u][1..] == [];
    } else {
      TokensNext(usage[1..], u);
      assert (usage + [u])[1..] == usage[1..] + [u];
    }
  }

  /** One day of `splitBilling`. */
  method SplitDay(before: Books, lines: seq<Line>, usage: seq<Usage>, ownerOf: map<Project, Client>)
    returns (books: Books, unassigned: real, billed: real)
    requires Valid(before)
    ensures Valid(books) && billed == Billed(lines)
    ensures Sum(books) + unassigned + Lost(lines, ownerOf) == Sum(before) + billed
    ensures forall c :: Row(books, c).exact == Row(before, c).exact + Exact(lines, ownerOf, c)
    ensures forall c :: Row(books, c).shared == Row(before, c).shared + DayShare(lines, usage, ownerOf, c)
  {
    var pool, exactToday;
    books, pool, exactToday, billed := BookLines(before, lines, ownerOf);
    unassigned := 0.0;
    if pool <= 0.0 { return; }
    var eligible, all := SelectEligible(usage, exactToday);
    if all <= 0.0 {
      unassigned := pool;
      return;
    }
    books, unassigned := SharePool(books, eligible, pool, all);
  }

  // ---- All the days -------------------------------------------------------------------------------------

  function IfOn(l: Line, day: Day): seq<Line> { if l.day == day then [l] else [] }

  function OnDay(billed: seq<Line>, day: Day): seq<Line>
  {
    if billed == [] then [] else IfOn(billed[0], day) + OnDay(billed[1..], day)
  }

  function BilledOver(days: seq<Day>, billed: seq<Line>): real
  {
    if days == [] then 0.0 else Billed(OnDay(billed, days[0])) + BilledOver(days[1..], billed)
  }

  function ExactOver(days: seq<Day>, billed: seq<Line>, ownerOf: map<Project, Client>, c: Client): real
  {
    if days == [] then 0.0 else Exact(OnDay(billed, days[0]), ownerOf, c) + ExactOver(days[1..], billed, ownerOf, c)
  }

  function LostOver(days: seq<Day>, billed: seq<Line>, ownerOf: map<Project, Client>): real
  {
    if days == [] then 0.0 else Lost(OnDay(billed, days[0]), ownerOf) + LostOver(days[1..], billed, ownerOf)
  }

  function TokensOn(tokens: map<Day, seq<Usage>>, day: Day): seq<Usage> { if day in tokens then tokens[day] else [] }

  function SharedOver(days: seq<Day>, billed: seq<Line>, tokens: map<Day, seq<Usage>>, ownerOf: map<Project, Client>, c: Client): real
  {
    if days == [] then 0.0
    else DayShare(OnDay(billed, days[0]), TokensOn(tokens, days[0]), ownerOf, c) + SharedOver(days[1..], billed, tokens, ownerOf, c)
  }

  /** A line counts on its own day and on no other. */
  lemma {:induction false} OverNext(days: seq<Day>, billed: seq<Line>, ownerOf: map<Project, Client>, c: Client)
    requires billed != [] && Distinct(days)
    ensures BilledOver(days, billed) == BilledOver(days, billed[1..]) + (if billed[0].day in days then billed[0].usd else 0.0)
    ensures ExactOver(days, billed, ownerOf, c) == ExactOver(days, billed[1..], ownerOf, c)
            + (if billed[0].day in days && Owner(ownerOf, billed[0]) == Some(c) then billed[0].usd else 0.0)
  {
    if days != [] {
      OverNext(days[1..], billed, ownerOf, c);
      assert days == [days[0]] + days[1..];
      PoolAppend(IfOn(billed[0], days[0]), OnDay(billed[1..], days[0]), ownerOf);
      ExactAppend(IfOn(billed[0], days[0]), OnDay(billed[1..], days[0]), ownerOf, c);
      OneLine(billed[0], days[0], ownerOf, c);
    }
  }

  lemma OneLine(l: Line, day: Day, ownerOf: map<Project, Client>, c: Client)
    ensures Billed(IfOn(l, day)) == if l.day == day then l.usd else 0.0
    ensures Exact(IfOn(l, day), ownerOf, c) == if l.day == day && Owner(ownerOf, l) == Some(c) then l.usd else 0.0
  {
    assert [l][1..] == [];
  }

  lemma {:induction false} NothingOver(days: seq<Day>, ownerOf: map<Project, Client>, c: Client)
    ensures BilledOver(days, []) == 0.0 && ExactOver(days, [], ownerOf, c) == 0.0
  {
    if days != [] { NothingOver(days[1..], ownerOf, c); }
  }

  /** Day by day or all at once, the lines are the same. */
  lemma {:induction false} DaysAddUp(days: seq<Day>, billed: seq<Line>, ownerOf: map<Project, Client>, c: Client)
    requires Distinct(days) && forall i | 0 <= i < |billed| :: billed[i].day in days
    ensures BilledOver(days, billed) == Billed(billed) && ExactOver(days, billed, ownerOf, c) == Exact(billed, ownerOf, c)
  {
    if billed == [] {
      NothingOver(days, ownerOf, c);
    } else {
      forall i | 0 <= i < |billed[1..]| ensures billed[1..][i].day in days { assert billed[1..][i] == billed[i + 1]; }
      DaysAddUp(days, billed[1..], ownerOf, c);
      OverNext(days, billed, ownerOf, c);
      assert billed[0].day in days;
    }
  }

  lemma {:induction false} TotalsStep(days: seq<Day>, d: Day, billed: seq<Line>, ownerOf: map<Project, Client>)
    ensures BilledOver(days + [d], billed) == BilledOver(days, billed) + Billed(OnDay(billed, d))
    ensures LostOver(days + [d], billed, ownerOf) == LostOver(days, billed, ownerOf) + Lost(OnDay(billed, d), ownerOf)
  {
    if days == [] {
      assert days + [d] == [d] && [d][1..] == [];
    } else {
      TotalsStep(days[1..], d, billed, ownerOf);
      assert (days + [d])[1..] == days[1..] + [d] && (days + [d])[0] == days[0];
    }
  }

  lemma {:induction false} ExactStep(days: seq<Day>, d: Day, billed: seq<Line>, ownerOf: map<Project, Client>, c: Client)
    ensures ExactOver(days + [d], billed, ownerOf, c) == ExactOver(days, billed, ownerOf, c) + Exact(OnDay(billed, d), ownerOf, c)
  {
    if days == [] {
      assert days + [d] == [d] && [d][1..] == [];
    } else {
      ExactStep(days[1..], d, billed, ownerOf, c);
      assert (days + [d])[1..] == days[1..] + [d] && (days + [d])[0] == days[0];
    }
  }

  lemma {:induction false} SharedStep(days: seq<Day>, d: Day, billed: seq<Line>, tokens: map<Day, seq<Usage>>, ownerOf: map<Project, Client>, c: Client)
    ensures SharedOver(days + [d], billed, tokens, ownerOf, c)
            == SharedOver(days, billed, tokens, ownerOf, c) + DayShare(OnDay(billed, d), TokensOn(tokens, d), ownerOf, c)
  {
    if days == [] {
      assert days + [d] == [d] && [d][1..] == [];
    } else {
      SharedStep(days[1..], d, billed, tokens, ownerOf, c);
      assert (days + [d])[1..] == days[1..] + [d] && (days + [d])[0] == days[0];
    }
  }

  /** Nothing is dropped exactly when no day's shared part is negative. */
  lemma {:induction false} NothingLostIff(days: seq<Day>, billed: seq<Line>, ownerOf: map<Project, Client>)
    ensures LostOver(days, billed, ownerOf) <= 0.0
    ensures LostOver(days, billed, ownerOf) == 0.0 <==> forall i | 0 <= i < |days| :: Pool(OnDay(billed, days[i]), ownerOf) >= 0.0
  {
    if days != [] {
      NothingLostIff(days[1..], billed, ownerOf);
      if LostOver(days, billed, ownerOf) == 0.0 {
        forall i | 0 <= i < |days| ensures Pool(OnDay(billed, days[i]), ownerOf) >= 0.0 {
          if i > 0 { assert days[i] == days[1..][i - 1]; }
        }
      }
      if forall i | 0 <= i < |days| :: Pool(OnDay(billed, days[i]), ownerOf) >= 0.0 {
        forall i | 0 <= i < |days[1..]| ensures Pool(OnDay(billed, days[1..][i]), ownerOf) >= 0.0 { assert days[1..][i] == days[i + 1]; }
      }
    }
  }

  /** The filter over the lines. */
  method SelectDay(billed: seq<Line>, day: Day) returns (lines: seq<Line>)
    ensures lines == OnDay(billed, day)
  {
    lines := [];
    for i := 0 to |billed|
      invariant lines + OnDay(billed[i..], day) == OnDay(billed, day)
    {
      assert billed[i..][1..] == billed[i + 1..];
      lines := lines + IfOn(billed[i], day);
    }
  }

  ghost predicate AreDaysOf(days: seq<Day>, billed: seq<Line>)
  {
    && Distinct(days)
    && (forall i | 0 <= i < |billed| :: billed[i].day in days)
    && (forall d | d in days :: exists i :: 0 <= i < |billed| && billed[i].day == d)
  }

  /** The distinct days, in order of appearance; sorting them changes no sum. */
  method DaysOf(billed: seq<Line>) returns (days: seq<Day>)
    ensures AreDaysOf(days, billed)
  {
    days := [];
    for i := 0 to |billed|
      invariant Distinct(days) && forall k | 0 <= k < i :: billed[k].day in days
      invariant forall d | d in days :: exists k :: 0 <= k < |billed| && billed[k].day == d
    {
      if billed[i].day !in days { days := days + [billed[i].day]; }
    }
  }

  datatype Split = Split(byClient: Books, unassigned: real, total: real)

  /** What the split promises. */
  ghost predicate SplitOk(r: Split, days: seq<Day>, billed: seq<Line>, tokens: map<Day, seq<Usage>>, ownerOf: map<Project, Client>)
  {
    && Valid(r.byClient) && r.total == Billed(billed)
    && Sum(r.byClient) + r.unassigned + LostOver(days, billed, ownerOf) == r.total
    && (forall c :: Row(r.byClient, c).exact == Exact(billed, ownerOf, c))
    && (forall c :: Row(r.byClient, c).shared == SharedOver(days, billed, tokens, ownerOf, c))
  }

  /** The books after the days so far. */
  ghost predicate SplitSoFar(r: Split, days: seq<Day>, billed: seq<Line>, tokens: map<Day, seq<Usage>>, ownerOf: map<Project, Client>)
  {
    && Valid(r.byClient) && r.total == BilledOver(days, billed)
    && Sum(r.byClient) + r.unassigned + LostOver(days, billed, ownerOf) == r.total
    && (forall c :: Row(r.byClient, c).exact == ExactOver(days, billed, ownerOf, c))
    && (forall c :: Row(r.byClient, c).shared == SharedOver(days, billed, tokens, ownerOf, c))
  }

  method SplitNextDay(r: Split, ghost days: seq<Day>, d: Day, billed: seq<Line>, tokens: map<Day, seq<Usage>>, ownerOf: map<Project, Client>)
    returns (t: Split)
    requires SplitSoFar(r, days, billed, tokens, ownerOf)
    ensures SplitSoFar(t, days + [d], billed, tokens, ownerOf)
  {
    var lines := SelectDay(billed, d);
    var books, unassigned, total := SplitDay(r.byClient, lines, TokensOn(tokens, d), ownerOf);
    t := Split(books, r.unassigned + unassigned, r.total + total);
    TotalsStep(days, d, billed, ownerOf);
    forall c ensures Row(books, c).exact == ExactOver(days + [d], billed, ownerOf, c) { ExactStep(days, d, billed, ownerOf, c); }
    forall c ensures Row(books, c).shared == SharedOver(days + [d], billed, tokens, ownerOf, c) {
      SharedStep(days, d, billed, tokens, ownerOf, c);
    }
  }

  /** The books after all days are those of all lines. */
  lemma AllDaysAreDone(r: Split, days: seq<Day>, billed: seq<Line>, tokens: map<Day, seq<Usage>>, ownerOf: map<Project, Client>)
    requires SplitSoFar(r, days, billed, tokens, ownerOf) && AreDaysOf(days, billed)
    ensures SplitOk(r, days, billed, tokens, ownerOf)
  {
    DaysAddUp(days, billed, ownerOf, NOBODY);
    forall c ensures Row(r.byClient, c).exact == Exact(billed, ownerOf, c) { DaysAddUp(days, billed, ownerOf, c); }
  }

  lemma NoDayIsDone(billed: seq<Line>, tokens: map<Day, seq<Usage>>, ownerOf: map<Project, Client>)
    ensures SplitSoFar(Split(Books([], map[]), 0.0, 0.0), [], billed, tokens, ownerOf)
  {
  }

  /** The days loop of `splitBilling`. */
  method SplitDays(billed: seq<Line>, ownerOf: map<Project, Client>, tokens: map<Day, seq<Usage>>) returns (r: Split, ghost days: seq<Day>)
    ensures SplitOk(r, days, billed, tokens, ownerOf) && AreDaysOf(days, billed)
  {
    hide SplitSoFar, SplitOk, AreDaysOf;
    var all := DaysOf(billed);
    days := all;
    r := Split(Books([], map[]), 0.0, 0.0);
    NoDayIsDone(billed, tokens, ownerOf);
    assert all[..0] == [];
    for k := 0 to |all|
      invariant SplitSoFar(r, all[..k], billed, tokens, ownerOf)
    {
      assert all[..k + 1] == all[..k] + [all[k]];
      r := SplitNextDay(r, all[..k], all[k], billed, tokens, ownerOf);
    }
    assert all[..|all|] == all;
    AllDaysAreDone(r, all, billed, tokens, ownerOf);
  }

  // ---- splitBilling -----------------------------------------------------------------------------------------

  /** The last assignment of a project counts. */
  function OwnersOf(projectOf: seq<Assignment>): map<Project, Client>
  {
    if projectOf == [] then map[]
    else OwnersOf(projectOf[..|projectOf| - 1])[projectOf[|projectOf| - 1].project := projectOf[|projectOf| - 1].client]
  }

  function TokensByDay(tokens: seq<DayTokens>): map<Day, seq<Usage>>
  {
    if tokens == [] then map[]
    else TokensByDay(tokens[..|tokens| - 1])[tokens[|tokens| - 1].day := tokens[|tokens| - 1].byClient]
  }

  method Owners(projectOf: seq<Assignment>) returns (ownerOf: map<Project, Client>)
    ensures ownerOf == OwnersOf(projectOf)
  {
    ownerOf := map[];
    for i := 0 to |projectOf|
      invariant ownerOf == OwnersOf(projectOf[..i])
    {
      assert projectOf[..i + 1][..i] == projectOf[..i];
      ownerOf := ownerOf[projectOf[i].project := projectOf[i].client];
    }
    assert projectOf[..|projectOf|] == projectOf;
  }

  method ByDay(tokens: seq<DayTokens>) returns (byDay: map<Day, seq<Usage>>)
    ensures byDay == TokensByDay(tokens)
  {
    byDay := map[];
    for i := 0 to |tokens|
      invariant byDay == TokensByDay(tokens[..i])
    {
      assert tokens[..i + 1][..i] == tokens[..i];
      byDay := byDay[tokens[i].day := tokens[i].byClient];
    }
    assert tokens[..|tokens|] == tokens;
  }

  /** No day's shared part is negative: a sum of the day's unowned lines a caller can check. */
  predicate PoolsNonNegative(billed: seq<Line>, ownerOf: map<Project, Client>)
  {
    forall i | 0 <= i < |billed| :: Pool(OnDay(billed, billed[i].day), ownerOf) >= 0.0
  }

  lemma SamePools(days: seq<Day>, billed: seq<Line>, ownerOf: map<Project, Client>)
    requires AreDaysOf(days, billed)
    ensures PoolsNonNegative(billed, ownerOf) <==> forall k | 0 <= k < |days| :: Pool(OnDay(billed, days[k]), ownerOf) >= 0.0
  {
    if PoolsNonNegative(billed, ownerOf) {
      forall k | 0 <= k < |days| ensures Pool(OnDay(billed, days[k]), ownerOf) >= 0.0 {
        assert days[k] in days;
        var i :| 0 <= i < |billed| && billed[i].day == days[k];
      }
    }
    if forall k | 0 <= k < |days| :: Pool(OnDay(billed, days[k]), ownerOf) >= 0.0 {
      forall i | 0 <= i < |billed| ensures Pool(OnDay(billed, billed[i].day), ownerOf) >= 0.0 {
        var k :| 0 <= k < |days| && days[k] == billed[i].day;
      }
    }
  }

  lemma ConservedIff(r: Split, days: seq<Day>, billed: seq<Line>, tokens: map<Day, seq<Usage>>, ownerOf: map<Project, Client>)
    requires SplitOk(r, days, billed, tokens, ownerOf) && AreDaysOf(days, billed)
    ensures Sum(r.byClient) + r.unassigned == r.total <==> PoolsNonNegative(billed, ownerOf)
    ensures Sum(r.byClient) + r.unassigned >= r.total
  {
    NothingLostIff(days, billed, ownerOf);
    SamePools(days, billed, ownerOf);
  }

  /** `splitBilling`: conservation holds exactly when no day's shared part is negative. */
  method SplitBilling(billed: seq<Line>, projectOf: seq<Assignment>, tokens: seq<DayTokens>) returns (r: Split, ghost days: seq<Day>)
    ensures SplitOk(r, days, billed, TokensByDay(tokens), OwnersOf(projectOf)) && AreDaysOf(days, billed)
    ensures Sum(r.byClient) + r.unassigned == r.total <==> PoolsNonNegative(billed, OwnersOf(projectOf))
  {
    var ownerOf := Owners(projectOf);
    var byDay := ByDay(tokens);
    r, days := SplitDays(billed, ownerOf, byDay);
    ConservedIff(r, days, billed, byDay, ownerOf);
  }

  lemma {:induction false} NonNegativePool(lines: seq<Line>, ownerOf: map<Project, Client>)
    requires forall i | 0 <= i < |lines| :: lines[i].usd >= 0.0
    ensures Pool(lines, ownerOf) >= 0.0
  {
    if lines != [] { NonNegativePool(lines[1..], ownerOf); }
  }

  lemma {:induction false} OnDayOnly(billed: seq<Line>, day: Day, l: Line)
    requires l in OnDay(billed, day)
    ensures l in billed && l.day == day
  {
    if billed != [] && l !in IfOn(billed[0], day) {
      OnDayOnly(billed[1..], day, l);
    }
  }

  /** Non-negative lines lose nothing. */
  lemma NonNegativeLinesAreConserved(billed: seq<Line>, ownerOf: map<Project, Client>)
    requires forall i | 0 <= i < |billed| :: billed[i].usd >= 0.0
    ensures PoolsNonNegative(billed, ownerOf)
  {
    forall i | 0 <= i < |billed| ensures Pool(OnDay(billed, billed[i].day), ownerOf) >= 0.0 {
      var lines := OnDay(billed, billed[i].day);
      forall k | 0 <= k < |lines| ensures lines[k].usd >= 0.0 { OnDayOnly(billed, billed[i].day, lines[k]); }
      NonNegativePool(lines, ownerOf);
    }
  }

  /** One unowned line of minus a dollar: its day's shared part is negative, so the split drops it. */
  lemma NegativeLineIsLost(day: Day, project: Project, tokens: map<Day, seq<Usage>>, r: Split)
    requires SplitOk(r, [day], [Line(day, project, -1.0)], tokens, map[])
    ensures !PoolsNonNegative([Line(day, project, -1.0)], map[])
    ensures r.total == -1.0 && Sum(r.byClient) + r.unassigned == 0.0
  {
    var billed := [Line(day, project, -1.0)];
    assert billed[1..] == [];
    assert OnDay(billed, day) == billed;
    assert Pool(billed, map[]) == -1.0 && Billed(billed) == -1.0;
    assert [day][1..] == [];
    assert LostOver([day], billed, map[]) == -1.0;
    assert Pool(OnDay(billed, billed[0].day), map[]) < 0.0;
  }

  /** The amounts a page of costs is read with: `nonNeg` skips every negative one. */
  function ReadAmounts(amounts: seq<Option<real>>): (usd: seq<real>)
    ensures forall i | 0 <= i < |usd| :: usd[i] >= 0.0
  {
    if amounts == [] then []
    else (if amounts[0].Some? && amounts[0].value >= 0.0 then [amounts[0].value] else []) + ReadAmounts(amounts[1..])
  }

  /** So nothing is lost of what the source's own parser reads. */
  lemma ReadLinesAreConserved(amounts: seq<Option<real>>, billed: seq<Line>, ownerOf: map<Project, Client>)
    requires |billed| == |ReadAmounts(amounts)| && forall i | 0 <= i < |billed| :: billed[i].usd == ReadAmounts(amounts)[i]
    ensures PoolsNonNegative(billed, ownerOf)
  {
    NonNegativeLinesAreConserved(billed, ownerOf);
  }
}
