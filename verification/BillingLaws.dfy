/**
 Who pays what, read off the inputs: a project is its last assignment's, a line nobody owns is
 shared by the day's tokens, and no business with a paid project of its own that day takes part.
 */
module BillingLaws {
  import opened Common
  import opened BillingSplit

  // ---- Whose a project is, and which tokens count -------------------------------------------------

  /** The last assignment of the project is to this business. */
  predicate Owns(projectOf: seq<Assignment>, c: Client, p: Project)
  {
    exists i :: 0 <= i < |projectOf| && projectOf[i] == Assignment(c, p) && forall k | i < k < |projectOf| :: projectOf[k].project != p
  }

  predicate Unowned(projectOf: seq<Assignment>, p: Project) { forall i | 0 <= i < |projectOf| :: projectOf[i].project != p }

  /** A project is the business's of its last assignment, and nobody's without one. */
  lemma {:induction false} ProjectsAreLastAssigned(projectOf: seq<Assignment>, p: Project, c: Client)
    ensures p !in OwnersOf(projectOf) <==> Unowned(projectOf, p)
    ensures p in OwnersOf(projectOf) && OwnersOf(projectOf)[p] == c <==> Owns(projectOf, c, p)
  {
    if projectOf != [] {
      var (init, n) := (projectOf[..|projectOf| - 1], |projectOf| - 1);
      ProjectsAreLastAssigned(init, p, c);
      if projectOf[n].project == p {
        assert Owns(projectOf, c, p) <==> projectOf[n].client == c by {
          if projectOf[n].client == c { assert projectOf[n] == Assignment(c, p); }
        }
      } else {
        if Owns(init, c, p) {
          var i :| 0 <= i < n && init[i] == Assignment(c, p) && forall k | i < k < n :: init[k].project != p;
          assert projectOf[i] == Assignment(c, p);
          assert forall k | i < k < |projectOf| :: projectOf[k].project != p;
        }
        if Owns(projectOf, c, p) {
          var i :| 0 <= i <= n && projectOf[i] == Assignment(c, p) && forall k | i < k <= n :: projectOf[k].project != p;
          assert init[i] == Assignment(c, p);
        }
        assert Unowned(projectOf, p) <==> Unowned(init, p) by {
          if Unowned(projectOf, p) { assert forall i | 0 <= i < n :: init[i] == projectOf[i]; }
          if Unowned(init, p) { assert forall i | 0 <= i < n :: projectOf[i] == init[i]; }
        }
      }
    }
  }

  /** The tokens of a day are those of its last entry, and none without one. */
  predicate DayTokensAre(tokens: seq<DayTokens>, d: Day, usage: seq<Usage>)
  {
    || (usage == [] && forall i | 0 <= i < |tokens| :: tokens[i].day != d)
    || exists i :: 0 <= i < |tokens| && tokens[i] == DayTokens(d, usage) && forall k | i < k < |tokens| :: tokens[k].day != d
  }

  lemma {:induction false} DaysKeepTheirLast(tokens: seq<DayTokens>, d: Day)
    ensures d !in TokensByDay(tokens) <==> forall i | 0 <= i < |tokens| :: tokens[i].day != d
    ensures DayTokensAre(tokens, d, TokensOn(TokensByDay(tokens), d))
  {
    if tokens != [] {
      var (init, n) := (tokens[..|tokens| - 1], |tokens| - 1);
      DaysKeepTheirLast(init, d);
      assert forall i | 0 <= i < n :: init[i] == tokens[i];
      if tokens[n].day == d {
        assert tokens[n] == DayTokens(d, tokens[n].byClient);
      } else if d in TokensByDay(init) {
        var usage := TokensByDay(init)[d];
        var i :| 0 <= i < n && init[i] == DayTokens(d, usage) && forall k | i < k < n :: init[k].day != d;
        assert tokens[i] == DayTokens(d, usage);
      }
    }
  }

  // ---- The lines, the last one first ---------------------------------------------------------------

  ghost function AllLines(billed: seq<Line>): real
  {
    if billed == [] then 0.0 else AllLines(billed[..|billed| - 1]) + billed[|billed| - 1].usd
  }

  ghost function OwnLines(billed: seq<Line>, projectOf: seq<Assignment>, c: Client): real
  {
    if billed == [] then 0.0
    else
      var l := billed[|billed| - 1];
      OwnLines(billed[..|billed| - 1], projectOf, c) + if Owns(projectOf, c, l.project) then l.usd else 0.0
  }

  /** What nobody's projects cost on a day. */
  ghost function SharedLines(billed: seq<Line>, projectOf: seq<Assignment>, d: Day): real
  {
    if billed == [] then 0.0
    else
      var l := billed[|billed| - 1];
      SharedLines(billed[..|billed| - 1], projectOf, d) + if l.day == d && Unowned(projectOf, l.project) then l.usd else 0.0
  }

  lemma {:induction false} LinesAre(billed: seq<Line>, projectOf: seq<Assignment>, c: Client)
    ensures Billed(billed) == AllLines(billed) && Exact(billed, OwnersOf(projectOf), c) == OwnLines(billed, projectOf, c)
  {
    if billed != [] {
      var (init, last) := (billed[..|billed| - 1], billed[|billed| - 1]);
      LinesAre(init, projectOf, c);
      assert billed == init + [last];
      assert [last][1..] == [];
      PoolAppend(init, [last], OwnersOf(projectOf));
      ExactAppend(init, [last], OwnersOf(projectOf), c);
      ProjectsAreLastAssigned(projectOf, last.project, c);
    }
  }

  lemma {:induction false} OnDayAppend(billed: seq<Line>, l: Line, d: Day)
    ensures OnDay(billed + [l], d) == OnDay(billed, d) + IfOn(l, d)
  {
    if billed == [] {
      assert billed + [l] == [l] && [l][1..] == [];
      assert OnDay([l], d) == IfOn(l, d) + OnDay([], d);
    } else {
      OnDayAppend(billed[1..], l, d);
      assert (billed + [l])[1..] == billed[1..] + [l] && (billed + [l])[0] == billed[0];
      Associative(IfOn(billed[0], d), OnDay(billed[1..], d), IfOn(l, d));
    }
  }

  lemma {:induction false} PoolIs(billed: seq<Line>, projectOf: seq<Assignment>, d: Day)
    ensures Pool(OnDay(billed, d), OwnersOf(projectOf)) == SharedLines(billed, projectOf, d)
  {
    if billed != [] {
      var (init, last) := (billed[..|billed| - 1], billed[|billed| - 1]);
      PoolIs(init, projectOf, d);
      assert billed == init + [last];
      assert [last][1..] == [];
      OnDayAppend(init, last, d);
      PoolAppend(OnDay(init, d), IfOn(last, d), OwnersOf(projectOf));
      ProjectsAreLastAssigned(projectOf, last.project, NOBODY);
    }
  }

  // ---- The shares of a day ---------------------------------------------------------------------------

  /** The business has a positive line of its own on that day. */
  predicate PaysOwn(billed: seq<Line>, projectOf: seq<Assignment>, d: Day, c: Client)
  {
    exists i :: 0 <= i < |billed| && billed[i].day == d && billed[i].usd > 0.0 && Owns(projectOf, c, billed[i].project)
  }

  /** The tokens that take part on a day: positive ones of businesses that pay no project of their own. */
  ghost function TokensTaking(usage: seq<Usage>, billed: seq<Line>, projectOf: seq<Assignment>, d: Day): real
  {
    if usage == [] then 0.0
    else
      var u := usage[|usage| - 1];
      TokensTaking(usage[..|usage| - 1], billed, projectOf, d)
      + if u.tokens > 0.0 && !PaysOwn(billed, projectOf, d, u.client) then u.tokens else 0.0
  }

  ghost function TokensTakenBy(usage: seq<Usage>, billed: seq<Line>, projectOf: seq<Assignment>, d: Day, c: Client): real
  {
    if usage == [] then 0.0
    else
      var u := usage[|usage| - 1];
      TokensTakenBy(usage[..|usage| - 1], billed, projectOf, d, c)
      + if u.client == c && u.tokens > 0.0 && !PaysOwn(billed, projectOf, d, u.client) then u.tokens else 0.0
  }

  /** A business's part of a day's shared lines: by its tokens among those that take part, if any do. */
  ghost function PartOfDay(billed: seq<Line>, projectOf: seq<Assignment>, usage: seq<Usage>, d: Day, c: Client): real
  {
    var (pool, all) := (SharedLines(billed, projectOf, d), TokensTaking(usage, billed, projectOf, d));
    if pool > 0.0 && all > 0.0 then pool * TokensTakenBy(usage, billed, projectOf, d, c) / all else 0.0
  }

  lemma {:induction false} OnDayHolds(billed: seq<Line>, d: Day, l: Line)
    ensures l in OnDay(billed, d) <==> l in billed && l.day == d
  {
    if billed != [] {
      OnDayHolds(billed[1..], d, l);
      assert billed == [billed[0]] + billed[1..];
    }
  }

  lemma PaysOwnIs(billed: seq<Line>, projectOf: seq<Assignment>, d: Day, c: Client)
    ensures c in ExactToday(OnDay(billed, d), OwnersOf(projectOf)) <==> PaysOwn(billed, projectOf, d, c)
  {
    var lines := OnDay(billed, d);
    if c in ExactToday(lines, OwnersOf(projectOf)) {
      var i :| 0 <= i < |lines| && lines[i].usd > 0.0 && lines[i].project in OwnersOf(projectOf) && OwnersOf(projectOf)[lines[i].project] == c;
      OnDayHolds(billed, d, lines[i]);
      ProjectsAreLastAssigned(projectOf, lines[i].project, c);
      var k :| 0 <= k < |billed| && billed[k] == lines[i];
    }
    if PaysOwn(billed, projectOf, d, c) {
      var i :| 0 <= i < |billed| && billed[i].day == d && billed[i].usd > 0.0 && Owns(projectOf, c, billed[i].project);
      OnDayHolds(billed, d, billed[i]);
      ProjectsAreLastAssigned(projectOf, billed[i].project, c);
      var k :| 0 <= k < |lines| && lines[k] == billed[i];
    }
  }

  lemma OneTaken(u: Usage, c: Client, pool: real, all: real)
    requires all > 0.0
    ensures Tokens([u]) == u.tokens && Taken([u], c, pool, all) == if u.client == c then Part(pool, u.tokens, all) else 0.0
  {
    assert [u][1..] == [];
  }

  lemma {:induction false} TakingIs(usage: seq<Usage>, billed: seq<Line>, projectOf: seq<Assignment>, d: Day)
    ensures Tokens(Eligible(usage, ExactToday(OnDay(billed, d), OwnersOf(projectOf)))) == TokensTaking(usage, billed, projectOf, d)
  {
    hide ExactToday, PaysOwn, OnDay, OwnersOf;
    if usage != [] {
      var (init, u) := (usage[..|usage| - 1], usage[|usage| - 1]);
      var paying := ExactToday(OnDay(billed, d), OwnersOf(projectOf));
      TakingIs(init, billed, projectOf, d);
      assert usage == init + [u];
      EligibleAppend(init, u, paying);
      TakenAppend(Eligible(init, paying), IfEligible(u, paying), u.client, 0.0, 1.0);
      PaysOwnIs(billed, projectOf, d, u.client);
      OneTaken(u, u.client, 0.0, 1.0);
    }
  }

  lemma {:induction false} TakenIs(usage: seq<Usage>, billed: seq<Line>, projectOf: seq<Assignment>, d: Day, c: Client, pool: real, all: real)
    requires all > 0.0
    ensures Taken(Eligible(usage, ExactToday(OnDay(billed, d), OwnersOf(projectOf))), c, pool, all)
            == Part(pool, TokensTakenBy(usage, billed, projectOf, d, c), all)
  {
    hide ExactToday, PaysOwn, OnDay, OwnersOf, Part;
    WholeIsPool(pool, all);
    if usage != [] {
      var (init, u) := (usage[..|usage| - 1], usage[|usage| - 1]);
      var paying := ExactToday(OnDay(billed, d), OwnersOf(projectOf));
      TakenIs(init, billed, projectOf, d, c, pool, all);
      assert usage == init + [u];
      EligibleAppend(init, u, paying);
      TakenAppend(Eligible(init, paying), IfEligible(u, paying), c, pool, all);
      PaysOwnIs(billed, projectOf, d, u.client);
      PartsAdd(pool, TokensTakenBy(init, billed, projectOf, d, c), u.tokens, all);
      OneTaken(u, c, pool, all);
    }
  }

  lemma DayShareIs(billed: seq<Line>, projectOf: seq<Assignment>, usage: seq<Usage>, d: Day, c: Client)
    ensures DayShare(OnDay(billed, d), usage, OwnersOf(projectOf), c) == if c == "" then 0.0 else PartOfDay(billed, projectOf, usage, d, c)
  {
    hide Taken, Eligible, ExactToday, OnDay, OwnersOf, Pool, Tokens, TokensTaking, TokensTakenBy, SharedLines;
    var all := TokensTaking(usage, billed, projectOf, d);
    PoolIs(billed, projectOf, d);
    TakingIs(usage, billed, projectOf, d);
    if all > 0.0 { TakenIs(usage, billed, projectOf, d, c, SharedLines(billed, projectOf, d), all); }
  }

  // ---- All the days --------------------------------------------------------------------------------------

  /** A business's parts of some days, the last day first. */
  ghost function PartsOf(days: seq<Day>, billed: seq<Line>, projectOf: seq<Assignment>, tokens: seq<DayTokens>, c: Client): real
  {
    if days == [] then 0.0
    else
      var d := days[|days| - 1];
      PartsOf(days[..|days| - 1], billed, projectOf, tokens, c) + PartOfDay(billed, projectOf, TokensOn(TokensByDay(tokens), d), d, c)
  }

  /** What the days with credits beyond their shared lines come to. */
  ghost function Credits(days: seq<Day>, billed: seq<Line>, projectOf: seq<Assignment>): real
  {
    if days == [] then 0.0
    else
      var pool := SharedLines(billed, projectOf, days[|days| - 1]);
      Credits(days[..|days| - 1], billed, projectOf) + if pool < 0.0 then pool else 0.0
  }

  lemma {:induction false} SharesAre(days: seq<Day>, billed: seq<Line>, projectOf: seq<Assignment>, tokens: seq<DayTokens>, c: Client)
    ensures SharedOver(days, billed, TokensByDay(tokens), OwnersOf(projectOf), c)
            == if c == "" then 0.0 else PartsOf(days, billed, projectOf, tokens, c)
    ensures LostOver(days, billed, OwnersOf(projectOf)) == Credits(days, billed, projectOf)
  {
    if days != [] {
      var (init, d) := (days[..|days| - 1], days[|days| - 1]);
      SharesAre(init, billed, projectOf, tokens, c);
      assert days == init + [d];
      SharedStep(init, d, billed, TokensByDay(tokens), OwnersOf(projectOf), c);
      TotalsStep(init, d, billed, OwnersOf(projectOf));
      DayShareIs(billed, projectOf, TokensOn(TokensByDay(tokens), d), d, c);
      PoolIs(billed, projectOf, d);
    }
  }

  /**
   What a split says: every business pays the lines of the projects last assigned to it and its
   part, by tokens, of each day's lines that nobody owns; nobody's part and days without anybody's
   tokens are unassigned, and days with more credit than cost are in the total alone.
   */
  lemma SplitTells(r: Split, days: seq<Day>, billed: seq<Line>, projectOf: seq<Assignment>, tokens: seq<DayTokens>)
    requires SplitOk(r, days, billed, TokensByDay(tokens), OwnersOf(projectOf))
    ensures r.total == AllLines(billed) && Sum(r.byClient) + r.unassigned == r.total - Credits(days, billed, projectOf)
    ensures forall c :: Row(r.byClient, c).exact == OwnLines(billed, projectOf, c)
    ensures forall c :: Row(r.byClient, c).shared == if c == "" then 0.0 else PartsOf(days, billed, projectOf, tokens, c)
    ensures forall c :: Row(r.byClient, c).total == Row(r.byClient, c).exact + Row(r.byClient, c).shared
    ensures forall d :: DayTokensAre(tokens, d, TokensOn(TokensByDay(tokens), d))
  {
    LinesAre(billed, projectOf, NOBODY);
    SharesAre(days, billed, projectOf, tokens, NOBODY);
    forall c ensures Row(r.byClient, c).exact == OwnLines(billed, projectOf, c) { LinesAre(billed, projectOf, c); }
    forall c ensures Row(r.byClient, c).shared == if c == "" then 0.0 else PartsOf(days, billed, projectOf, tokens, c) {
      SharesAre(days, billed, projectOf, tokens, c);
    }
    forall d ensures DayTokensAre(tokens, d, TokensOn(TokensByDay(tokens), d)) { DaysKeepTheirLast(tokens, d); }
  }
}
