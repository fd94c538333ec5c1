/**
 Which speaker a stretch of time belongs to: the label whose turns overlap it most, ties going
 to the smaller label. The answer depends on the set of turns only, and over adjacent
 stretches the overlaps add up.
 */
module Ranking {
  import opened Common

  /** A label, by its place in the collation order the source sorts with. */
  type Label = int

  datatype Turn = Turn(start: real, end: real, speaker: Label)

  datatype Span = Span(start: real, end: real)

  /** The winner, its seconds, and the seconds of the second best. */
  datatype Rank = Rank(winner: Option<Label>, best: real, runnerUp: real)

  /** `overlapSeconds`. */
  function Overlap(s: Span, t: Turn): real { MaxReal(0.0, MinReal(s.end, t.end) - MaxReal(s.start, t.start)) }

  /** The seconds of `s` that the turns of one label cover. */
  function Seconds(turns: seq<Turn>, s: Span, who: Label): real
  {
    if turns == [] then 0.0
    else (if turns[0].speaker == who then Overlap(s, turns[0]) else 0.0) + Seconds(turns[1..], s, who)
  }

  lemma {:induction false} SecondsNonNegative(turns: seq<Turn>, s: Span, who: Label)
    ensures Seconds(turns, s, who) >= 0.0
  {
    if turns != [] { SecondsNonNegative(turns[1..], s, who); }
  }

  predicate Beats(turns: seq<Turn>, s: Span, a: Label, b: Label)
  {
    Seconds(turns, s, a) > Seconds(turns, s, b) || (Seconds(turns, s, a) == Seconds(turns, s, b) && a < b)
  }

  /** What a ranking has to be, whatever the order of the turns. */
  ghost predicate IsRank(turns: seq<Turn>, s: Span, r: Rank)
  {
    match r.winner
    case None => r.best == 0.0 && r.runnerUp == 0.0 && forall x :: Seconds(turns, s, x) == 0.0
    case Some(l) =>
      && r.best == Seconds(turns, s, l) > 0.0
      && (forall x | x != l :: Beats(turns, s, l, x) && Seconds(turns, s, x) <= r.runnerUp)
      && (r.runnerUp == 0.0 || exists x | x != l :: Seconds(turns, s, x) == r.runnerUp)
  }

  lemma RankIsUnique(turns: seq<Turn>, s: Span, a: Rank, b: Rank)
    requires IsRank(turns, s, a) && IsRank(turns, s, b)
    ensures a == b
  {
    if a.winner.Some? && b.winner.Some? {
      var (l, m) := (a.winner.value, b.winner.value);
      assert l == m || (Beats(turns, s, l, m) && Beats(turns, s, m, l));
      if a.runnerUp != 0.0 { var x :| x != l && Seconds(turns, s, x) == a.runnerUp; }
      if b.runnerUp != 0.0 { var x :| x != l && Seconds(turns, s, x) == b.runnerUp; }
      SecondsNonNegative(turns, s, l + 1);
      assert a.runnerUp >= 0.0 && b.runnerUp >= 0.0;
    }
  }

  // ---- The loops -----------------------------------------------------------------------------

  /** `byLabel`: the labels with a positive overlap, each with its seconds. */
  ghost predicate IsTally(turns: seq<Turn>, s: Span, byLabel: map<Label, real>)
  {
    && (forall x | x in byLabel :: byLabel[x] == Seconds(turns, s, x) > 0.0)
    && (forall x | x !in byLabel :: Seconds(turns, s, x) == 0.0)
  }

  lemma {:induction false} SecondsAppend(a: seq<Turn>, b: seq<Turn>, s: Span, x: Label)
    ensures Seconds(a + b, s, x) == Seconds(a, s, x) + Seconds(b, s, x)
  {
    if a == [] {
      assert a + b == b;
    } else {
      SecondsAppend(a[1..], b, s, x);
      assert (a + b)[1..] == a[1..] + b;
    }
  }

  lemma SecondsNext(turns: seq<Turn>, i: nat, s: Span, x: Label)
    requires i < |turns|
    ensures Seconds(turns[..i + 1], s, x) == Seconds(turns[..i], s, x) + (if turns[i].speaker == x then Overlap(s, turns[i]) else 0.0)
  {
    assert turns[..i + 1] == turns[..i] + [turns[i]];
    SecondsAppend(turns[..i], [turns[i]], s, x);
  }

  method Tally(turns: seq<Turn>, s: Span) returns (byLabel: map<Label, real>)
    ensures IsTally(turns, s, byLabel)
  {
    byLabel := map[];
    for i := 0 to |turns|
      invariant IsTally(turns[..i], s, byLabel)
    {
      ghost var before := byLabel;
      var shared := Overlap(s, turns[i]);
      if shared > 0.0 {
        var l := turns[i].speaker;
        byLabel := byLabel[l := (if l in byLabel then byLabel[l] else 0.0) + shared];
      }
      forall x ensures (x in byLabel ==> byLabel[x] == Seconds(turns[..i + 1], s, x) > 0.0)
                       && (x !in byLabel ==> Seconds(turns[..i + 1], s, x) == 0.0)
      {
        SecondsNext(turns, i, s, x);
        assert x !in before ==> Seconds(turns[..i], s, x) == 0.0;
      }
    }
    assert turns[..|turns|] == turns;
  }

  lemma EmptyMeansNone(s: set<Label>)
    ensures s == {} <==> forall x :: x !in s
  {
    if forall x :: x !in s { assert s == {}; }
  }

  /** Among the entries already looked at, `l` sorts first and `runnerUp` is what the second has. */
  ghost predicate Leads(byLabel: map<Label, real>, looked: set<Label>, l: Label, runnerUp: real)
  {
    && looked <= byLabel.Keys && l in looked
    && (forall x | x in looked && x != l :: byLabel[x] < byLabel[l] || (byLabel[x] == byLabel[l] && l < x))
    && (forall x | x in looked && x != l :: byLabel[x] <= runnerUp)
    && (runnerUp == 0.0 || exists x | x in looked && x != l :: byLabel[x] == runnerUp)
  }

  predicate Before(byLabel: map<Label, real>, a: Label, b: Label)
    requires a in byLabel && b in byLabel
  {
    byLabel[a] > byLabel[b] || (byLabel[a] == byLabel[b] && a < b)
  }

  lemma LeadIsTaken(byLabel: map<Label, real>, looked: set<Label>, l: Label, runnerUp: real, x: Label)
    requires Leads(byLabel, looked, l, runnerUp) && x in byLabel && x !in looked && Before(byLabel, x, l)
    ensures Leads(byLabel, looked + {x}, x, byLabel[l])
  {
    assert l in looked + {x} && l != x;
  }

  lemma LeadIsKept(byLabel: map<Label, real>, looked: set<Label>, l: Label, runnerUp: real, x: Label)
    requires Leads(byLabel, looked, l, runnerUp) && x in byLabel && x !in looked && !Before(byLabel, x, l) && byLabel[x] > 0.0
    ensures Leads(byLabel, looked + {x}, l, MaxReal(runnerUp, byLabel[x]))
  {
    if runnerUp > byLabel[x] {
      var y :| y in looked && y != l && byLabel[y] == runnerUp;
      assert y in looked + {x};
    } else {
      assert x in looked + {x} && x != l;
    }
  }

  /** One more entry looked at. */
  method Consider(byLabel: map<Label, real>, ghost looked: set<Label>, first: Option<Label>, runnerUp: real, x: Label)
    returns (first': Option<Label>, runnerUp': real)
    requires x in byLabel && x !in looked && byLabel[x] > 0.0
    requires if first.Some? then Leads(byLabel, looked, first.value, runnerUp) else looked == {} && runnerUp == 0.0
    ensures first'.Some? && Leads(byLabel, looked + {x}, first'.value, runnerUp')
  {
    if first.None? {
      first', runnerUp' := Some(x), 0.0;
      assert looked + {x} == {x};
    } else if Before(byLabel, x, first.value) {
      LeadIsTaken(byLabel, looked, first.value, runnerUp, x);
      first', runnerUp' := Some(x), byLabel[first.value];
    } else {
      LeadIsKept(byLabel, looked, first.value, runnerUp, x);
      first', runnerUp' := first, MaxReal(runnerUp, byLabel[x]);
    }
  }

  /** The first two entries of the sorted tally: the best label and the seconds of the next one. */
  method FirstTwo(byLabel: map<Label, real>) returns (first: Option<Label>, runnerUp: real)
    requires forall x | x in byLabel :: byLabel[x] > 0.0
    ensures first.None? ==> byLabel == map[] && runnerUp == 0.0
    ensures first.Some? ==> Leads(byLabel, byLabel.Keys, first.value, runnerUp)
  {
    first, runnerUp := None, 0.0;
    var todo := byLabel.Keys;
    ghost var looked: set<Label> := {};
    while todo != {}
      invariant looked + todo == byLabel.Keys && looked !! todo
      invariant if first.Some? then Leads(byLabel, looked, first.value, runnerUp) else looked == {} && runnerUp == 0.0
      decreases |todo|
    {
      EmptyMeansNone(todo);
      var x :| x in todo;
      first, runnerUp := Consider(byLabel, looked, first, runnerUp, x);
      todo, looked := todo - {x}, looked + {x};
    }
    assert looked == byLabel.Keys;
  }

  /** `rankLabels`. */
  method RankLabels(turns: seq<Turn>, s: Span) returns (r: Rank)
    ensures IsRank(turns, s, r)
  {
    var byLabel := Tally(turns, s);
    var first, runnerUp := FirstTwo(byLabel);
    if first.None? { return Rank(None, 0.0, 0.0); }
    return Rank(first, byLabel[first.value], runnerUp);
  }

  // ---- The ranking as a function -----------------------------------------------------------------

  function Labels(turns: seq<Turn>): set<Label> { set i | 0 <= i < |turns| :: turns[i].speaker }

  lemma {:induction false} StrangersHaveNone(turns: seq<Turn>, s: Span, x: Label)
    requires x !in Labels(turns)
    ensures Seconds(turns, s, x) == 0.0
  {
    if turns != [] {
      assert turns[0].speaker in Labels(turns);
      assert forall i | 0 <= i < |turns[1..]| :: turns[1..][i].speaker == turns[i + 1].speaker;
      StrangersHaveNone(turns[1..], s, x);
    }
  }

  lemma {:induction false} LeaderOf(turns: seq<Turn>, s: Span, among: set<Label>) returns (l: Label)
    requires among != {}
    ensures l in among && forall x | x in among && x != l :: Beats(turns, s, l, x)
    decreases |among|
  {
    EmptyMeansNone(among);
    l :| l in among;
    var rest := among - {l};
    if rest != {} {
      var first := l;
      var m := LeaderOf(turns, s, rest);
      if Beats(turns, s, m, first) { l := m; }
      forall x | x in among && x != l ensures Beats(turns, s, l, x) {
        if x != first && x != m { assert x in rest && Beats(turns, s, m, x); }
      }
    }
  }

  lemma RankExists(turns: seq<Turn>, s: Span)
    ensures exists r :: IsRank(turns, s, r)
  {
    forall x ensures Seconds(turns, s, x) >= 0.0 && (x !in Labels(turns) ==> Seconds(turns, s, x) == 0.0) {
      SecondsNonNegative(turns, s, x);
      if x !in Labels(turns) { StrangersHaveNone(turns, s, x); }
    }
    var heard := set x | x in Labels(turns) && Seconds(turns, s, x) > 0.0;
    if heard == {} {
      assert IsRank(turns, s, Rank(None, 0.0, 0.0)) by {
        forall x ensures Seconds(turns, s, x) == 0.0 { assert x !in heard; }
      }
    } else {
      var l := LeaderOf(turns, s, heard);
      var others := heard - {l};
      var runnerUp := 0.0;
      if others != {} {
        var m := LeaderOf(turns, s, others);
        runnerUp := Seconds(turns, s, m);
        assert m != l && Seconds(turns, s, m) == runnerUp;
      }
      forall x | x != l ensures Beats(turns, s, l, x) && Seconds(turns, s, x) <= runnerUp {
        assert x in heard ==> x in others;
      }
      assert IsRank(turns, s, Rank(Some(l), Seconds(turns, s, l), runnerUp));
    }
  }

  /** `rankLabels`, as a value. */
  ghost function RankOf(turns: seq<Turn>, s: Span): (r: Rank)
    ensures IsRank(turns, s, r)
  {
    RankExists(turns, s);
    var r :| IsRank(turns, s, r);
    r
  }

  // ---- The order of the turns does not matter ------------------------------------------------------

  function Without(b: seq<Turn>, i: nat): seq<Turn>
    requires i < |b|
  {
    b[..i] + b[i + 1..]
  }

  lemma RemoveMatch(a: seq<Turn>, b: seq<Turn>) returns (i: nat)
    requires a != [] && multiset(a) == multiset(b)
    ensures i < |b| && b[i] == a[0] && multiset(Without(b, i)) == multiset(a[1..])
  {
    assert a[0] in multiset(b);
    i :| 0 <= i < |b| && b[i] == a[0];
    assert b == b[..i] + ([b[i]] + b[i + 1..]);
    assert a == [a[0]] + a[1..];
    assert multiset(Without(b, i)) == multiset(b) - multiset{a[0]};
  }

  lemma SecondsWithout(b: seq<Turn>, i: nat, s: Span, x: Label)
    requires i < |b|
    ensures Seconds(b, s, x) == (if b[i].speaker == x then Overlap(s, b[i]) else 0.0) + Seconds(Without(b, i), s, x)
  {
    SecondsAppend(b[..i], b[i + 1..], s, x);
    SecondsAppend(b[..i + 1], b[i + 1..], s, x);
    SecondsNext(b, i, s, x);
    assert b == b[..i + 1] + b[i + 1..];
  }

  lemma {:induction false} SecondsIgnoreOrder(a: seq<Turn>, b: seq<Turn>, s: Span, x: Label)
    requires multiset(a) == multiset(b)
    ensures Seconds(a, s, x) == Seconds(b, s, x)
    decreases |a|
  {
    if a == [] {
      assert |b| == |multiset(b)| == 0;
    } else {
      var i := RemoveMatch(a, b);
      SecondsIgnoreOrder(a[1..], Without(b, i), s, x);
      SecondsWithout(b, i, s, x);
    }
  }

  /** Permuting the turns changes no ranking. */
  lemma RankIgnoresOrder(a: seq<Turn>, b: seq<Turn>, s: Span)
    requires multiset(a) == multiset(b)
    ensures RankOf(a, s) == RankOf(b, s)
  {
    var r := RankOf(a, s);
    forall x ensures Seconds(a, s, x) == Seconds(b, s, x) { SecondsIgnoreOrder(a, b, s, x); }
    assert IsRank(b, s, r) by {
      if r.winner.Some? {
        assert forall x | x != r.winner.value :: Beats(a, s, r.winner.value, x) ==> Beats(b, s, r.winner.value, x);
        if r.runnerUp != 0.0 {
          var y :| y != r.winner.value && Seconds(a, s, y) == r.runnerUp;
          assert Seconds(b, s, y) == r.runnerUp;
        }
      }
    }
    RankIsUnique(b, s, r, RankOf(b, s));
  }

  // ---- Adjacent stretches ----------------------------------------------------------------------------

  /** Over adjacent stretches the overlap with a turn adds up. */
  lemma OverlapAdds(start: real, mid: real, end: real, t: Turn)
    requires start <= mid <= end && t.start <= t.end
    ensures Overlap(Span(start, end), t) == Overlap(Span(start, mid), t) + Overlap(Span(mid, end), t)
  {
  }

  predicate TurnsOk(turns: seq<Turn>) { forall i | 0 <= i < |turns| :: turns[i].start <= turns[i].end }

  lemma {:induction false} SecondsAdd(turns: seq<Turn>, start: real, mid: real, end: real, x: Label)
    requires start <= mid <= end && TurnsOk(turns)
    ensures Seconds(turns, Span(start, end), x) == Seconds(turns, Span(start, mid), x) + Seconds(turns, Span(mid, end), x)
  {
    if turns != [] {
      OverlapAdds(start, mid, end, turns[0]);
      SecondsAdd(turns[1..], start, mid, end, x);
    }
  }

  /** The label of two adjacent stretches that agree is theirs. */
  lemma AgreementAdds(turns: seq<Turn>, start: real, mid: real, end: real)
    requires start <= mid <= end && TurnsOk(turns)
    requires RankOf(turns, Span(start, mid)).winner == RankOf(turns, Span(mid, end)).winner
    ensures RankOf(turns, Span(start, end)).winner == RankOf(turns, Span(start, mid)).winner
  {
    var (a, b, whole) := (Span(start, mid), Span(mid, end), Span(start, end));
    var (p, q, r) := (RankOf(turns, a), RankOf(turns, b), RankOf(turns, whole));
    forall x ensures Seconds(turns, whole, x) == Seconds(turns, a, x) + Seconds(turns, b, x) { SecondsAdd(turns, start, mid, end, x); }
    if p.winner.Some? {
      var l := p.winner.value;
      forall x | x != l ensures Beats(turns, whole, l, x) { assert Beats(turns, a, l, x) && Beats(turns, b, l, x); }
      if r.winner.Some? { assert r.winner.value == l || Beats(turns, whole, r.winner.value, l); }
    }
  }

  /** A label with more seconds than every other one wins. */
  lemma WinnerIs(turns: seq<Turn>, s: Span, l: Label)
    requires Seconds(turns, s, l) > 0.0 && forall x | x != l :: Seconds(turns, s, x) < Seconds(turns, s, l)
    ensures RankOf(turns, s).winner == Some(l)
  {
    var r := RankOf(turns, s);
    if r.winner.Some? { assert r.winner.value == l || Beats(turns, s, r.winner.value, l); }
  }
}
