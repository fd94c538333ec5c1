/**
 Who spoke how much: each speaker's turns as a percentage of all of them, rounded to two
 decimals. Every share is a percentage, together they make a hundred to within rounding, and
 the order of the turns does not matter.
 */
module TalkShare {
  import opened Common
  import opened Ranking

  function Length(t: Turn): real { t.end - t.start }

  /** The seconds of one speaker. */
  function Spoken(turns: seq<Turn>, l: Label): real
  {
    if turns == [] then 0.0 else (if turns[0].speaker == l then Length(turns[0]) else 0.0) + Spoken(turns[1..], l)
  }

  function Total(turns: seq<Turn>): real { if turns == [] then 0.0 else Length(turns[0]) + Total(turns[1..]) }

  /** A percentage with two decimals, rounded half up. */
  function Rounded(x: real): real { (x * 100.0 + 0.5).Floor as real / 100.0 }

  function Share(turns: seq<Turn>, l: Label): real
    requires Total(turns) > 0.0
  {
    Rounded(Spoken(turns, l) / Total(turns) * 100.0)
  }

  /** `talkSharePct`: nothing when nobody spoke any time at all. */
  function Shares(turns: seq<Turn>): map<Label, real>
  {
    if Total(turns) > 0.0 then map l | l in Labels(turns) :: Share(turns, l) else map[]
  }

  // ---- Speakers in order of appearance --------------------------------------------------------------

  function SumSpoken(order: seq<Label>, turns: seq<Turn>): real
  {
    if order == [] then 0.0 else Spoken(turns, order[0]) + SumSpoken(order[1..], turns)
  }

  /** One more turn counts once, for its own speaker. */
  lemma {:induction false} SumSpokenNext(order: seq<Label>, turns: seq<Turn>)
    requires turns != [] && Distinct(order)
    ensures SumSpoken(order, turns) == SumSpoken(order, turns[1..]) + (if turns[0].speaker in order then Length(turns[0]) else 0.0)
  {
    if order != [] {
      SumSpokenNext(order[1..], turns);
      assert order == [order[0]] + order[1..];
    }
  }

  lemma {:induction false} NobodySpoke(order: seq<Label>)
    ensures SumSpoken(order, []) == 0.0
  {
    if order != [] { NobodySpoke(order[1..]); }
  }

  /** Summed over the speakers or over the turns, the seconds are the same. */
  lemma {:induction false} SpeakersAddUp(order: seq<Label>, turns: seq<Turn>)
    requires Distinct(order) && forall i | 0 <= i < |turns| :: turns[i].speaker in order
    ensures SumSpoken(order, turns) == Total(turns)
  {
    if turns == [] {
      NobodySpoke(order);
    } else {
      SpeakersAddUp(order, turns[1..]);
      SumSpokenNext(order, turns);
      assert turns[0].speaker in order;
    }
  }

  // ---- The loops ------------------------------------------------------------------------------------

  lemma {:induction false} SpokenAppend(a: seq<Turn>, b: seq<Turn>, l: Label)
    ensures Spoken(a + b, l) == Spoken(a, l) + Spoken(b, l)
  {
    if a == [] {
      assert a + b == b;
    } else {
      SpokenAppend(a[1..], b, l);
      assert (a + b)[1..] == a[1..] + b;
    }
  }

  lemma SpokenNext(turns: seq<Turn>, i: nat, l: Label)
    requires i < |turns|
    ensures Spoken(turns[..i + 1], l) == Spoken(turns[..i], l) + (if turns[i].speaker == l then Length(turns[i]) else 0.0)
  {
    assert turns[..i + 1] == turns[..i] + [turns[i]];
    SpokenAppend(turns[..i], [turns[i]], l);
  }

  lemma {:induction false} StrangersAreSilent(turns: seq<Turn>, l: Label)
    requires l !in Labels(turns)
    ensures Spoken(turns, l) == 0.0
  {
    if turns != [] {
      assert turns[0].speaker in Labels(turns);
      assert forall i | 0 <= i < |turns[1..]| :: turns[1..][i].speaker == turns[i + 1].speaker;
      StrangersAreSilent(turns[1..], l);
    }
  }

  lemma LabelsNext(turns: seq<Turn>, i: nat)
    requires i < |turns|
    ensures Labels(turns[..i + 1]) == Labels(turns[..i]) + {turns[i].speaker}
  {
    var (a, b) := (turns[..i], turns[..i + 1]);
    forall l | l in Labels(b) ensures l in Labels(a) + {turns[i].speaker} {
      var k :| 0 <= k < |b| && b[k].speaker == l;
      if k < i { assert a[k].speaker == l; }
    }
    forall l | l in Labels(a) + {turns[i].speaker} ensures l in Labels(b) {
      if l in Labels(a) {
        var k :| 0 <= k < |a| && a[k].speaker == l;
        assert b[k].speaker == l;
      } else {
        assert b[i].speaker == l;
      }
    }
  }

  /** `turnSeconds`, with its insertion order. */
  method AddUp(turns: seq<Turn>) returns (seconds: map<Label, real>, order: seq<Label>)
    ensures Distinct(order) && seconds.Keys == Labels(turns) && forall l :: l in order <==> l in seconds
    ensures forall l | l in seconds :: seconds[l] == Spoken(turns, l)
  {
    seconds, order := map[], [];
    for i := 0 to |turns|
      invariant Distinct(order) && seconds.Keys == Labels(turns[..i])
      invariant forall l :: l in order <==> l in seconds
      invariant forall l | l in seconds :: seconds[l] == Spoken(turns[..i], l)
    {
      var l := turns[i].speaker;
      LabelsNext(turns, i);
      forall x ensures Spoken(turns[..i + 1], x) == Spoken(turns[..i], x) + (if l == x then Length(turns[i]) else 0.0) {
        SpokenNext(turns, i, x);
      }
      if l !in seconds {
        StrangersAreSilent(turns[..i], l);
        order := order + [l];
      }
      seconds := seconds[l := (if l in seconds then seconds[l] else 0.0) + Length(turns[i])];
    }
    assert turns[..|turns|] == turns;
  }

  lemma {:induction false} SumSpokenStep(order: seq<Label>, l: Label, turns: seq<Turn>)
    ensures SumSpoken(order + [l], turns) == SumSpoken(order, turns) + Spoken(turns, l)
  {
    if order == [] {
      assert order + [l] == [l] && [l][1..] == [];
    } else {
      SumSpokenStep(order[1..], l, turns);
      assert (order + [l])[1..] == order[1..] + [l];
    }
  }

  /** The reduce over the seconds. */
  method SumUp(turns: seq<Turn>, seconds: map<Label, real>, order: seq<Label>) returns (total: real)
    requires forall i | 0 <= i < |order| :: order[i] in seconds && seconds[order[i]] == Spoken(turns, order[i])
    ensures total == SumSpoken(order, turns)
  {
    total := 0.0;
    for i := 0 to |order|
      invariant total == SumSpoken(order[..i], turns)
    {
      SumSpokenStep(order[..i], order[i], turns);
      assert order[..i + 1] == order[..i] + [order[i]];
      total := total + seconds[order[i]];
    }
    assert order[..|order|] == order;
  }

  // ---- What a share is ------------------------------------------------------------------------------

  /** The time from start to end of every turn of one speaker, the last turn first. */
  ghost function Held(turns: seq<Turn>, l: Label): real
  {
    if turns == [] then 0.0
    else
      var t := turns[|turns| - 1];
      Held(turns[..|turns| - 1], l) + if t.speaker == l then t.end - t.start else 0.0
  }

  ghost function AllHeld(turns: seq<Turn>): real
  {
    if turns == [] then 0.0 else AllHeld(turns[..|turns| - 1]) + (turns[|turns| - 1].end - turns[|turns| - 1].start)
  }

  lemma {:induction false} TotalAppend(a: seq<Turn>, b: seq<Turn>)
    ensures Total(a + b) == Total(a) + Total(b)
  {
    if a == [] {
      assert a + b == b;
    } else {
      TotalAppend(a[1..], b);
      assert (a + b)[1..] == a[1..] + b;
    }
  }

  lemma {:induction false} SpokenIsHeld(turns: seq<Turn>, l: Label)
    ensures Spoken(turns, l) == Held(turns, l) && Total(turns) == AllHeld(turns)
  {
    if turns != [] {
      var (init, last) := (turns[..|turns| - 1], turns[|turns| - 1]);
      SpokenIsHeld(init, l);
      assert turns == init + [last];
      SpokenAppend(init, [last], l);
      TotalAppend(init, [last]);
    }
  }

  /** `share` is `part` of `whole` in per cent, to two decimals, halves rounded up. */
  ghost predicate IsPercent(share: real, part: real, whole: real)
    requires whole > 0.0
  {
    && (share * 100.0).Floor as real == share * 100.0
    && -0.005 < share - 100.0 * part / whole <= 0.005
  }

  lemma RoundedIsPercent(part: real, whole: real)
    requires whole > 0.0
    ensures IsPercent(Rounded(part / whole * 100.0), part, whole)
  {
    var x := part / whole * 100.0;
    var n := (x * 100.0 + 0.5).Floor;
    assert n as real <= x * 100.0 + 0.5 < n as real + 1.0;
    assert x == 100.0 * part / whole;
    assert Rounded(x) == n as real / 100.0;
  }

  /**
   Who is in the map, and with what: every speaker with the time from start to end of his turns in
   per cent of everyone's, or nobody when that is no time at all.
   */
  lemma SharesTell(turns: seq<Turn>)
    ensures forall l :: l in Shares(turns) <==> AllHeld(turns) > 0.0 && exists i :: 0 <= i < |turns| && turns[i].speaker == l
    ensures forall l | l in Shares(turns) :: IsPercent(Shares(turns)[l], Held(turns, l), AllHeld(turns))
  {
    SpokenIsHeld(turns, 0);
    forall l | l in Shares(turns) ensures IsPercent(Shares(turns)[l], Held(turns, l), AllHeld(turns)) {
      SpokenIsHeld(turns, l);
      RoundedIsPercent(Spoken(turns, l), Total(turns));
    }
  }

  /** The part of `alignSegments` that computes the shares. */
  method TalkShares(turns: seq<Turn>) returns (shares: map<Label, real>)
    ensures shares == Shares(turns)
    ensures forall l :: l in shares <==> AllHeld(turns) > 0.0 && exists i :: 0 <= i < |turns| && turns[i].speaker == l
    ensures forall l | l in shares :: IsPercent(shares[l], Held(turns, l), AllHeld(turns))
  {
    hide IsPercent, Held, AllHeld, Rounded;
    SharesTell(turns);
    var seconds, order := AddUp(turns);
    var total := SumUp(turns, seconds, order);
    forall i | 0 <= i < |turns| ensures turns[i].speaker in order { assert turns[i].speaker in Labels(turns); }
    SpeakersAddUp(order, turns);
    if total <= 0.0 { return map[]; }
    shares := map l | l in seconds :: Rounded(seconds[l] / total * 100.0);
  }

  // ---- Bounds -------------------------------------------------------------------------------------------

  lemma RoundedNear(x: real)
    ensures x - 0.005 <= Rounded(x) <= x + 0.005
    ensures 0.0 <= x <= 100.0 ==> 0.0 <= Rounded(x) <= 100.0
  {
    var n := (x * 100.0 + 0.5).Floor;
    assert n as real <= x * 100.0 + 0.5 < n as real + 1.0;
    if 0.0 <= x <= 100.0 { assert 0 <= n <= 10000; }
  }

  lemma {:induction false} SpokenIsPart(turns: seq<Turn>, l: Label)
    requires TurnsOk(turns)
    ensures 0.0 <= Spoken(turns, l) <= Total(turns)
  {
    if turns != [] { SpokenIsPart(turns[1..], l); }
  }

  lemma RatioBounds(part: real, whole: real)
    requires 0.0 <= part <= whole && whole > 0.0
    ensures 0.0 <= part / whole * 100.0 <= 100.0
  {
    var q := part / whole;
    assert q * whole == part;
    SignOfFactor(q, whole);
    assert (1.0 - q) * whole == whole - part;
    SignOfFactor(1.0 - q, whole);
  }

  lemma SignOfFactor(x: real, w: real)
    requires w > 0.0 && x * w >= 0.0
    ensures x >= 0.0
  {
  }

  lemma WholeIsAHundred(whole: real)
    requires whole > 0.0
    ensures whole / whole * 100.0 == 100.0
  {
  }

  /** Every share is a percentage. */
  lemma SharesArePercentages(turns: seq<Turn>, l: Label)
    requires TurnsOk(turns) && l in Shares(turns)
    ensures 0.0 <= Shares(turns)[l] <= 100.0
  {
    SpokenIsPart(turns, l);
    RatioBounds(Spoken(turns, l), Total(turns));
    RoundedNear(Spoken(turns, l) / Total(turns) * 100.0);
  }

  function SumShares(order: seq<Label>, turns: seq<Turn>): real
    requires Total(turns) > 0.0
  {
    if order == [] then 0.0 else Share(turns, order[0]) + SumShares(order[1..], turns)
  }

  lemma RatiosAdd(a: real, b: real, whole: real)
    requires whole > 0.0
    ensures (a + b) / whole * 100.0 == a / whole * 100.0 + b / whole * 100.0
  {
    assert (a + b) / whole == a / whole + b / whole;
  }

  lemma {:induction false} SumSharesNear(order: seq<Label>, turns: seq<Turn>)
    requires Total(turns) > 0.0
    ensures SumSpoken(order, turns) / Total(turns) * 100.0 - 0.005 * |order| as real <= SumShares(order, turns)
            <= SumSpoken(order, turns) / Total(turns) * 100.0 + 0.005 * |order| as real
  {
    if order != [] {
      SumSharesNear(order[1..], turns);
      RatiosAdd(Spoken(turns, order[0]), SumSpoken(order[1..], turns), Total(turns));
      RoundedNear(Spoken(turns, order[0]) / Total(turns) * 100.0);
      assert |order| as real == |order[1..]| as real + 1.0;
    }
  }

  lemma SumSpokenIsTotal(order: seq<Label>, turns: seq<Turn>)
    requires Distinct(order) && forall l :: l in order <==> l in Labels(turns)
    ensures SumSpoken(order, turns) == Total(turns)
  {
    forall i | 0 <= i < |turns| ensures turns[i].speaker in order { assert turns[i].speaker in Labels(turns); }
    SpeakersAddUp(order, turns);
  }

  /** The shares of `n` speakers add up to a hundred, to within half a hundredth each. */
  lemma SharesMakeAHundred(turns: seq<Turn>, order: seq<Label>)
    requires Total(turns) > 0.0 && Distinct(order) && forall l :: l in order <==> l in Labels(turns)
    ensures 100.0 - 0.005 * |order| as real <= SumShares(order, turns) <= 100.0 + 0.005 * |order| as real
  {
    SumSpokenIsTotal(order, turns);
    SumSharesNear(order, turns);
    WholeIsAHundred(Total(turns));
  }

  // ---- The order of the turns -------------------------------------------------------------------------------

  lemma SpokenWithout(b: seq<Turn>, i: nat, l: Label)
    requires i < |b|
    ensures Spoken(b, l) == (if b[i].speaker == l then Length(b[i]) else 0.0) + Spoken(Without(b, i), l)
  {
    SpokenAppend(b[..i], b[i + 1..], l);
    SpokenAppend(b[..i + 1], b[i + 1..], l);
    SpokenNext(b, i, l);
    assert b == b[..i + 1] + b[i + 1..];
  }

  lemma {:induction false} SpokenIgnoresOrder(a: seq<Turn>, b: seq<Turn>, l: Label)
    requires multiset(a) == multiset(b)
    ensures Spoken(a, l) == Spoken(b, l)
    decreases |a|
  {
    if a == [] {
      assert |b| == |multiset(b)| == 0;
    } else {
      var i := RemoveMatch(a, b);
      SpokenIgnoresOrder(a[1..], Without(b, i), l);
      SpokenWithout(b, i, l);
    }
  }

  lemma LabelsIgnoreOrder(a: seq<Turn>, b: seq<Turn>)
    requires multiset(a) == multiset(b)
    ensures Labels(a) <= Labels(b)
  {
    forall l | l in Labels(a) ensures l in Labels(b) {
      var i :| 0 <= i < |a| && a[i].speaker == l;
      assert a[i] in multiset(b);
      var k :| 0 <= k < |b| && b[k] == a[i];
    }
  }

  /** Each label once, in some order. */
  lemma {:induction false} RollOf(among: set<Label>) returns (order: seq<Label>)
    ensures Distinct(order) && forall l :: l in order <==> l in among
    decreases |among|
  {
    if among == {} {
      order := [];
    } else {
      EmptyMeansNone(among);
      var l :| l in among;
      var rest := RollOf(among - {l});
      order := [l] + rest;
    }
  }

  lemma {:induction false} SameSums(order: seq<Label>, a: seq<Turn>, b: seq<Turn>)
    requires multiset(a) == multiset(b)
    ensures SumSpoken(order, a) == SumSpoken(order, b)
  {
    if order != [] {
      SameSums(order[1..], a, b);
      SpokenIgnoresOrder(a, b, order[0]);
    }
  }

  /** Permuting the turns changes no share. */
  lemma SharesIgnoreOrder(a: seq<Turn>, b: seq<Turn>)
    requires multiset(a) == multiset(b)
    ensures Shares(a) == Shares(b)
  {
    LabelsIgnoreOrder(a, b);
    LabelsIgnoreOrder(b, a);
    var order := RollOf(Labels(a));
    forall i | 0 <= i < |a| ensures a[i].speaker in order { assert a[i].speaker in Labels(a); }
    forall i | 0 <= i < |b| ensures b[i].speaker in order { assert b[i].speaker in Labels(b); }
    SpeakersAddUp(order, a);
    SpeakersAddUp(order, b);
    SameSums(order, a, b);
    forall l | l in Labels(a) ensures Spoken(a, l) == Spoken(b, l) { SpokenIgnoresOrder(a, b, l); }
  }

  // ---- Time, not turns -----------------------------------------------------------------------------------------

  /** Splitting a turn in two at any instant changes no share. */
  lemma SplittingChangesNothing(before: seq<Turn>, t: Turn, after: seq<Turn>, instant: real)
    ensures Shares(before + [t] + after) == Shares(before + [t.(end := instant), t.(start := instant)] + after)
  {
    var (a, b) := (before + [t] + after, before + [t.(end := instant), t.(start := instant)] + after);
    forall l ensures Spoken(a, l) == Spoken(b, l) { SplitSpoken(before, t, after, instant, l); }
    SplitSpoken(before, t, after, instant, 0);
    assert Labels(a) == Labels(b) by {
      assert a[|before|] == t && b[|before|].speaker == t.speaker == b[|before| + 1].speaker;
      forall l | l in Labels(a) ensures l in Labels(b) {
        var i :| 0 <= i < |a| && a[i].speaker == l;
        assert b[if i <= |before| then i else i + 1].speaker == l;
      }
      forall l | l in Labels(b) ensures l in Labels(a) {
        var i :| 0 <= i < |b| && b[i].speaker == l;
        assert a[if i <= |before| then i else i - 1].speaker == l;
      }
    }
  }

  lemma SplitSpoken(before: seq<Turn>, t: Turn, after: seq<Turn>, instant: real, l: Label)
    ensures Spoken(before + [t] + after, l) == Spoken(before + [t.(end := instant), t.(start := instant)] + after, l)
    ensures Total(before + [t] + after) == Total(before + [t.(end := instant), t.(start := instant)] + after)
  {
    var two := [t.(end := instant), t.(start := instant)];
    assert two[1..] == [two[1]] && two[1..][1..] == [];
    SpokenAppend(before + [t], after, l);
    SpokenAppend(before, [t], l);
    SpokenAppend(before + two, after, l);
    SpokenAppend(before, two, l);
    TotalAppend(before + [t], after);
    TotalAppend(before, [t]);
    TotalAppend(before + two, after);
    TotalAppend(before, two);
  }

  /** Turns of one speaker, each starting where the one before ended. */
  predicate Chain(turns: seq<Turn>, l: Label)
  {
    (forall i | 0 <= i < |turns| :: turns[i].speaker == l) && (forall i | 0 < i < |turns| :: turns[i].start == turns[i - 1].end)
  }

  lemma {:induction false} ChainHolds(turns: seq<Turn>, l: Label)
    requires turns != [] && Chain(turns, l)
    ensures Held(turns, l) == AllHeld(turns) == turns[|turns| - 1].end - turns[0].start
  {
    if |turns| > 1 {
      ChainHolds(turns[..|turns| - 1], l);
    } else {
      assert turns[..0] == [];
    }
  }

  /** Two speakers who each cover one stretch share the time as the lengths of the stretches, into however many turns they are cut. */
  lemma StretchesShare(a: seq<Turn>, x: Label, b: seq<Turn>, y: Label)
    requires a != [] && b != [] && x != y && Chain(a, x) && Chain(b, y)
    ensures var (p, q) := (a[|a| - 1].end - a[0].start, b[|b| - 1].end - b[0].start);
            p + q > 0.0 ==>
              && Shares(a + b).Keys == {x, y}
              && IsPercent(Shares(a + b)[x], p, p + q) && IsPercent(Shares(a + b)[y], q, p + q)
  {
    ChainHolds(a, x);
    ChainHolds(b, y);
    SpokenIsHeld(a, x);
    SpokenIsHeld(b, y);
    StrangersAreSilent(a, y);
    StrangersAreSilent(b, x);
    SpokenAppend(a, b, x);
    SpokenAppend(a, b, y);
    TotalAppend(a, b);
    if Total(a + b) > 0.0 {
      assert (a + b)[0].speaker == x && (a + b)[|a|].speaker == y;
      assert Labels(a + b) == {x, y};
      RoundedIsPercent(Spoken(a, x), Total(a + b));
      RoundedIsPercent(Spoken(b, y), Total(a + b));
    }
  }

  lemma {:induction false} SomebodySpokeIff(turns: seq<Turn>)
    requires TurnsOk(turns)
    ensures AllHeld(turns) >= 0.0
    ensures AllHeld(turns) > 0.0 <==> exists i :: 0 <= i < |turns| && turns[i].start < turns[i].end
  {
    if turns != [] {
      var (init, last) := (turns[..|turns| - 1], turns[|turns| - 1]);
      SomebodySpokeIff(init);
      if i :| 0 <= i < |turns| && turns[i].start < turns[i].end { assert i < |init| ==> init[i] == turns[i]; }
      if i :| 0 <= i < |init| && init[i].start < init[i].end { assert turns[i] == init[i]; }
      if last.start < last.end { assert turns[|turns| - 1] == last; }
    }
  }

  /** Nobody has a share exactly when no turn lasts any time. */
  lemma NoSharesIff(turns: seq<Turn>)
    requires TurnsOk(turns)
    ensures Shares(turns) == map[] <==> forall i | 0 <= i < |turns| :: turns[i].end <= turns[i].start
  {
    SharesTell(turns);
    SomebodySpokeIff(turns);
    if i :| 0 <= i < |turns| && turns[i].start < turns[i].end { assert turns[i].speaker in Shares(turns); }
  }
}
