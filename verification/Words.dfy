/**
 The whitespace tokens of a text, with their offsets, and what slicing at token boundaries
 does to them: nothing is lost and nothing is made up.
 */
module Words {
  import opened Common

  /** What `\s` matches and `trim` removes. */
  predicate IsSpace(c: char)
  {
    var n := c as int;
    || 9 <= n <= 13 || n == 32 || n == 0xA0 || n == 0x1680 || 0x2000 <= n <= 0x200A
    || n == 0x2028 || n == 0x2029 || n == 0x202F || n == 0x205F || n == 0x3000 || n == 0xFEFF
  }

  /** The first position from `i` on that holds no space, or the end. */
  function SkipSpaces(text: string, i: nat): (j: nat)
    requires i <= |text|
    ensures i <= j <= |text| && (j < |text| ==> !IsSpace(text[j]))
    ensures forall k | i <= k < j :: IsSpace(text[k])
    decreases |text| - i
  {
    if i < |text| && IsSpace(text[i]) then SkipSpaces(text, i + 1) else i
  }

  /** The first position from `i` on that holds a space, or the end. */
  function SkipWord(text: string, i: nat): (j: nat)
    requires i <= |text|
    ensures i <= j <= |text| && (j < |text| ==> IsSpace(text[j]))
    ensures forall k | i <= k < j :: !IsSpace(text[k])
    decreases |text| - i
  {
    if i < |text| && !IsSpace(text[i]) then SkipWord(text, i + 1) else i
  }

  /** A token: its offsets in the text it came from. */
  datatype Token = Token(start: nat, end: nat)

  function TokensFrom(text: string, i: nat): (tokens: seq<Token>)
    requires i <= |text|
    ensures forall k | 0 <= k < |tokens| :: i <= tokens[k].start < tokens[k].end <= |text|
    decreases |text| - i
  {
    var s := SkipSpaces(text, i);
    if s == |text| then []
    else
      var e := SkipWord(text, s);
      [Token(s, e)] + TokensFrom(text, e)
  }

  /** `tokenize`: the maximal runs without spaces, in order. */
  function Tokens(text: string): (tokens: seq<Token>)
    ensures forall k | 0 <= k < |tokens| :: tokens[k].start < tokens[k].end <= |text|
  {
    TokensFrom(text, 0)
  }

  function TextsOf(text: string, tokens: seq<Token>): (texts: seq<string>)
    requires forall k | 0 <= k < |tokens| :: tokens[k].start < tokens[k].end <= |text|
    ensures |texts| == |tokens|
  {
    seq(|tokens|, i requires 0 <= i < |tokens| => text[tokens[i].start..tokens[i].end])
  }

  /** The tokens' texts. */
  function WordsOf(text: string): seq<string> { TextsOf(text, Tokens(text)) }

  /** `trim`. */
  function Trim(text: string): string
  {
    var s := SkipSpaces(text, 0);
    text[s..TrimEnd(text, s)]
  }

  function TrimEnd(text: string, s: nat): (e: nat)
    requires s <= |text|
    ensures s <= e <= |text|
    decreases |text|
  {
    if |text| > s && IsSpace(text[|text| - 1]) then TrimEnd(text[..|text| - 1], s) else |text|
  }

  /** Trimming takes the spaces at both ends and nothing else. */
  lemma TrimTakesEnds(text: string)
    ensures var s := SkipSpaces(text, 0);
            var e := TrimEnd(text, s);
            && text == text[..s] + Trim(text) + text[e..]
            && (forall k | 0 <= k < s || e <= k < |text| :: IsSpace(text[k]))
            && (Trim(text) != "" ==> !IsSpace(Trim(text)[0]) && !IsSpace(Trim(text)[|Trim(text)| - 1]))
  {
    TrimEndTells(text, SkipSpaces(text, 0));
  }

  lemma {:induction false} TrimEndTells(text: string, s: nat)
    requires s <= |text|
    ensures forall k | TrimEnd(text, s) <= k < |text| :: IsSpace(text[k])
    ensures TrimEnd(text, s) > s ==> !IsSpace(text[TrimEnd(text, s) - 1])
    decreases |text|
  {
    if |text| > s && IsSpace(text[|text| - 1]) {
      TrimEndTells(text[..|text| - 1], s);
    }
  }

  // ---- Tokens are ordered, separated and maximal --------------------------------------------

  lemma {:induction false} TokensAreOrdered(text: string, i: nat, a: nat, b: nat)
    requires i <= |text| && a < b < |TokensFrom(text, i)|
    ensures TokensFrom(text, i)[a].end <= TokensFrom(text, i)[b].start
    decreases |text| - i
  {
    var s := SkipSpaces(text, i);
    var e := SkipWord(text, s);
    if a == 0 {
      assert TokensFrom(text, i)[b] == TokensFrom(text, e)[b - 1];
    } else {
      TokensAreOrdered(text, e, a - 1, b - 1);
    }
  }

  lemma {:induction false} TokenHasNoSpace(text: string, i: nat, k: nat, p: nat)
    requires i <= |text| && k < |TokensFrom(text, i)| && TokensFrom(text, i)[k].start <= p < TokensFrom(text, i)[k].end
    ensures !IsSpace(text[p])
    decreases |text| - i
  {
    if k > 0 { TokenHasNoSpace(text, SkipWord(text, SkipSpaces(text, i)), k - 1, p); }
  }

  /** Every character that is not a space lies in a token, which `k` names. */
  lemma {:induction false} CharacterHasToken(text: string, i: nat, p: nat) returns (k: nat)
    requires i <= p < |text| && !IsSpace(text[p])
    ensures k < |TokensFrom(text, i)| && TokensFrom(text, i)[k].start <= p < TokensFrom(text, i)[k].end
    decreases |text| - i
  {
    var e := SkipWord(text, SkipSpaces(text, i));
    if p < e {
      k := 0;
    } else {
      var rest := CharacterHasToken(text, e, p);
      k := rest + 1;
    }
  }

  /** Tokens hold every character that is not a space, and no space. */
  lemma {:induction false} TokensCover(text: string, p: nat)
    requires p < |text|
    ensures !IsSpace(text[p]) <==> exists k | 0 <= k < |Tokens(text)| :: Tokens(text)[k].start <= p < Tokens(text)[k].end
  {
    if !IsSpace(text[p]) {
      var k := CharacterHasToken(text, 0, p);
      assert Tokens(text)[k].start <= p < Tokens(text)[k].end;
    } else {
      forall k | 0 <= k < |Tokens(text)| && Tokens(text)[k].start <= p < Tokens(text)[k].end ensures false {
        TokenHasNoSpace(text, 0, k, p);
      }
    }
  }

  /** The loop of `tokenize`: each match starts where the one before it ended. */
  method Tokenize(text: string) returns (tokens: seq<Token>)
    ensures tokens == Tokens(text)
  {
    tokens := [];
    var at := 0;
    while at < |text|
      invariant 0 <= at <= |text| && tokens + TokensFrom(text, at) == Tokens(text)
    {
      var start := at;
      while start < |text| && IsSpace(text[start])
        invariant at <= start <= |text| && SkipSpaces(text, start) == SkipSpaces(text, at)
      {
        start := start + 1;
      }
      if start == |text| { break; }
      var end := start;
      while end < |text| && !IsSpace(text[end])
        invariant start <= end <= |text| && SkipWord(text, end) == SkipWord(text, start)
      {
        end := end + 1;
      }
      assert TokensFrom(text, at) == [Token(start, end)] + TokensFrom(text, end);
      tokens, at := tokens + [Token(start, end)], end;
    }
    assert TokensFrom(text, |text|) == [];
  }

  // ---- Slicing ------------------------------------------------------------------------------

  /** The same token, `offset` further on. */
  function Moved(t: Token, offset: nat): Token { Token(t.start + offset, t.end + offset) }

  /** Cut where a word ends, a text's tokens are those of the whole that lie before the cut. */
  lemma {:induction false} SkipsAgree(text: string, from: nat, to: nat, i: nat)
    requires from <= i <= to <= |text|
    ensures SkipSpaces(text[from..to], i - from) == (if SkipSpaces(text, i) <= to then SkipSpaces(text, i) - from else to - from)
    ensures SkipWord(text[from..to], i - from) == (if SkipWord(text, i) <= to then SkipWord(text, i) - from else to - from)
    decreases |text| - i
  {
    if i < to {
      assert text[from..to][i - from] == text[i];
      SkipsAgree(text, from, to, i + 1);
    }
  }

  lemma TokensStep(text: string, i: nat)
    requires i <= |text| && TokensFrom(text, i) != []
    ensures var s := SkipSpaces(text, i);
            var e := SkipWord(text, s);
            i <= s < e <= |text| && TokensFrom(text, i) == [Token(s, e)] + TokensFrom(text, e)
  {
  }

  lemma SliceSkips(text: string, from: nat, to: nat, i: nat, s: nat, e: nat)
    requires from <= i <= to <= |text| && s == SkipSpaces(text, i) && s < |text| && e == SkipWord(text, s) && e <= to
    ensures i <= s < e
    ensures SkipSpaces(text[from..to], i - from) == s - from && SkipWord(text[from..to], s - from) == e - from
  {
    SkipsAgree(text, from, to, i);
    SkipsAgree(text, from, to, s);
  }

  /** The first token of a slice is the first token of the text from there. */
  lemma SliceStep(text: string, from: nat, to: nat, i: nat, s: nat, e: nat)
    requires from <= i <= to <= |text| && s == SkipSpaces(text, i) && s < |text| && e == SkipWord(text, s) && e <= to
    ensures i <= s < e
    ensures TokensFrom(text[from..to], i - from) == [Token(s - from, e - from)] + TokensFrom(text[from..to], e - from)
  {
    SliceSkips(text, from, to, i, s, e);
  }

  /** The cut `to` is where the `n`-th token from `i` ends, or `i` itself for none. */
  predicate CutsAt(text: string, i: nat, n: nat, to: nat)
    requires i <= |text|
  {
    n <= |TokensFrom(text, i)| && to == if n == 0 then i else TokensFrom(text, i)[n - 1].end
  }

  lemma CutsAfterFirst(text: string, i: nat, n: nat, to: nat)
    requires i <= |text| && n > 0 && CutsAt(text, i, n, to)
    ensures var s := SkipSpaces(text, i);
            var e := SkipWord(text, s);
            s < |text| && i <= s < e <= to <= |text| && CutsAt(text, e, n - 1, to)
  {
    TokensStep(text, i);
    if n > 1 { TokensAreOrdered(text, i, 0, n - 1); }
  }

  /** The slice's first `n` tokens from `i` are the text's, moved. */
  predicate SliceAgrees(text: string, from: nat, to: nat, i: nat, n: nat)
    requires from <= i <= to <= |text|
  {
    var (part, whole) := (TokensFrom(text[from..to], i - from), TokensFrom(text, i));
    |part| == n <= |whole| && forall k | 0 <= k < n :: Moved(part[k], from) == whole[k]
  }

  lemma SliceAgreesNext(text: string, from: nat, to: nat, i: nat, s: nat, e: nat, n: nat)
    requires from <= i <= s < e <= to <= |text| && SliceAgrees(text, from, to, e, n)
    requires TokensFrom(text, i) == [Token(s, e)] + TokensFrom(text, e)
    requires TokensFrom(text[from..to], i - from) == [Token(s - from, e - from)] + TokensFrom(text[from..to], e - from)
    ensures SliceAgrees(text, from, to, i, n + 1)
  {
    var (part, whole) := (TokensFrom(text[from..to], i - from), TokensFrom(text, i));
    forall k | 0 <= k < n + 1 ensures Moved(part[k], from) == whole[k] {
      if k > 0 { assert part[k] == TokensFrom(text[from..to], e - from)[k - 1] && whole[k] == TokensFrom(text, e)[k - 1]; }
    }
  }

  lemma {:induction false} SliceFrom(text: string, from: nat, to: nat, i: nat, n: nat)
    requires from <= i <= to <= |text| && CutsAt(text, i, n, to)
    ensures SliceAgrees(text, from, to, i, n)
    decreases n
  {
    if n == 0 {
      SkipsAgree(text, from, to, i);
    } else {
      var s := SkipSpaces(text, i);
      var e := SkipWord(text, s);
      TokensStep(text, i);
      CutsAfterFirst(text, i, n, to);
      SliceFrom(text, from, to, e, n - 1);
      SliceStep(text, from, to, i, s, e);
      SliceAgreesNext(text, from, to, i, s, e, n - 1);
    }
  }

  /** A token found after some point is a token of the whole, so slicing from one starts afresh. */
  lemma {:induction false} TokensFromToken(text: string, i: nat, a: nat)
    requires i <= |text| && a < |TokensFrom(text, i)|
    ensures var s := TokensFrom(text, i)[a].start; TokensFrom(text, s) == TokensFrom(text, i)[a..]
    decreases a
  {
    TokensStep(text, i);
    var s := SkipSpaces(text, i);
    var e := SkipWord(text, s);
    if a == 0 {
      assert SkipSpaces(text, s) == s;
    } else {
      TokensFromToken(text, e, a - 1);
    }
  }

  lemma CutsAtToken(text: string, a: nat, b: nat)
    requires a <= b < |Tokens(text)|
    ensures var (from, to) := (Tokens(text)[a].start, Tokens(text)[b].end);
            && from <= to && CutsAt(text, from, b + 1 - a, to)
            && forall k | 0 <= k < b + 1 - a :: TokensFrom(text, from)[k] == Tokens(text)[a + k]
  {
    if a < b { TokensAreOrdered(text, 0, a, b); }
    TokensFromToken(text, 0, a);
  }

  lemma SliceOfSlice(text: string, from: nat, to: nat, t: Token)
    requires from <= to <= |text| && t.start <= t.end <= to - from
    ensures text[from..to][t.start..t.end] == text[t.start + from..t.end + from]
  {
  }

  lemma SliceKeepsTokens(text: string, a: nat, b: nat)
    requires a <= b < |Tokens(text)|
    ensures Tokens(text)[a].start <= Tokens(text)[b].end
    ensures var part := Tokens(text[Tokens(text)[a].start..Tokens(text)[b].end]);
            |part| == b + 1 - a && forall k | 0 <= k < |part| :: Moved(part[k], Tokens(text)[a].start) == Tokens(text)[a + k]
  {
    CutsAtToken(text, a, b);
    SliceFrom(text, Tokens(text)[a].start, Tokens(text)[b].end, Tokens(text)[a].start, b + 1 - a);
  }

  /** The words of a text cut from one token's start to another's end are exactly the words in between. */
  lemma SliceKeepsWords(text: string, a: nat, b: nat)
    requires a <= b < |Tokens(text)|
    ensures Tokens(text)[a].start <= Tokens(text)[b].end
    ensures WordsOf(text[Tokens(text)[a].start..Tokens(text)[b].end]) == WordsOf(text)[a..b + 1]
  {
    SliceKeepsTokens(text, a, b);
    var (from, to) := (Tokens(text)[a].start, Tokens(text)[b].end);
    var part := text[from..to];
    forall k | 0 <= k < |Tokens(part)| ensures WordsOf(part)[k] == WordsOf(text)[a + k] {
      assert Moved(Tokens(part)[k], from) == Tokens(text)[a + k];
      SliceOfSlice(text, from, to, Tokens(part)[k]);
    }
  }

  // ---- A text to point at ---------------------------------------------------------------------

  lemma LetterIsTrimmed(c: char)
    requires !IsSpace(c)
    ensures Trim([c]) == [c]
  {
    var text := [c];
    assert text[0] == c && SkipSpaces(text, 0) == 0 && TrimEnd(text, 0) == 1;
    assert text[0..1] == text;
  }

  /** Three words of one letter each. */
  lemma ThreeLetters()
    ensures |Tokens("a b c")| == 3 && WordsOf("a b c") == ["a", "b", "c"]
    ensures Trim("a") == "a" && Trim("b") == "b" && Trim("c") == "c"
  {
    var text := "a b c";
    assert SkipSpaces(text, 0) == 0 && SkipWord(text, 0) == 1;
    assert SkipSpaces(text, 1) == 2 && SkipWord(text, 2) == 3;
    assert SkipSpaces(text, 3) == 4 && SkipWord(text, 4) == 5;
    assert TokensFrom(text, 5) == [];
    assert TokensFrom(text, 3) == [Token(4, 5)];
    assert TokensFrom(text, 1) == [Token(2, 3), Token(4, 5)];
    assert Tokens(text) == [Token(0, 1), Token(2, 3), Token(4, 5)];
    assert text[0..1] == "a" && text[2..3] == "b" && text[4..5] == "c";
    LetterIsTrimmed('a');
    LetterIsTrimmed('b');
    LetterIsTrimmed('c');
  }
}
