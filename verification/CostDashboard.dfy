/**
 The AI cost dashboard: usage rows added up in total, by client, by workflow, by model and by
 day, with money that is unknown where a model has no price. The groupings agree with one
 another, and a total is marked partial exactly when some model is listed as unpriced.
 */
module CostDashboard {
  import opened Common

  datatype Source = Provider | Estimate

  datatype UsageRow = UsageRow(client: Option<string>, workflow: string, model: Option<string>, source: Source, day: string,
                               calls: nat, input: nat, output: nat)

  datatype Price = Price(inPerM: real, outPerM: real)

  datatype PriceBook = PriceBook(prices: map<string, Price>, aliases: map<string, string>)

  /** `TokenTotals`, with its money: unknown, or a sum that may leave tokens out. */
  datatype Totals = Totals(calls: nat, input: nat, output: nat, usd: Option<real>, partial: bool)

  const BLANK := Totals(0, 0, 0, None, false)

  // ---- Prices ---------------------------------------------------------------------------------

  /** `priceKeyFor`: no key for a missing or empty model; an alias that leads nowhere is no key either. */
  function PriceKeyFor(book: PriceBook, model: Option<string>): Option<string>
  {
    if model.GetOr("") == "" then None
    else if model.value in book.aliases then
      (if book.aliases[model.value] in book.prices then Some(book.aliases[model.value]) else None)
    else if model.value in book.prices then Some(model.value) else None
  }

  function Millions(tokens: nat): real { tokens as real / 1000000.0 }

  /** `llmCostUsd`. */
  function Cost(book: PriceBook, row: UsageRow): Option<real>
  {
    var key := PriceKeyFor(book, row.model);
    if key.None? then None
    else
      assert key.value in book.prices;
      Some(Millions(row.input) * book.prices[key.value].inPerM + Millions(row.output) * book.prices[key.value].outPerM)
  }

  // ---- Adding -----------------------------------------------------------------------------------

  /** Money is summed where it is known; it is known if either part is. */
  function Plus(a: Option<real>, b: Option<real>): Option<real>
  {
    if b.None? then a else Some(a.GetOr(0.0) + b.value)
  }

  /** Two totals taken together. */
  function Combine(a: Totals, b: Totals): Totals
  {
    Totals(a.calls + b.calls, a.input + b.input, a.output + b.output, Plus(a.usd, b.usd), a.partial || b.partial)
  }

  /** One row as a total of its own. */
  function Of(book: PriceBook, row: UsageRow): Totals
  {
    Totals(row.calls, row.input, row.output, Cost(book, row), Cost(book, row).None? && row.input + row.output > 0)
  }

  lemma CombineIsMonoid(a: Totals, b: Totals, c: Totals)
    ensures Combine(Combine(a, b), c) == Combine(a, Combine(b, c))
    ensures Combine(a, b) == Combine(b, a) && Combine(a, BLANK) == a
  {
  }

  /** `addUsage` and `addMoney`, field by field. */
  method AddUsage(t: Totals, book: PriceBook, row: UsageRow) returns (u: Totals)
    ensures u == Combine(t, Of(book, row))
  {
    u := t.(calls := t.calls + row.calls, input := t.input + row.input, output := t.output + row.output);
    var usd := Cost(book, row);
    if usd.None? {
      if row.input + row.output > 0 { u := u.(partial := true); }
      return;
    }
    u := u.(usd := Some(u.usd.GetOr(0.0) + usd.value));
  }

  // ---- Groups --------------------------------------------------------------------------------------

  datatype Groups<K> = Groups(order: seq<K>, of: map<K, Totals>)

  /** All rows together. */
  function Fold(book: PriceBook, rows: seq<UsageRow>): Totals
  {
    if rows == [] then BLANK else Combine(Fold(book, rows[..|rows| - 1]), Of(book, rows[|rows| - 1]))
  }

  /** The rows of one key together. */
  function FoldOf<K(==)>(book: PriceBook, rows: seq<UsageRow>, key: UsageRow -> K, k: K): Totals
  {
    if rows == [] then BLANK
    else
      var (rest, last) := (FoldOf(book, rows[..|rows| - 1], key, k), rows[|rows| - 1]);
      if key(last) == k then Combine(rest, Of(book, last)) else rest
  }

  /** The rows whose key is among some, together. */
  function FoldIn<K(==)>(book: PriceBook, rows: seq<UsageRow>, key: UsageRow -> K, among: seq<K>): Totals
  {
    if rows == [] then BLANK
    else
      var (rest, last) := (FoldIn(book, rows[..|rows| - 1], key, among), rows[|rows| - 1]);
      if key(last) in among then Combine(rest, Of(book, last)) else rest
  }

  ghost predicate IsGrouping<K(!new)>(g: Groups<K>, book: PriceBook, rows: seq<UsageRow>, key: UsageRow -> K)
  {
    && Distinct(g.order) && (forall k :: k in g.order <==> k in g.of)
    && (forall k | k in g.of :: g.of[k] == FoldOf(book, rows, key, k))
  }

  function CombineOver<K(==)>(order: seq<K>, of: map<K, Totals>): Totals
  {
    if order == [] then BLANK
    else Combine(CombineOver(order[..|order| - 1], of), if order[|order| - 1] in of then of[order[|order| - 1]] else BLANK)
  }

  /** A grouping put back together. */
  function Together<K(==)>(g: Groups<K>): Totals { CombineOver(g.order, g.of) }

  function CombineFolds<K(==)>(order: seq<K>, book: PriceBook, rows: seq<UsageRow>, key: UsageRow -> K): Totals
  {
    if order == [] then BLANK
    else Combine(CombineFolds(order[..|order| - 1], book, rows, key), FoldOf(book, rows, key, order[|order| - 1]))
  }

  lemma {:induction false} NothingFolds<K>(order: seq<K>, book: PriceBook, key: UsageRow -> K)
    ensures CombineFolds(order, book, [], key) == BLANK
  {
    if order != [] {
      NothingFolds(order[..|order| - 1], book, key);
      assert FoldOf(book, [], key, order[|order| - 1]) == BLANK;
    }
  }

  lemma OnceInit<K(!new)>(order: seq<K>)
    requires order != [] && Distinct(order)
    ensures Distinct(order[..|order| - 1]) && order[|order| - 1] !in order[..|order| - 1]
    ensures forall k :: k in order <==> k == order[|order| - 1] || k in order[..|order| - 1]
  {
    assert order == order[..|order| - 1] + [order[|order| - 1]];
  }

  /** A row changes one group, and the groups together by itself. */
  lemma {:induction false} FoldsNext<K(!new)>(order: seq<K>, book: PriceBook, rows: seq<UsageRow>, key: UsageRow -> K)
    requires rows != [] && Distinct(order)
    ensures var (init, last) := (rows[..|rows| - 1], rows[|rows| - 1]);
            CombineFolds(order, book, rows, key)
            == if key(last) in order then Combine(CombineFolds(order, book, init, key), Of(book, last)) else CombineFolds(order, book, init, key)
  {
    if order != [] {
      var (before, k) := (order[..|order| - 1], order[|order| - 1]);
      var (init, last) := (rows[..|rows| - 1], rows[|rows| - 1]);
      OnceInit(order);
      FoldsNext(before, book, rows, key);
      var (a, b, c) := (CombineFolds(before, book, init, key), FoldOf(book, init, key, k), Of(book, last));
      CombineIsMonoid(a, b, c);
      CombineIsMonoid(a, c, b);
      CombineIsMonoid(b, c, a);
    }
  }

  lemma {:induction false} FoldsAddUp<K(!new)>(order: seq<K>, book: PriceBook, rows: seq<UsageRow>, key: UsageRow -> K)
    requires Distinct(order)
    ensures CombineFolds(order, book, rows, key) == FoldIn(book, rows, key, order)
  {
    if rows == [] {
      NothingFolds(order, book, key);
    } else {
      FoldsAddUp(order, book, rows[..|rows| - 1], key);
      FoldsNext(order, book, rows, key);
    }
  }

  lemma {:induction false} OverIsFolds<K>(order: seq<K>, of: map<K, Totals>, book: PriceBook, rows: seq<UsageRow>, key: UsageRow -> K)
    requires forall k | k in order :: k in of && of[k] == FoldOf(book, rows, key, k)
    ensures CombineOver(order, of) == CombineFolds(order, book, rows, key)
  {
    if order != [] { OverIsFolds(order[..|order| - 1], of, book, rows, key); }
  }

  lemma {:induction false} AllIn<K>(book: PriceBook, rows: seq<UsageRow>, key: UsageRow -> K, among: seq<K>)
    requires forall i | 0 <= i < |rows| :: key(rows[i]) in among
    ensures FoldIn(book, rows, key, among) == Fold(book, rows)
  {
    if rows != [] { AllIn(book, rows[..|rows| - 1], key, among); }
  }

  /** A grouping put back together is the rows whose key it has; all of them, if it has every key. */
  lemma GroupingAgrees<K(!new)>(g: Groups<K>, book: PriceBook, rows: seq<UsageRow>, key: UsageRow -> K)
    requires IsGrouping(g, book, rows, key)
    ensures Together(g) == FoldIn(book, rows, key, g.order)
    ensures (forall i | 0 <= i < |rows| :: key(rows[i]) in g.of) ==> Together(g) == Fold(book, rows)
  {
    OverIsFolds(g.order, g.of, book, rows, key);
    FoldsAddUp(g.order, book, rows, key);
    if forall i | 0 <= i < |rows| :: key(rows[i]) in g.of { AllIn(book, rows, key, g.order); }
  }

  // ---- The loop ---------------------------------------------------------------------------------------

  function ClientOf(row: UsageRow): string { row.client.GetOr("") }
  function WorkflowOf(row: UsageRow): string { row.workflow }
  /** A model group: the model's name, empty when unknown, and where its counts come from. */
  function ModelOf(row: UsageRow): (string, Source) { (row.model.GetOr(""), row.source) }
  function DayOf(row: UsageRow): string { row.day }

  predicate Covers<K(==)>(g: Groups<K>, rows: seq<UsageRow>, key: UsageRow -> K)
  {
    forall i | 0 <= i < |rows| :: key(rows[i]) in g.of
  }

  lemma {:induction false} NoRowsOf<K>(book: PriceBook, rows: seq<UsageRow>, key: UsageRow -> K, k: K)
    requires forall i | 0 <= i < |rows| :: key(rows[i]) != k
    ensures FoldOf(book, rows, key, k) == BLANK
  {
    if rows != [] { NoRowsOf(book, rows[..|rows| - 1], key, k); }
  }

  lemma FoldOfNext<K>(book: PriceBook, rows: seq<UsageRow>, row: UsageRow, key: UsageRow -> K, k: K)
    ensures FoldOf(book, rows + [row], key, k)
            == if key(row) == k then Combine(FoldOf(book, rows, key, k), Of(book, row)) else FoldOf(book, rows, key, k)
  {
    assert (rows + [row])[..|rows|] == rows;
  }

  /** A row added to the group of its key, which is created when it is the first. */
  method AddToGroup<K(==, !new)>(g: Groups<K>, book: PriceBook, ghost rows: seq<UsageRow>, row: UsageRow, k: K, ghost key: UsageRow -> K)
    returns (h: Groups<K>)
    requires IsGrouping(g, book, rows, key) && k == key(row)
    requires k !in g.of ==> Covers(g, rows, key)
    ensures IsGrouping(h, book, rows + [row], key)
    ensures forall x :: x in h.of <==> x in g.of || x == k
  {
    var u := AddUsage(if k in g.of then g.of[k] else BLANK, book, row);
    h := Groups(if k in g.of then g.order else g.order + [k], g.of[k := u]);
    if k !in g.of { NoRowsOf(book, rows, key, k); }
    forall x | x in h.of ensures h.of[x] == FoldOf(book, rows + [row], key, x) { FoldOfNext(book, rows, row, key, x); }
  }

  lemma SkippedRow<K(!new)>(g: Groups<K>, book: PriceBook, rows: seq<UsageRow>, row: UsageRow, key: UsageRow -> K)
    requires IsGrouping(g, book, rows, key) && key(row) !in g.of
    ensures IsGrouping(g, book, rows + [row], key)
  {
    forall x | x in g.of ensures g.of[x] == FoldOf(book, rows + [row], key, x) { FoldOfNext(book, rows, row, key, x); }
  }

  /** The days of the period, each blank. */
  method BlankDays(days: seq<string>) returns (g: Groups<string>)
    ensures forall book :: IsGrouping(g, book, [], DayOf)
    ensures forall d :: d in g.of <==> d in days
  {
    g := Groups([], map[]);
    for i := 0 to |days|
      invariant Distinct(g.order) && (forall d :: d in g.order <==> d in g.of) && (forall d :: d in g.of <==> d in days[..i])
      invariant forall d | d in g.of :: g.of[d] == BLANK
    {
      assert days[..i + 1] == days[..i] + [days[i]];
      if days[i] !in g.of { g := Groups(g.order + [days[i]], g.of[days[i] := BLANK]); }
    }
    assert days[..|days|] == days;
  }

  datatype Dashboard = Dashboard(totals: Totals, clients: Groups<string>, workflows: Groups<string>,
                                 models: Groups<(string, Source)>, daily: Groups<string>)

  /** What the usage loop has built after some rows. */
  ghost predicate BuiltFrom(d: Dashboard, book: PriceBook, rows: seq<UsageRow>, days: seq<string>)
  {
    && d.totals == Fold(book, rows)
    && IsGrouping(d.clients, book, rows, ClientOf) && Covers(d.clients, rows, ClientOf)
    && IsGrouping(d.workflows, book, rows, WorkflowOf) && Covers(d.workflows, rows, WorkflowOf)
    && IsGrouping(d.models, book, rows, ModelOf) && Covers(d.models, rows, ModelOf)
    && IsGrouping(d.daily, book, rows, DayOf) && (forall x :: x in d.daily.of <==> x in days)
  }

  lemma CoversMore<K>(g: Groups<K>, h: Groups<K>, rows: seq<UsageRow>, row: UsageRow, key: UsageRow -> K)
    requires Covers(g, rows, key) && (forall i | 0 <= i < |rows| :: key(rows[i]) in g.of ==> key(rows[i]) in h.of) && key(row) in h.of
    ensures Covers(h, rows + [row], key)
  {
  }

  /** One row of the usage loop. */
  method AddRow(d: Dashboard, book: PriceBook, ghost rows: seq<UsageRow>, ghost days: seq<string>, row: UsageRow) returns (e: Dashboard)
    requires BuiltFrom(d, book, rows, days)
    ensures BuiltFrom(e, book, rows + [row], days)
  {
    assert (rows + [row])[..|rows|] == rows;
    var totals := AddUsage(d.totals, book, row);
    var clients := AddToGroup(d.clients, book, rows, row, ClientOf(row), ClientOf);
    CoversMore(d.clients, clients, rows, row, ClientOf);
    var workflows := AddToGroup(d.workflows, book, rows, row, WorkflowOf(row), WorkflowOf);
    CoversMore(d.workflows, workflows, rows, row, WorkflowOf);
    var models := AddToGroup(d.models, book, rows, row, ModelOf(row), ModelOf);
    CoversMore(d.models, models, rows, row, ModelOf);
    var daily := d.daily;
    if row.day in daily.of {
      daily := AddToGroup(d.daily, book, rows, row, row.day, DayOf);
    } else {
      SkippedRow(d.daily, book, rows, row, DayOf);
    }
    e := Dashboard(totals, clients, workflows, models, daily);
  }

  // ---- Unpriced models --------------------------------------------------------------------------------

  predicate Unpriced(book: PriceBook, row: UsageRow) { Cost(book, row).None? && row.input + row.output > 0 }

  lemma {:induction false} PartialTells(book: PriceBook, rows: seq<UsageRow>)
    ensures Fold(book, rows).partial <==> exists i :: 0 <= i < |rows| && Unpriced(book, rows[i])
  {
    if rows != [] {
      var (init, last) := (rows[..|rows| - 1], rows[|rows| - 1]);
      PartialTells(book, init);
      assert rows == init + [last];
      if Unpriced(book, last) { assert rows[|rows| - 1] == last; }
      if i :| 0 <= i < |init| && Unpriced(book, init[i]) { assert rows[i] == init[i]; }
    }
  }

  lemma {:induction false} TokensTell<K>(book: PriceBook, rows: seq<UsageRow>, key: UsageRow -> K, k: K)
    ensures FoldOf(book, rows, key, k).input + FoldOf(book, rows, key, k).output > 0
            <==> exists i :: 0 <= i < |rows| && key(rows[i]) == k && rows[i].input + rows[i].output > 0
  {
    if rows != [] {
      var (init, last) := (rows[..|rows| - 1], rows[|rows| - 1]);
      TokensTell(book, init, key, k);
      assert rows == init + [last];
      if key(last) == k && last.input + last.output > 0 { assert rows[|rows| - 1] == last; }
      if i :| 0 <= i < |init| && key(init[i]) == k && init[i].input + init[i].output > 0 { assert rows[i] == init[i]; }
    }
  }

  /** A model group that the unpriced list shows. */
  predicate Shown(book: PriceBook, k: (string, Source), t: Totals) { PriceKeyFor(book, Some(k.0)).None? && t.input + t.output != 0 }

  /** The unpriced models of the period, by name; a name with two sources is one entry. */
  method UnpricedModels(book: PriceBook, models: Groups<(string, Source)>) returns (names: seq<string>)
    requires forall k | k in models.order :: k in models.of
    ensures forall n :: n in names <==> exists k :: k in models.order && k.0 == n && Shown(book, k, models.of[k])
    ensures Distinct(names)
  {
    names := [];
    for i := 0 to |models.order|
      invariant Distinct(names)
      invariant forall n :: n in names <==> exists j :: 0 <= j < i && models.order[j].0 == n && Shown(book, models.order[j], models.of[models.order[j]])
    {
      var k := models.order[i];
      if Shown(book, k, models.of[k]) && k.0 !in names { names := names + [k.0]; }
    }
  }

  lemma SamePrice(book: PriceBook, row: UsageRow)
    ensures PriceKeyFor(book, Some(ModelOf(row).0)).None? <==> Cost(book, row).None?
  {
  }

  /** The total is partial exactly when some model is listed as unpriced. */
  lemma PartialIffListed(d: Dashboard, book: PriceBook, rows: seq<UsageRow>, days: seq<string>, names: seq<string>)
    requires BuiltFrom(d, book, rows, days)
    requires forall n :: n in names <==> exists k :: k in d.models.order && k.0 == n && Shown(book, k, d.models.of[k])
    ensures d.totals.partial <==> names != []
  {
    PartialTells(book, rows);
    if i :| 0 <= i < |rows| && Unpriced(book, rows[i]) {
      var k := ModelOf(rows[i]);
      SamePrice(book, rows[i]);
      TokensTell(book, rows, ModelOf, k);
      assert k in d.models.order && Shown(book, k, d.models.of[k]);
      assert k.0 in names;
    }
    if names != [] {
      assert names[0] in names;
      var k :| k in d.models.order && k.0 == names[0] && Shown(book, k, d.models.of[k]);
      TokensTell(book, rows, ModelOf, k);
      var i :| 0 <= i < |rows| && ModelOf(rows[i]) == k && rows[i].input + rows[i].output > 0;
      SamePrice(book, rows[i]);
    }
  }

  // ---- What the figures are -------------------------------------------------------------------------------

  function CallsOf(row: UsageRow): nat { row.calls }
  function InputOf(row: UsageRow): nat { row.input }
  function OutputOf(row: UsageRow): nat { row.output }
  function NameOf(row: UsageRow): Option<string> { row.model }

  function Sum(rows: seq<UsageRow>, of: UsageRow -> nat): nat
  {
    if rows == [] then 0 else Sum(rows[..|rows| - 1], of) + of(rows[|rows| - 1])
  }

  /** The rows of one key. */
  function Only<K(==)>(rows: seq<UsageRow>, key: UsageRow -> K, k: K): seq<UsageRow>
  {
    if rows == [] then []
    else Only(rows[..|rows| - 1], key, k) + if key(rows[|rows| - 1]) == k then [rows[|rows| - 1]] else []
  }

  /** The price list has this price for a model: under its own name, or under the one it is an alias of. */
  predicate PricedAt(book: PriceBook, model: Option<string>, p: Price)
  {
    && model.Some? && model.value != ""
    && var name := if model.value in book.aliases then book.aliases[model.value] else model.value;
       name in book.prices && book.prices[name] == p
  }

  ghost predicate Priced(book: PriceBook, model: Option<string>) { exists p :: PricedAt(book, model, p) }

  /** So many tokens at a price per million. */
  function Dollars(input: nat, output: nat, p: Price): real { (input as real * p.inPerM + output as real * p.outPerM) / 1000000.0 }

  /** Model by model, all its input tokens at its input price and all its output tokens at its output price. */
  ghost function Spent(book: PriceBook, rows: seq<UsageRow>, models: seq<Option<string>>): real
  {
    if models == [] then 0.0
    else
      var (m, rest) := (models[0], Spent(book, rows, models[1..]));
      if !Priced(book, m) then rest
      else
        var p :| PricedAt(book, m, p);
        rest + Dollars(Sum(Only(rows, NameOf, m), InputOf), Sum(Only(rows, NameOf, m), OutputOf), p)
  }

  /** Each model of the rows once, and perhaps others. */
  predicate Roll(rows: seq<UsageRow>, models: seq<Option<string>>)
  {
    Distinct(models) && forall i | 0 <= i < |rows| :: rows[i].model in models
  }

  /** The totals say what these rows used, what it costs as far as it has a price, and whether some of it has none. */
  ghost predicate Tells(t: Totals, book: PriceBook, rows: seq<UsageRow>)
  {
    && t.calls == Sum(rows, CallsOf) && t.input == Sum(rows, InputOf) && t.output == Sum(rows, OutputOf)
    && (t.usd.None? <==> forall i | 0 <= i < |rows| :: !Priced(book, rows[i].model))
    && (t.usd.Some? ==> forall models {:trigger Spent(book, rows, models)} | Roll(rows, models) :: t.usd.value == Spent(book, rows, models))
    && (t.partial <==> exists i :: 0 <= i < |rows| && !Priced(book, rows[i].model) && rows[i].input + rows[i].output > 0)
  }

  lemma DollarsAdd(a: nat, b: nat, x: nat, y: nat, p: Price)
    ensures Dollars(a + x, b + y, p) == Dollars(a, b, p) + Dollars(x, y, p)
  {
    assert (a + x) as real * p.inPerM == a as real * p.inPerM + x as real * p.inPerM;
    assert (b + y) as real * p.outPerM == b as real * p.outPerM + y as real * p.outPerM;
  }

  lemma PricedHasKey(book: PriceBook, model: Option<string>, p: Price)
    requires PricedAt(book, model, p)
    ensures var key := PriceKeyFor(book, model);
            key.Some? && key.value in book.prices && book.prices[key.value] == p
  {
  }

  lemma CostIsDollars(book: PriceBook, row: UsageRow)
    ensures Cost(book, row).Some? <==> Priced(book, row.model)
    ensures forall p | PricedAt(book, row.model, p) :: Cost(book, row) == Some(Dollars(row.input, row.output, p))
  {
    hide Dollars, PricedAt;
    if Cost(book, row).Some? {
      KeyIsPrice(book, row.model);
      CostAtKey(book, row);
    }
    forall p | PricedAt(book, row.model, p) ensures Cost(book, row) == Some(Dollars(row.input, row.output, p)) {
      PricedHasKey(book, row.model, p);
      CostAtKey(book, row);
    }
  }

  lemma CostAtKey(book: PriceBook, row: UsageRow)
    requires PriceKeyFor(book, row.model).Some?
    ensures PriceKeyFor(book, row.model).value in book.prices
    ensures Cost(book, row) == Some(Dollars(row.input, row.output, book.prices[PriceKeyFor(book, row.model).value]))
  {
    hide Dollars, PriceKeyFor, Millions;
    KeyIsPrice(book, row.model);
    var p := book.prices[PriceKeyFor(book, row.model).value];
    assert Cost(book, row).value == Millions(row.input) * p.inPerM + Millions(row.output) * p.outPerM;
    DollarsRead(row.input, row.output, p);
    SameMoney(Cost(book, row), Dollars(row.input, row.output, p));
  }

  lemma SameMoney(known: Option<real>, usd: real)
    requires known.Some? && known.value == usd
    ensures known == Some(usd)
  {
  }

  lemma KeyIsPrice(book: PriceBook, model: Option<string>)
    requires PriceKeyFor(book, model).Some?
    ensures PriceKeyFor(book, model).value in book.prices && PricedAt(book, model, book.prices[PriceKeyFor(book, model).value])
  {
  }

  lemma AMillionth(tokens: nat, price: real)
    ensures Millions(tokens) * price == tokens as real * price / 1000000.0
  {
    assert 1000000.0 * Millions(tokens) == tokens as real;
    assert 1000000.0 * Millions(tokens) * price == tokens as real * price;
  }

  lemma DollarsRead(input: nat, output: nat, p: Price)
    ensures Millions(input) * p.inPerM + Millions(output) * p.outPerM == Dollars(input, output, p)
  {
    AMillionth(input, p.inPerM);
    AMillionth(output, p.outPerM);
  }

  lemma OnlyNext<K>(init: seq<UsageRow>, last: UsageRow, key: UsageRow -> K, k: K)
    ensures Only(init + [last], key, k) == if key(last) == k then Only(init, key, k) + [last] else Only(init, key, k)
  {
    assert (init + [last])[..|init|] == init;
  }

  lemma SumNext(init: seq<UsageRow>, last: UsageRow, of: UsageRow -> nat)
    ensures Sum(init + [last], of) == Sum(init, of) + of(last)
  {
    assert (init + [last])[..|init|] == init;
  }

  lemma {:induction false} SpentNext(book: PriceBook, init: seq<UsageRow>, last: UsageRow, models: seq<Option<string>>)
    requires Distinct(models)
    ensures Spent(book, init + [last], models)
            == Spent(book, init, models) + (if last.model in models then Cost(book, last).GetOr(0.0) else 0.0)
  {
    if models != [] {
      var m := models[0];
      SpentNext(book, init, last, models[1..]);
      assert models == [m] + models[1..];
      assert m !in models[1..];
      OnlyNext(init, last, NameOf, m);
      CostIsDollars(book, last);
      if m == last.model && Priced(book, m) {
        var p :| PricedAt(book, m, p);
        var own := Only(init, NameOf, m);
        SumNext(own, last, InputOf);
        SumNext(own, last, OutputOf);
        DollarsAdd(Sum(own, InputOf), Sum(own, OutputOf), last.input, last.output, p);
      }
    }
  }

  lemma {:induction false} NothingSpent(book: PriceBook, models: seq<Option<string>>)
    ensures Spent(book, [], models) == 0.0
  {
    if models != [] { NothingSpent(book, models[1..]); }
  }

  lemma {:induction false} FoldIsSpent(book: PriceBook, rows: seq<UsageRow>, models: seq<Option<string>>)
    requires Roll(rows, models)
    ensures Fold(book, rows).usd.GetOr(0.0) == Spent(book, rows, models)
  {
    if rows == [] {
      NothingSpent(book, models);
    } else {
      var (init, last) := (rows[..|rows| - 1], rows[|rows| - 1]);
      assert rows == init + [last];
      FoldIsSpent(book, init, models);
      SpentNext(book, init, last, models);
    }
  }

  lemma {:induction false} FoldCounts(book: PriceBook, rows: seq<UsageRow>)
    ensures var t := Fold(book, rows);
            && t.calls == Sum(rows, CallsOf) && t.input == Sum(rows, InputOf) && t.output == Sum(rows, OutputOf)
            && (t.usd.None? <==> forall i | 0 <= i < |rows| :: Cost(book, rows[i]).None?)
  {
    if rows != [] {
      var (init, last) := (rows[..|rows| - 1], rows[|rows| - 1]);
      FoldCounts(book, init);
      assert forall i | 0 <= i < |rows| :: rows[i] == if i < |init| then init[i] else last;
    }
  }

  lemma FoldTells(book: PriceBook, rows: seq<UsageRow>)
    ensures Tells(Fold(book, rows), book, rows)
  {
    hide Fold, Cost, Priced, Sum, Spent;
    FoldCounts(book, rows);
    PartialTells(book, rows);
    forall i | 0 <= i < |rows|
      ensures (Cost(book, rows[i]).None? <==> !Priced(book, rows[i].model))
              && (Unpriced(book, rows[i]) <==> !Priced(book, rows[i].model) && rows[i].input + rows[i].output > 0)
    {
      CostIsDollars(book, rows[i]);
    }
    assert (exists i :: 0 <= i < |rows| && Unpriced(book, rows[i]))
           <==> exists i :: 0 <= i < |rows| && !Priced(book, rows[i].model) && rows[i].input + rows[i].output > 0;
    forall models | Roll(rows, models) ensures Fold(book, rows).usd.GetOr(0.0) == Spent(book, rows, models) { FoldIsSpent(book, rows, models); }
  }

  lemma {:induction false} FoldOfIsFold<K>(book: PriceBook, rows: seq<UsageRow>, key: UsageRow -> K, k: K)
    ensures FoldOf(book, rows, key, k) == Fold(book, Only(rows, key, k))
  {
    if rows != [] {
      var (init, last) := (rows[..|rows| - 1], rows[|rows| - 1]);
      var own := Only(init, key, k);
      FoldOfIsFold(book, init, key, k);
      if key(last) == k {
        assert Only(rows, key, k) == own + [last];
        assert (own + [last])[..|own|] == own && (own + [last])[|own|] == last;
      } else {
        assert Only(rows, key, k) == own;
      }
    }
  }

  /** Every group's totals say what the rows of its key used and cost. */
  ghost predicate GroupsTell<K(!new)>(g: Groups<K>, book: PriceBook, rows: seq<UsageRow>, key: UsageRow -> K)
  {
    forall k | k in g.of :: Tells(g.of[k], book, Only(rows, key, k))
  }

  lemma GroupingTells<K(!new)>(g: Groups<K>, book: PriceBook, rows: seq<UsageRow>, key: UsageRow -> K)
    requires IsGrouping(g, book, rows, key)
    ensures GroupsTell(g, book, rows, key)
  {
    forall k | k in g.of ensures Tells(g.of[k], book, Only(rows, key, k)) {
      FoldOfIsFold(book, rows, key, k);
      FoldTells(book, Only(rows, key, k));
    }
  }

  /** Every row is in the group of its client, of its workflow, and of its model and source. */
  predicate RowsAreGrouped(d: Dashboard, rows: seq<UsageRow>)
  {
    forall i | 0 <= i < |rows| ::
      && rows[i].client.GetOr("") in d.clients.of && rows[i].workflow in d.workflows.of
      && (rows[i].model.GetOr(""), rows[i].source) in d.models.of
  }

  /** Every figure of the dashboard, in total and by client, workflow, model and day. */
  ghost predicate FiguresTell(d: Dashboard, book: PriceBook, rows: seq<UsageRow>)
  {
    && Tells(d.totals, book, rows) && RowsAreGrouped(d, rows)
    && GroupsTell(d.clients, book, rows, ClientOf) && GroupsTell(d.workflows, book, rows, WorkflowOf)
    && GroupsTell(d.models, book, rows, ModelOf) && GroupsTell(d.daily, book, rows, DayOf)
  }

  lemma BuiltTells(d: Dashboard, book: PriceBook, rows: seq<UsageRow>, days: seq<string>)
    requires BuiltFrom(d, book, rows, days)
    ensures FiguresTell(d, book, rows)
  {
    hide Tells, GroupsTell, IsGrouping, Fold;
    assert RowsAreGrouped(d, rows);
    FoldTells(book, rows);
    GroupingTells(d.clients, book, rows, ClientOf);
    GroupingTells(d.workflows, book, rows, WorkflowOf);
    GroupingTells(d.models, book, rows, ModelOf);
    GroupingTells(d.daily, book, rows, DayOf);
  }

  lemma {:induction false} OneRowDearer(book: PriceBook, rows: seq<UsageRow>, i: nat, row: UsageRow, delta: real)
    requires i < |rows| && Cost(book, rows[i]).Some? && Cost(book, row) == Some(Cost(book, rows[i]).value + delta)
    ensures Fold(book, rows).usd.Some? && Fold(book, rows[i := row]).usd == Some(Fold(book, rows).usd.value + delta)
  {
    var (init, more) := (rows[..|rows| - 1], rows[i := row]);
    if i < |init| {
      OneRowDearer(book, init, i, row, delta);
      assert more[..|rows| - 1] == init[i := row];
    } else {
      assert more[..|rows| - 1] == init;
    }
  }

  /** A million more input tokens on a priced row cost the input price, a million more output tokens the output price. */
  lemma AMillionTokensCost(book: PriceBook, rows: seq<UsageRow>, i: nat, p: Price, days: seq<string>, d: Dashboard, e: Dashboard, f: Dashboard)
    requires i < |rows| && PricedAt(book, rows[i].model, p) && BuiltFrom(d, book, rows, days)
    requires BuiltFrom(e, book, rows[i := rows[i].(input := rows[i].input + 1000000)], days)
    requires BuiltFrom(f, book, rows[i := rows[i].(output := rows[i].output + 1000000)], days)
    ensures d.totals.usd.Some?
    ensures e.totals.usd == Some(d.totals.usd.value + p.inPerM)
    ensures f.totals.usd == Some(d.totals.usd.value + p.outPerM)
  {
    hide Fold, Cost, PricedAt, Dollars, IsGrouping, Covers;
    MillionsAtPrice(p);
    MoreTokensCost(book, rows[i], 1000000, 0, p);
    MoreTokensCost(book, rows[i], 0, 1000000, p);
    OneRowDearer(book, rows, i, rows[i].(input := rows[i].input + 1000000), p.inPerM);
    OneRowDearer(book, rows, i, rows[i].(output := rows[i].output + 1000000), p.outPerM);
  }

  lemma MoreTokensCost(book: PriceBook, row: UsageRow, x: nat, y: nat, p: Price)
    requires PricedAt(book, row.model, p)
    ensures Cost(book, row).Some?
    ensures Cost(book, row.(input := row.input + x, output := row.output + y)) == Some(Cost(book, row).value + Dollars(x, y, p))
  {
    hide Cost, Dollars;
    var more := row.(input := row.input + x, output := row.output + y);
    assert PricedAt(book, more.model, p);
    CostIsDollars(book, row);
    CostIsDollars(book, more);
    DollarsAdd(row.input, row.output, x, y, p);
  }

  lemma MillionsAtPrice(p: Price)
    ensures Dollars(1000000, 0, p) == p.inPerM && Dollars(0, 1000000, p) == p.outPerM
  {
  }

  /** The unpriced list names exactly the models of which tokens were used and that have no price. */
  lemma ListedAre(d: Dashboard, book: PriceBook, rows: seq<UsageRow>, days: seq<string>, names: seq<string>, n: string)
    requires BuiltFrom(d, book, rows, days)
    requires forall x :: x in names <==> exists k :: k in d.models.order && k.0 == x && Shown(book, k, d.models.of[k])
    ensures n in names <==> exists i :: 0 <= i < |rows| && rows[i].model.GetOr("") == n && !Priced(book, rows[i].model) && rows[i].input + rows[i].output > 0
  {
    if n in names {
      var k :| k in d.models.order && k.0 == n && Shown(book, k, d.models.of[k]);
      TokensTell(book, rows, ModelOf, k);
      var i :| 0 <= i < |rows| && ModelOf(rows[i]) == k && rows[i].input + rows[i].output > 0;
      SamePrice(book, rows[i]);
      CostIsDollars(book, rows[i]);
    }
    if i :| 0 <= i < |rows| && rows[i].model.GetOr("") == n && !Priced(book, rows[i].model) && rows[i].input + rows[i].output > 0 {
      var k := ModelOf(rows[i]);
      CostIsDollars(book, rows[i]);
      SamePrice(book, rows[i]);
      TokensTell(book, rows, ModelOf, k);
      assert k in d.models.order && Shown(book, k, d.models.of[k]);
    }
  }

  // ---- buildAiCostDashboard ------------------------------------------------------------------------------

  /** The groupings agree: clients, workflows and models make the totals, and so do the days when the period has them all. */
  ghost predicate Agrees(d: Dashboard, rows: seq<UsageRow>, days: seq<string>)
  {
    && Together(d.clients) == d.totals && Together(d.workflows) == d.totals && Together(d.models) == d.totals
    && ((forall i | 0 <= i < |rows| :: rows[i].day in days) ==> Together(d.daily) == d.totals)
  }

  lemma BuiltAgrees(d: Dashboard, book: PriceBook, rows: seq<UsageRow>, days: seq<string>)
    requires BuiltFrom(d, book, rows, days)
    ensures Agrees(d, rows, days)
    ensures Together(d.daily) == FoldIn(book, rows, DayOf, d.daily.order)
  {
    GroupingAgrees(d.clients, book, rows, ClientOf);
    GroupingAgrees(d.workflows, book, rows, WorkflowOf);
    GroupingAgrees(d.models, book, rows, ModelOf);
    GroupingAgrees(d.daily, book, rows, DayOf);
  }

  /** Each model once of which tokens were used and that has no price, and no other name. */
  ghost predicate ListTells(names: seq<string>, book: PriceBook, rows: seq<UsageRow>)
  {
    && Distinct(names)
    && forall n :: n in names <==>
         exists i :: 0 <= i < |rows| && rows[i].model.GetOr("") == n && !Priced(book, rows[i].model) && rows[i].input + rows[i].output > 0
  }

  /** The list of unpriced models, built from the model groups. */
  method ListUnpriced(d: Dashboard, book: PriceBook, ghost rows: seq<UsageRow>, ghost days: seq<string>) returns (unpriced: seq<string>)
    requires BuiltFrom(d, book, rows, days)
    ensures ListTells(unpriced, book, rows) && (d.totals.partial <==> unpriced != [])
  {
    hide Fold, FoldOf, Shown, Priced;
    unpriced := UnpricedModels(book, d.models);
    PartialIffListed(d, book, rows, days, unpriced);
    forall n
      ensures n in unpriced <==>
                exists i :: 0 <= i < |rows| && rows[i].model.GetOr("") == n && !Priced(book, rows[i].model) && rows[i].input + rows[i].output > 0
    {
      ListedAre(d, book, rows, days, unpriced, n);
    }
  }

  method BuildDashboard(book: PriceBook, rows: seq<UsageRow>, days: seq<string>) returns (d: Dashboard, unpriced: seq<string>)
    ensures BuiltFrom(d, book, rows, days) && Agrees(d, rows, days) && FiguresTell(d, book, rows)
    ensures ListTells(unpriced, book, rows) && (d.totals.partial <==> unpriced != [])
  {
    hide Agrees, FiguresTell, ListTells, FoldOf;
    var daily := BlankDays(days);
    d := Dashboard(BLANK, Groups([], map[]), Groups([], map[]), Groups([], map[]), daily);
    for i := 0 to |rows|
      invariant BuiltFrom(d, book, rows[..i], days)
    {
      assert rows[..i + 1] == rows[..i] + [rows[i]];
      d := AddRow(d, book, rows[..i], days, rows[i]);
    }
    assert rows[..|rows|] == rows;
    unpriced := ListUnpriced(d, book, rows, days);
    BuiltAgrees(d, book, rows, days);
    BuiltTells(d, book, rows, days);
  }
}
