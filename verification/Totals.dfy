/**
 The dashboard's filters and totals (app/render.py) over the intraday figures of a row
 (app/core/broker.py).
 */
module Totals {
  import opened Broker

  // ---- one row ------------------------------------------------------------------------

  /** Python divides by the magnifier; every adapter sets it to at least one. */
  type Row = p: Position | p.id.priceMagnifier != 0
    witness Position(Instrument("", "", "", "", "", "", "", Stk, 0.0, 1), 0.0, 0.0, 0.0, 0.0, 0.0, 0.0,
                     false, false, false, false, false, false, false, 0.0)

  function IntradayChangePct(p: Row): Option<real> {
    if p.previousClose <= 0.0 || p.lastPrice <= 0.0 then None
    else if p.isPreviousClose then None
    else Some((p.lastPrice - p.previousClose) / p.previousClose * 100.0)
  }

  /** Whether a row adds to today's P&L. */
  predicate Contributes(p: Row) {
    p.previousClose > 0.0 && p.lastPrice > 0.0 && !p.fxUnavailable && !p.isPreviousClose && p.mvNative != 0.0
  }

  /** The rate the row was converted with, backed out of its two market values. */
  function RowRate(p: Row): real
    requires p.mvNative != 0.0
  {
    p.mvUsd / p.mvNative
  }

  function IntradayPnlUsd(p: Row): real
  {
    if !Contributes(p) then 0.0
    else (p.lastPrice - p.previousClose) * p.id.quantity / p.id.priceMagnifier as real * RowRate(p)
  }

  /** The holding at a native price, in USD. */
  function ValuedAt(p: Row, price: real): real
    requires p.mvNative != 0.0
  {
    price * p.id.quantity / p.id.priceMagnifier as real * RowRate(p)
  }

  /** mv·magnifier = qty·last. */
  predicate Priced(p: Row) { p.mvNative * p.id.priceMagnifier as real == p.id.quantity * p.lastPrice }

  lemma ValuedAtLast(p: Row)
    requires p.mvNative != 0.0
    ensures ValuedAt(p, p.lastPrice) == p.mvUsd <==> Priced(p) || p.mvUsd == 0.0
  {
    var mag, fx := p.id.priceMagnifier as real, RowRate(p);
    var native := p.lastPrice * p.id.quantity / p.id.priceMagnifier as real;
    assert fx * p.mvNative == p.mvUsd;
    assert native * mag == p.lastPrice * p.id.quantity;
    assert ValuedAt(p, p.lastPrice) - p.mvUsd == fx * (native - p.mvNative);
    assert p.mvUsd == 0.0 <==> fx == 0.0;
    assert (native - p.mvNative) * mag == p.lastPrice * p.id.quantity - p.mvNative * mag;
  }

  /** What a contributing row gained today, from its value at yesterday's close. */
  lemma GainOverClose(p: Row)
    requires Contributes(p)
    ensures IntradayPnlUsd(p) == ValuedAt(p, p.lastPrice) - ValuedAt(p, p.previousClose)
  {
    var q, mag, fx := p.id.quantity, p.id.priceMagnifier as real, RowRate(p);
    assert (p.lastPrice - p.previousClose) * q / mag == p.lastPrice * q / mag - p.previousClose * q / mag;
  }

  /** Taking today's gain off a contributing row's market value leaves the holding at
      yesterday's close exactly when the row is priced at its last price (or is worth nothing). */
  lemma BasisOfRow(p: Row)
    requires Contributes(p)
    ensures p.mvUsd - IntradayPnlUsd(p) == ValuedAt(p, p.previousClose) <==> Priced(p) || p.mvUsd == 0.0
  {
    GainOverClose(p);
    ValuedAtLast(p);
  }

  /** The row's percentage and its P&L tell the same story. */
  lemma PercentageOfClose(p: Row)
    requires Contributes(p)
    ensures IntradayChangePct(p).Some?
    ensures IntradayPnlUsd(p) * 100.0 == ValuedAt(p, p.previousClose) * IntradayChangePct(p).value
  {
    var per, pct := p.id.quantity / p.id.priceMagnifier as real, IntradayChangePct(p).value;
    assert p.previousClose * pct == (p.lastPrice - p.previousClose) * 100.0;
    assert ValuedAt(p, p.previousClose) == p.previousClose * (per * RowRate(p));
    assert IntradayPnlUsd(p) == (p.lastPrice - p.previousClose) * (per * RowRate(p));
    assert ValuedAt(p, p.previousClose) * pct == p.previousClose * pct * (per * RowRate(p));
  }

  // ---- filters ------------------------------------------------------------------------

  datatype Dimension = Account | Asset | Brokerage

  function AssetName(a: AssetClass): string { if a.Stk? then "STK" else "CASH" }

  function Label(p: Row, d: Dimension): string {
    match d
    case Account => p.id.accountId
    case Asset => AssetName(p.id.assetClass)
    case Brokerage => p.id.broker
  }

  datatype Filter = Filter(dimension: Dimension, active: string)

  predicate Unfiltered(active: string) { active == "" || active == "All" }

  predicate Passes(p: Row, f: Filter) { Unfiltered(f.active) || Label(p, f.dimension) == f.active }

  /** One list comprehension of _apply_filters. */
  function Narrow(ps: seq<Row>, f: Filter): seq<Row> {
    if ps == [] then []
    else (if Passes(ps[0], f) then [ps[0]] else []) + Narrow(ps[1..], f)
  }

  function NarrowAll(ps: seq<Row>, fs: seq<Filter>): seq<Row>
    decreases |fs|
  {
    if fs == [] then ps else NarrowAll(Narrow(ps, fs[0]), fs[1..])
  }

  function ApplyFilters(ps: seq<Row>, account: string, asset: string, broker: string): seq<Row> {
    NarrowAll(ps, [Filter(Account, account), Filter(Asset, asset), Filter(Brokerage, broker)])
  }

  /** The rows that pass every filter, in order. */
  function Passing(ps: seq<Row>, fs: set<Filter>): seq<Row> {
    if ps == [] then []
    else (if forall f | f in fs :: Passes(ps[0], f) then [ps[0]] else []) + Passing(ps[1..], fs)
  }

  lemma {:induction false} PassingNothing(ps: seq<Row>)
    ensures Passing(ps, {}) == ps
  {
    if ps != [] {
      PassingNothing(ps[1..]);
      assert ps == [ps[0]] + ps[1..];
    }
  }

  lemma {:induction false} PassingAfterNarrow(ps: seq<Row>, f: Filter, fs: set<Filter>)
    ensures Passing(Narrow(ps, f), fs) == Passing(ps, fs + {f})
  {
    if ps != [] {
      PassingAfterNarrow(ps[1..], f, fs);
      var rest := Narrow(ps[1..], f);
      if Passes(ps[0], f) {
        assert Narrow(ps, f)[1..] == rest;
      } else {
        assert Narrow(ps, f) == rest;
      }
    }
  }

  function Filters(fs: seq<Filter>): set<Filter> { set f | f in fs }

  lemma {:induction false} NarrowAllIsPassing(ps: seq<Row>, fs: seq<Filter>)
    ensures NarrowAll(ps, fs) == Passing(ps, Filters(fs))
    decreases |fs|
  {
    if fs == [] {
      PassingNothing(ps);
      assert Filters(fs) == {};
    } else {
      NarrowAllIsPassing(Narrow(ps, fs[0]), fs[1..]);
      PassingAfterNarrow(ps, fs[0], Filters(fs[1..]));
      assert Filters(fs) == Filters(fs[1..]) + {fs[0]};
    }
  }

  /** Neither the order of filters nor repeating one matters. */
  lemma FilterOrderIsIrrelevant(ps: seq<Row>, fs: seq<Filter>, gs: seq<Filter>)
    requires forall f :: f in fs <==> f in gs
    ensures NarrowAll(ps, fs) == NarrowAll(ps, gs)
  {
    NarrowAllIsPassing(ps, fs);
    NarrowAllIsPassing(ps, gs);
    assert Filters(fs) == Filters(gs);
  }

  // ---- totals -------------------------------------------------------------------------

  /** What a row adds to a figure of the dashboard. */
  type Amount = Row -> real

  function MarketValue(p: Row): real { p.mvUsd }

  function UnrealizedPnl(p: Row): real { p.pnlUsd }

  function Weight(p: Row, amount: Amount): real
  {
    if p.fxUnavailable then 0.0 else amount(p)
  }

  /** One sum of _compute_totals: rows without a rate add nothing. */
  function Total(ps: seq<Row>, amount: Amount): real {
    if ps == [] then 0.0 else Weight(ps[0], amount) + Total(ps[1..], amount)
  }

  datatype Figures = Figures(
    mv: real, pnl: real, pnlPct: real, pnlIsPositive: bool,
    todaysPnl: real, todaysPct: real, todaysIsPositive: bool, hasIntraday: bool)

  /** `pct` per cent of `whole` is `part`; 0 where it is not shown. */
  predicate IsPercent(pct: real, part: real, whole: real, shown: bool) {
    if shown then pct * whole == part * 100.0 else pct == 0.0
  }

  function Percent(part: real, whole: real, shown: bool): (pct: real)
    requires shown ==> whole != 0.0
    ensures IsPercent(pct, part, whole, shown)
  {
    if shown then part / whole * 100.0 else 0.0
  }

  function ComputeTotals(ps: seq<Row>): Figures {
    var mv, pnl, today := Total(ps, MarketValue), Total(ps, UnrealizedPnl), Total(ps, IntradayPnlUsd);
    var basis := mv - today;
    Figures(mv, pnl, Percent(pnl, mv - pnl, mv - pnl != 0.0), pnl >= 0.0,
            today, Percent(today, basis, basis > 0.0), today >= 0.0,
            exists p | p in ps :: IntradayChangePct(p).Some?)
  }

  // Conservation: splitting a list by one dimension's labels loses and repeats nothing.

  predicate DistinctLabels(labels: seq<string>) { forall i, j | 0 <= i < j < |labels| :: labels[i] != labels[j] }

  predicate Covers(labels: seq<string>, ps: seq<Row>, d: Dimension) { forall p | p in ps :: Label(p, d) in labels }

  function ViewTotal(ps: seq<Row>, d: Dimension, tag: string, amount: Amount): real {
    Total(Narrow(ps, Filter(d, tag)), amount)
  }

  /** A figure added up over the first n labels. */
  function SumOver(labels: seq<string>, n: nat, figure: string -> real): real
    requires n <= |labels|
  {
    if n == 0 then 0.0 else SumOver(labels, n - 1, figure) + figure(labels[n - 1])
  }

  function SumOverViews(ps: seq<Row>, d: Dimension, labels: seq<string>, amount: Amount): real {
    SumOver(labels, |labels|, tag => ViewTotal(ps, d, tag, amount))
  }

  lemma FirstRowOfView(ps: seq<Row>, d: Dimension, tag: string, amount: Amount)
    requires ps != [] && !Unfiltered(tag)
    ensures ViewTotal(ps, d, tag, amount)
         == ViewTotal(ps[1..], d, tag, amount) + if Label(ps[0], d) == tag then Weight(ps[0], amount) else 0.0
  {
    var f := Filter(d, tag);
    if Passes(ps[0], f) {
      assert Narrow(ps, f)[1..] == Narrow(ps[1..], f);
    } else {
      assert Narrow(ps, f) == Narrow(ps[1..], f);
    }
  }

  /** What is added under one label is added once. */
  lemma {:induction false} AddedOnce(labels: seq<string>, n: nat, big: string -> real, small: string -> real,
                                     tag: string, w: real)
    requires n <= |labels| && DistinctLabels(labels)
    requires forall i | 0 <= i < n :: big(labels[i]) == small(labels[i]) + if labels[i] == tag then w else 0.0
    ensures SumOver(labels, n, big)
         == SumOver(labels, n, small) + if exists i :: 0 <= i < n && labels[i] == tag then w else 0.0
  {
    if n > 0 { AddedOnce(labels, n - 1, big, small, tag, w); }
  }

  lemma {:induction false} NoRowsNoViews(d: Dimension, labels: seq<string>, n: nat, amount: Amount)
    requires n <= |labels|
    ensures SumOver(labels, n, tag => ViewTotal([], d, tag, amount)) == 0.0
  {
    if n > 0 { NoRowsNoViews(d, labels, n - 1, amount); }
  }

  /** Market value, P&L and today's P&L of the views per account (or asset class, or broker)
      add up to those of the whole list. */
  lemma {:induction false} TotalsAreConserved(ps: seq<Row>, d: Dimension, labels: seq<string>, amount: Amount)
    requires DistinctLabels(labels) && Covers(labels, ps, d)
    requires forall tag | tag in labels :: !Unfiltered(tag)
    ensures SumOverViews(ps, d, labels, amount) == Total(ps, amount)
  {
    if ps == [] {
      NoRowsNoViews(d, labels, |labels|, amount);
    } else {
      var big := tag => ViewTotal(ps, d, tag, amount);
      var small := tag => ViewTotal(ps[1..], d, tag, amount);
      forall i | 0 <= i < |labels|
        ensures big(labels[i]) == small(labels[i]) + if labels[i] == Label(ps[0], d) then Weight(ps[0], amount) else 0.0
      {
        FirstRowOfView(ps, d, labels[i], amount);
      }
      AddedOnce(labels, |labels|, big, small, Label(ps[0], d), Weight(ps[0], amount));
      assert ps[0] in ps;
      TotalsAreConserved(ps[1..], d, labels, amount);
    }
  }

  lemma {:induction false} SameFigures(labels: seq<string>, n: nat, f: string -> real, g: string -> real)
    requires n <= |labels| && forall i | 0 <= i < n :: f(labels[i]) == g(labels[i])
    ensures SumOver(labels, n, f) == SumOver(labels, n, g)
  {
    if n > 0 { SameFigures(labels, n - 1, f, g); }
  }

  lemma {:induction false} NarrowKeepsMembers(ps: seq<Row>, f: Filter)
    ensures forall p :: p in Narrow(ps, f) <==> p in ps && Passes(p, f)
  {
    if ps != [] { NarrowKeepsMembers(ps[1..], f); }
  }

  lemma AccountLast(ps: seq<Row>, account: string, asset: string, broker: string)
    ensures ApplyFilters(ps, account, asset, broker)
         == Narrow(Narrow(Narrow(ps, Filter(Asset, asset)), Filter(Brokerage, broker)), Filter(Account, account))
  {
    var a, s, b := Filter(Account, account), Filter(Asset, asset), Filter(Brokerage, broker);
    FilterOrderIsIrrelevant(ps, [a, s, b], [s, b, a]);
    NarrowAllUnfolds(ps, s, b, a);
  }

  lemma NarrowAllUnfolds(ps: seq<Row>, f: Filter, g: Filter, h: Filter)
    ensures NarrowAll(ps, [f, g, h]) == Narrow(Narrow(Narrow(ps, f), g), h)
  {
    var last := Narrow(Narrow(Narrow(ps, f), g), h);
    assert [f, g, h][1..] == [g, h] && [g, h][1..] == [h] && [h][1..] == [];
    assert NarrowAll(last, []) == last;
    assert NarrowAll(Narrow(Narrow(ps, f), g), [h]) == last;
  }

  /** With the asset and broker filters set, the account views still add up to the view of
      all accounts. */
  lemma AccountViewsAddUp(ps: seq<Row>, labels: seq<string>, asset: string, broker: string, amount: Amount)
    requires DistinctLabels(labels) && Covers(labels, ps, Account)
    requires forall tag | tag in labels :: !Unfiltered(tag)
    ensures SumOver(labels, |labels|, account => Total(ApplyFilters(ps, account, asset, broker), amount))
         == Total(ApplyFilters(ps, "All", asset, broker), amount)
  {
    var rest := Narrow(Narrow(ps, Filter(Asset, asset)), Filter(Brokerage, broker));
    NarrowKeepsMembers(ps, Filter(Asset, asset));
    NarrowKeepsMembers(Narrow(ps, Filter(Asset, asset)), Filter(Brokerage, broker));
    TotalsAreConserved(rest, Account, labels, amount);
    AccountLast(ps, "All", asset, broker);
    NarrowByLabel(rest, Account, "All");
    var views := account => Total(ApplyFilters(ps, account, asset, broker), amount);
    var narrowed := account => ViewTotal(rest, Account, account, amount);
    forall i | 0 <= i < |labels| ensures views(labels[i]) == narrowed(labels[i]) {
      AccountLast(ps, labels[i], asset, broker);
    }
    SameFigures(labels, |labels|, views, narrowed);
  }

  /** The rows of one label. */
  function RowsOf(ps: seq<Row>, d: Dimension, tag: string): seq<Row> {
    if ps == [] then []
    else (if Label(ps[0], d) == tag then [ps[0]] else []) + RowsOf(ps[1..], d, tag)
  }

  lemma {:induction false} RowsAreFewer(ps: seq<Row>, d: Dimension, tag: string)
    ensures |RowsOf(ps, d, tag)| <= |ps|
    ensures |RowsOf(ps, d, tag)| == |ps| <==> forall p | p in ps :: Label(p, d) == tag
  {
    if ps != [] { RowsAreFewer(ps[1..], d, tag); }
  }

  lemma {:induction false} NarrowByLabel(ps: seq<Row>, d: Dimension, tag: string)
    ensures Narrow(ps, Filter(d, tag)) == if Unfiltered(tag) then ps else RowsOf(ps, d, tag)
  {
    if ps != [] {
      NarrowByLabel(ps[1..], d, tag);
      assert ps == [ps[0]] + ps[1..];
    }
  }

  /** The ids "" and "All" mean every row, so an account of that name has a view of its own
      rows exactly when no other account holds any. */
  lemma ViewIsTheLabelsRows(ps: seq<Row>, d: Dimension, tag: string)
    ensures Narrow(ps, Filter(d, tag)) == RowsOf(ps, d, tag)
        <==> !Unfiltered(tag) || forall p | p in ps :: Label(p, d) == tag
  {
    NarrowByLabel(ps, d, tag);
    RowsAreFewer(ps, d, tag);
    if forall p | p in ps :: Label(p, d) == tag { AllRows(ps, d, tag); }
  }

  /** The view of an account "All" shows another account's rows too. */
  lemma AccountNamedAll(mine: Row, other: Row)
    requires mine.id.accountId == "All" && other.id.accountId != "All"
    ensures Narrow([mine, other], Filter(Account, "All")) == [mine, other] != RowsOf([mine, other], Account, "All")
  {
    NarrowByLabel([mine, other], Account, "All");
    assert other in [mine, other] && Label(other, Account) != "All";
    ViewIsTheLabelsRows([mine, other], Account, "All");
  }

  lemma {:induction false} AllRows(ps: seq<Row>, d: Dimension, tag: string)
    requires forall p | p in ps :: Label(p, d) == tag
    ensures RowsOf(ps, d, tag) == ps
  {
    if ps != [] {
      AllRows(ps[1..], d, tag);
      assert ps == [ps[0]] + ps[1..];
    }
  }

  // ---- the intraday basis -------------------------------------------------------------

  /** Contributing rows at yesterday's close, other convertible rows as they are. */
  function AtPreviousClose(ps: seq<Row>): real
  {
    if ps == [] then 0.0
    else
      var p := ps[0];
      (if p.fxUnavailable then 0.0 else if Contributes(p) then ValuedAt(p, p.previousClose) else p.mvUsd)
        + AtPreviousClose(ps[1..])
  }

  /** The basis of today's percentage is the portfolio at yesterday's close. */
  lemma {:induction false} BasisIsYesterdaysValue(ps: seq<Row>)
    requires forall p | p in ps && Contributes(p) :: Priced(p)
    ensures Total(ps, MarketValue) - Total(ps, IntradayPnlUsd) == AtPreviousClose(ps)
  {
    if ps != [] {
      BasisIsYesterdaysValue(ps[1..]);
      if Contributes(ps[0]) { BasisOfRow(ps[0]); }
    }
  }

  lemma {:induction false} NothingHiddenToday(ps: seq<Row>)
    requires forall p | p in ps :: IntradayChangePct(p).None?
    ensures Total(ps, IntradayPnlUsd) == 0.0
  {
    if ps != [] {
      NothingHiddenToday(ps[1..]);
      assert IntradayChangePct(ps[0]).None?;
    }
  }

  // The sums the hero shows, row by row: rows without a rate are left out.

  function MvUsdOf(ps: seq<Row>): real {
    if ps == [] then 0.0 else (if ps[0].fxUnavailable then 0.0 else ps[0].mvUsd) + MvUsdOf(ps[1..])
  }

  function PnlUsdOf(ps: seq<Row>): real {
    if ps == [] then 0.0 else (if ps[0].fxUnavailable then 0.0 else ps[0].pnlUsd) + PnlUsdOf(ps[1..])
  }

  /** Today's gain, of the rows that show one. */
  function GainOf(ps: seq<Row>): real {
    if ps == [] then 0.0
    else
      (if Contributes(ps[0]) then ValuedAt(ps[0], ps[0].lastPrice) - ValuedAt(ps[0], ps[0].previousClose) else 0.0)
      + GainOf(ps[1..])
  }

  lemma {:induction false} SumsOfRows(ps: seq<Row>)
    ensures Total(ps, MarketValue) == MvUsdOf(ps) && Total(ps, UnrealizedPnl) == PnlUsdOf(ps)
    ensures Total(ps, IntradayPnlUsd) == GainOf(ps)
  {
    if ps != [] {
      SumsOfRows(ps[1..]);
      if Contributes(ps[0]) { GainOverClose(ps[0]); }
    }
  }

  predicate ShowsIntraday(p: Row) { p.previousClose > 0.0 && p.lastPrice > 0.0 && !p.isPreviousClose }

  /** What the hero shows is those sums, with their signs; and there is a "Today" row exactly
      when some row shows an intraday percentage. */
  lemma FiguresAreTheRows(ps: seq<Row>)
    ensures var r := ComputeTotals(ps);
      && r.mv == MvUsdOf(ps) && r.pnl == PnlUsdOf(ps) && r.todaysPnl == GainOf(ps)
      && (r.pnlIsPositive <==> PnlUsdOf(ps) >= 0.0) && (r.todaysIsPositive <==> GainOf(ps) >= 0.0)
      && (r.hasIntraday <==> exists p | p in ps :: ShowsIntraday(p))
  {
    SumsOfRows(ps);
    assert forall p | p in ps :: ShowsIntraday(p) <==> IntradayChangePct(p).Some?;
  }

  /** The hero's figures, for rows priced at their last price: today's percentage is today's
      P&L over the portfolio at yesterday's close, the P&L percentage is over its cost, and
      where the "Today" row is left out today's P&L is zero. */
  lemma HeroFigures(ps: seq<Row>)
    requires forall p | p in ps && Contributes(p) :: Priced(p)
    ensures var r := ComputeTotals(ps);
      && r.mv == MvUsdOf(ps) && r.pnl == PnlUsdOf(ps) && r.todaysPnl == GainOf(ps)
      && (r.pnlIsPositive <==> r.pnl >= 0.0) && (r.todaysIsPositive <==> r.todaysPnl >= 0.0)
      && (r.hasIntraday <==> exists p | p in ps :: ShowsIntraday(p))
      && IsPercent(r.todaysPct, r.todaysPnl, AtPreviousClose(ps), AtPreviousClose(ps) > 0.0)
      && IsPercent(r.pnlPct, r.pnl, r.mv - r.pnl, r.mv != r.pnl)
      && (!r.hasIntraday ==> r.todaysPnl == 0.0)
  {
    FiguresAreTheRows(ps);
    BasisIsYesterdaysValue(ps);
    if !ComputeTotals(ps).hasIntraday {
      NothingHiddenToday(ps);
    }
  }

  /** One convertible row of 100 USD, 10 of them gained: what is shown is 100 and 10. */
  lemma HeroOfOneRow(p: Row)
    requires p.mvUsd == 100.0 && p.pnlUsd == 10.0 && !p.fxUnavailable
    ensures var r := ComputeTotals([p]); r.mv == 100.0 && r.pnl == 10.0 && r.pnlIsPositive
  {
    FiguresAreTheRows([p]);
    assert [p][1..] == [] && MvUsdOf([]) == 0.0 && PnlUsdOf([]) == 0.0;
    assert MvUsdOf([p]) == p.mvUsd && PnlUsdOf([p]) == p.pnlUsd;
  }

  datatype Shown = MarketValueShown | PnlShown | TodaysShown

  function Pick(r: Figures, which: Shown): real {
    match which
    case MarketValueShown => r.mv
    case PnlShown => r.pnl
    case TodaysShown => r.todaysPnl
  }

  function ShownFor(ps: seq<Row>, account: string, asset: string, broker: string, which: Shown): real {
    Pick(ComputeTotals(ApplyFilters(ps, account, asset, broker)), which)
  }

  function AmountOf(which: Shown): Amount {
    match which
    case MarketValueShown => MarketValue
    case PnlShown => UnrealizedPnl
    case TodaysShown => IntradayPnlUsd
  }

  /** The figures shown for each account, asset and broker filters set, add up to those shown
      for all accounts. */
  lemma ShownFiguresAddUp(ps: seq<Row>, labels: seq<string>, asset: string, broker: string, which: Shown)
    requires DistinctLabels(labels) && Covers(labels, ps, Account)
    requires forall tag | tag in labels :: !Unfiltered(tag)
    ensures SumOver(labels, |labels|, account => ShownFor(ps, account, asset, broker, which))
         == ShownFor(ps, "All", asset, broker, which)
  {
    var amount := AmountOf(which);
    AccountViewsAddUp(ps, labels, asset, broker, amount);
    var shown := account => ShownFor(ps, account, asset, broker, which);
    var views := account => Total(ApplyFilters(ps, account, asset, broker), amount);
    forall i | 0 <= i < |labels| ensures shown(labels[i]) == views(labels[i]) {
      ShownIsTotal(ApplyFilters(ps, labels[i], asset, broker), which);
    }
    SameFigures(labels, |labels|, shown, views);
    ShownIsTotal(ApplyFilters(ps, "All", asset, broker), which);
  }

  lemma ShownIsTotal(ps: seq<Row>, which: Shown)
    ensures Pick(ComputeTotals(ps), which) == Total(ps, AmountOf(which))
  {
  }

  /** A filtered list holds exactly the rows that match all three filters, "" and "All"
      matching everything. */
  lemma FiltersSelect(ps: seq<Row>, account: string, asset: string, broker: string, p: Row)
    ensures p in ApplyFilters(ps, account, asset, broker)
       <==> && p in ps
            && (account == "" || account == "All" || p.id.accountId == account)
            && (asset == "" || asset == "All" || (asset == "STK" && p.id.assetClass == Stk)
                || (asset == "CASH" && p.id.assetClass == Cash))
            && (broker == "" || broker == "All" || p.id.broker == broker)
  {
    AccountLast(ps, account, asset, broker);
    NarrowKeepsMembers(ps, Filter(Asset, asset));
    NarrowKeepsMembers(Narrow(ps, Filter(Asset, asset)), Filter(Brokerage, broker));
    NarrowKeepsMembers(Narrow(Narrow(ps, Filter(Asset, asset)), Filter(Brokerage, broker)), Filter(Account, account));
  }
}
