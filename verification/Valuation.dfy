/**
 Valuation of IBKR rows (app/adapters/ibkr.py): the seed row, and the two copies of each
 streaming row that ticks, portfolio marks, the daily reseed and stale marking update.
 */
module Valuation {
  import opened Broker
  import opened LivePositions

  const IBKR := "IBKR"

  // ---- raw vendor values --------------------------------------------------------------

  /** An attribute of a vendor object: absent or unparseable, NaN, or a number. */
  datatype Field = Missing | NaN | Number(value: real)

  function ToPositive(f: Field): Option<real> {
    if f.Number? && f.value > 0.0 then Some(f.value) else None
  }

  function ToFinite(f: Field): Option<real> {
    if f.Number? then Some(f.value) else None
  }

  datatype Ticker = Ticker(last: Field, close: Field, marketPrice: Field, isDelayed: bool)

  predicate UnusableBefore(fields: seq<Field>, i: nat)
    requires i <= |fields|
  {
    forall j | 0 <= j < i :: ToPositive(fields[j]).None?
  }

  /** `price` is that of the first usable field, every field before it being unusable. */
  predicate FirstUsable(fields: seq<Field>, price: real) {
    exists i :: 0 <= i < |fields| && ToPositive(fields[i]) == Some(price) && UnusableBefore(fields, i)
  }

  /** _coerce_last: the first usable of last, close and marketPrice(), else 0. */
  function CoerceLast(t: Ticker): (price: real)
    ensures price >= 0.0
    ensures price > 0.0 <==> FirstUsable([t.last, t.close, t.marketPrice], price)
    ensures price == 0.0 <==> ToPositive(t.last).None? && ToPositive(t.close).None? && ToPositive(t.marketPrice).None?
  {
    var fields := [t.last, t.close, t.marketPrice];
    match ToPositive(t.last)
    case Some(v) => assert ToPositive(fields[0]) == Some(v); v
    case None =>
      match ToPositive(t.close)
      case Some(v) => assert ToPositive(fields[1]) == Some(v); v
      case None =>
        match ToPositive(t.marketPrice)
        case Some(v) => assert ToPositive(fields[2]) == Some(v); v
        case None => 0.0
  }

  datatype PortfolioItem = PortfolioItem(
    marketPrice: Field, averageCost: Field, marketValue: Field, unrealizedPnl: Field)

  function Abs(x: real): real { if x < 0.0 then -x else x }

  function DisplayPrice(item: PortfolioItem, magnifier: int, quantity: real): Option<real> {
    match ToPositive(item.marketPrice)
    case Some(v) => Some(v * magnifier as real)
    case None =>
      if quantity != 0.0 && ToFinite(item.marketValue).Some?
      then Some(Abs(ToFinite(item.marketValue).value / quantity) * magnifier as real)
      else None
  }

  function AverageCost(item: PortfolioItem, magnifier: int): Option<real> {
    match ToPositive(item.averageCost)
    case Some(v) => Some(v * magnifier as real)
    case None => None
  }

  function OrElse(o: Option<real>, default: real): real {
    if o.Some? then o.value else default
  }

  // ---- conversion to USD --------------------------------------------------------------

  /** What get_rate_sync returns for the row's currency: nothing (no service, unsupported
      currency or no rate), or a rate with its flags. */
  datatype FxQuote = Unavailable | Quoted(rate: real, isStale: bool, isFallback: bool)

  function Effective(currency: string, fx: FxQuote): FxQuote {
    if currency == "USD" then Quoted(1.0, false, false) else fx
  }

  /** replace(position, mv, pnl, converted mv and pnl, FX flags). */
  function WithMoney(p: Position, mv: real, pnl: real, fx: FxQuote): Position {
    match Effective(p.id.currency, fx)
    case Unavailable =>
      p.(mvNative := mv, pnlNative := pnl, mvUsd := 0.0, pnlUsd := 0.0,
         fxIsStale := false, fxIsFallback := false, fxUnavailable := true)
    case Quoted(rate, stale, fallback) =>
      p.(mvNative := mv, pnlNative := pnl, mvUsd := mv * rate, pnlUsd := pnl * rate,
         fxIsStale := stale, fxIsFallback := fallback, fxUnavailable := false)
  }

  /** A row's USD figures are its native ones at the rate, with the rate's own flags; without a
      rate they are zero, flagged as such. A USD row needs no rate. */
  predicate Converted(p: Position, fx: FxQuote) {
    if p.id.currency == "USD" then
      p.mvUsd == p.mvNative && p.pnlUsd == p.pnlNative && !p.fxIsStale && !p.fxIsFallback && !p.fxUnavailable
    else if fx.Unavailable? then
      p.mvUsd == 0.0 && p.pnlUsd == 0.0 && !p.fxIsStale && !p.fxIsFallback && p.fxUnavailable
    else
      && p.mvUsd == p.mvNative * fx.rate && p.pnlUsd == p.pnlNative * fx.rate
      && p.fxIsStale == fx.isStale && p.fxIsFallback == fx.isFallback && !p.fxUnavailable
  }

  // ---- one row ------------------------------------------------------------------------

  function Magnifier(p: Position): real { p.id.priceMagnifier as real }

  predicate AtMostOneSource(p: Position) {
    !(p.isPreviousClose && p.isBrokerMark) && !(p.isPreviousClose && p.isDelayed) && !(p.isBrokerMark && p.isDelayed)
  }

  /** Market value and cost basis agree with the price, up to the price unit. */
  predicate Consistent(p: Position) {
    && p.mvNative * Magnifier(p) == p.id.quantity * p.lastPrice
    && (p.mvNative - p.pnlNative) * Magnifier(p) == p.id.quantity * p.avgCost
  }

  /** The row a price-changing tick leaves. */
  function Revalue(p: Position, price: real, isDelayed: bool, fx: FxQuote): (r: Position)
    requires p.id.priceMagnifier > 0
    ensures Consistent(r) && AtMostOneSource(r) && r.lastPrice == price && !r.isStale
    ensures !r.isPreviousClose && !r.isBrokerMark && r.isDelayed == isDelayed
    ensures r.id == p.id && r.avgCost == p.avgCost && r.previousClose == p.previousClose
  {
    var mv := p.id.quantity * price / Magnifier(p);
    var pnl := (price - p.avgCost) * p.id.quantity / Magnifier(p);
    UnitsCancel(p, price);
    WithMoney(p.(lastPrice := price, isPreviousClose := false, isBrokerMark := false, isDelayed := isDelayed,
                 isStale := false),
              mv, pnl, fx)
  }

  lemma UnitsCancel(p: Position, price: real)
    requires p.id.priceMagnifier > 0
    ensures p.id.quantity * price / Magnifier(p) * Magnifier(p) == p.id.quantity * price
    ensures (p.id.quantity * price / Magnifier(p) - (price - p.avgCost) * p.id.quantity / Magnifier(p)) * Magnifier(p)
         == p.id.quantity * p.avgCost
  {
    var m := Magnifier(p);
    var a := p.id.quantity * price;
    var b := (price - p.avgCost) * p.id.quantity;
    assert a / m * m == a && b / m * m == b;
    assert (a / m - b / m) * m == a - b;
    assert b == a - p.avgCost * p.id.quantity;
  }

  /** In USD the row is its quantity at the price and at that moment's rate, or nothing. */
  lemma UsdFollowsPrice(p: Position, price: real, isDelayed: bool, fx: FxQuote)
    requires p.id.priceMagnifier > 0
    ensures var r := Revalue(p, price, isDelayed, fx);
      match Effective(p.id.currency, fx)
      case Unavailable => r.fxUnavailable && r.mvUsd == 0.0 && r.pnlUsd == 0.0
      case Quoted(rate, _, _) =>
        && !r.fxUnavailable
        && r.mvUsd * Magnifier(p) == p.id.quantity * price * rate
        && r.pnlUsd * Magnifier(p) == p.id.quantity * (price - p.avgCost) * rate
  {
    var r := Revalue(p, price, isDelayed, fx);
    match Effective(p.id.currency, fx)
    case Unavailable =>
    case Quoted(rate, _, _) =>
      Scaled(r.mvNative, Magnifier(p), rate, p.id.quantity * price);
      Scaled(r.pnlNative, Magnifier(p), rate, p.id.quantity * (price - p.avgCost));
  }

  lemma Scaled(native: real, magnifier: real, rate: real, units: real)
    requires native * magnifier == units
    ensures native * rate * magnifier == units * rate
  {
  }

  function TickRow(p: Position, t: Ticker, fx: FxQuote): Position
    requires p.id.priceMagnifier > 0
  {
    var price := CoerceLast(t);
    if price <= 0.0 || price == p.lastPrice then p else Revalue(p, price, t.isDelayed, fx)
  }

  /** A streaming row with a positive price that is not a broker mark, be it live or a previous
      close, takes no portfolio mark. */
  predicate Frozen(p: Position) {
    !p.isBrokerMark && p.lastPrice > 0.0
  }

  /** The item's figure where it is a number, the old one otherwise. */
  predicate TakesOver(now: real, f: Field, before: real) {
    now == if f.Number? then f.value else before
  }

  /** The item's price: marketPrice if positive, else the market value's share of one unit. */
  predicate MarksAt(last: real, item: PortfolioItem, p: Position) {
    if item.marketPrice.Number? && item.marketPrice.value > 0.0 then last == item.marketPrice.value * Magnifier(p)
    else if p.id.quantity != 0.0 && item.marketValue.Number? then
      last == Abs(item.marketValue.value / p.id.quantity) * Magnifier(p)
    else last == p.lastPrice
  }

  predicate CostsAt(cost: real, item: PortfolioItem, p: Position) {
    cost == if item.averageCost.Number? && item.averageCost.value > 0.0 then item.averageCost.value * Magnifier(p)
            else p.avgCost
  }

  predicate SameFigures(p: Position, r: Position) {
    r.lastPrice == p.lastPrice && r.mvNative == p.mvNative && r.pnlNative == p.pnlNative && r.avgCost == p.avgCost
  }

  /** The row a portfolio event leaves, `p` being the published copy. */
  function MarkRow(p: Position, item: PortfolioItem, fx: FxQuote): Position {
    var last := OrElse(DisplayPrice(item, p.id.priceMagnifier, p.id.quantity), p.lastPrice);
    var mv := OrElse(ToFinite(item.marketValue), p.mvNative);
    var pnl := OrElse(ToFinite(item.unrealizedPnl), p.pnlNative);
    var cost := OrElse(AverageCost(item, p.id.priceMagnifier), p.avgCost);
    if last == p.lastPrice && mv == p.mvNative && pnl == p.pnlNative && cost == p.avgCost then p
    else
      WithMoney(p.(avgCost := cost, lastPrice := last, isPreviousClose := false, isBrokerMark := true,
                   isDelayed := false, isStale := false),
                mv, pnl, fx)
  }

  /** Each figure of the row a portfolio event leaves comes from its own field of the item, and
      an event that repeats all four changes nothing. */
  lemma MarkFigures(p: Position, item: PortfolioItem, fx: FxQuote)
    ensures var r := MarkRow(p, item, fx);
      && TakesOver(r.mvNative, item.marketValue, p.mvNative) && TakesOver(r.pnlNative, item.unrealizedPnl, p.pnlNative)
      && MarksAt(r.lastPrice, item, p) && CostsAt(r.avgCost, item, p)
      && r.id == p.id && r.previousClose == p.previousClose
      && (r == p <==> SameFigures(p, r))
      && (r != p ==> r.isBrokerMark && !r.isPreviousClose && !r.isDelayed && !r.isStale)
  {
    MarkTakesFigures(p, item, fx);
    MarkPrices(p, item);
  }

  lemma MarkTakesFigures(p: Position, item: PortfolioItem, fx: FxQuote)
    ensures var r := MarkRow(p, item, fx);
      && TakesOver(r.mvNative, item.marketValue, p.mvNative) && TakesOver(r.pnlNative, item.unrealizedPnl, p.pnlNative)
      && r.lastPrice == OrElse(DisplayPrice(item, p.id.priceMagnifier, p.id.quantity), p.lastPrice)
      && r.avgCost == OrElse(AverageCost(item, p.id.priceMagnifier), p.avgCost)
      && r.id == p.id && r.previousClose == p.previousClose
      && (r == p <==> SameFigures(p, r))
      && (r != p ==> r.isBrokerMark && !r.isPreviousClose && !r.isDelayed && !r.isStale)
  {
  }

  lemma MarkPrices(p: Position, item: PortfolioItem)
    ensures MarksAt(OrElse(DisplayPrice(item, p.id.priceMagnifier, p.id.quantity), p.lastPrice), item, p)
    ensures CostsAt(OrElse(AverageCost(item, p.id.priceMagnifier), p.avgCost), item, p)
  {
  }

  lemma MoneyConverts(p: Position, mv: real, pnl: real, fx: FxQuote)
    ensures Converted(WithMoney(p, mv, pnl, fx), fx)
  {
  }

  /** A portfolio event that changes the row converts it anew. */
  lemma MarkConverts(p: Position, item: PortfolioItem, fx: FxQuote)
    requires MarkRow(p, item, fx) != p
    ensures Converted(MarkRow(p, item, fx), fx)
  {
    var last := OrElse(DisplayPrice(item, p.id.priceMagnifier, p.id.quantity), p.lastPrice);
    var cost := OrElse(AverageCost(item, p.id.priceMagnifier), p.avgCost);
    MoneyConverts(p.(avgCost := cost, lastPrice := last, isPreviousClose := false, isBrokerMark := true,
                     isDelayed := false, isStale := false),
                  OrElse(ToFinite(item.marketValue), p.mvNative),
                  OrElse(ToFinite(item.unrealizedPnl), p.pnlNative), fx);
  }

  /** So does a price-changing tick. */
  lemma RevalueConverts(p: Position, price: real, isDelayed: bool, fx: FxQuote)
    requires p.id.priceMagnifier > 0
    ensures Converted(Revalue(p, price, isDelayed, fx), fx)
  {
    MoneyConverts(p.(lastPrice := price, isPreviousClose := false, isBrokerMark := false, isDelayed := isDelayed,
                     isStale := false),
                  p.id.quantity * price / Magnifier(p), (price - p.avgCost) * p.id.quantity / Magnifier(p), fx);
  }

  // What the portfolio cache gives a seed row, where it gives anything.

  function SeedMark(id: Instrument, item: Option<PortfolioItem>): Option<real> {
    if item.Some? then DisplayPrice(item.value, id.priceMagnifier, id.quantity) else None
  }

  function SeedCost(id: Instrument, feedCost: real, item: Option<PortfolioItem>): real {
    OrElse(if item.Some? then AverageCost(item.value, id.priceMagnifier) else None, feedCost)
  }

  /** The feed's cost, unless the cache has a positive average cost. */
  lemma SeedCostIsTheBrokers(id: Instrument, feedCost: real, item: Option<PortfolioItem>)
    ensures if item.Some? && item.value.averageCost.Number? && item.value.averageCost.value > 0.0
            then SeedCost(id, feedCost, item) == item.value.averageCost.value * id.priceMagnifier as real
            else SeedCost(id, feedCost, item) == feedCost
  {
  }

  function SeedValue(quote: real, item: Option<PortfolioItem>): Option<real> {
    if quote <= 0.0 && item.Some? then ToFinite(item.value.marketValue) else None
  }

  function SeedPnl(quote: real, item: Option<PortfolioItem>): Option<real> {
    if quote <= 0.0 && item.Some? then ToFinite(item.value.unrealizedPnl) else None
  }

  /** A price of so many units over the magnifier. */
  function PerUnit(units: real, magnifier: int): (r: real)
    requires magnifier > 0
    ensures r * magnifier as real == units
  {
    units / magnifier as real
  }

  /** The price a seed row shows: the quote; without one the broker's mark; without that the
      previous close. Each sets its own flag and no other. */
  predicate ShowsBestPrice(r: Position, quote: real, quoteDelayed: bool, mark: Option<real>) {
    && (r.isBrokerMark <==> quote <= 0.0 && mark.Some?)
    && (r.isPreviousClose <==> quote <= 0.0 && mark.None? && r.previousClose > 0.0)
    && (r.isDelayed <==> quoteDelayed && !r.isBrokerMark && !r.isPreviousClose)
    && if r.isBrokerMark then Some(r.lastPrice) == mark
       else r.lastPrice == if r.isPreviousClose then r.previousClose else quote
  }

  /** The seed row before it is valued. */
  function BareRow(id: Instrument, cost: real, quote: real, quoteDelayed: bool, previousClose: real,
                   mark: Option<real>): (r: Position)
    ensures r.id == id && r.avgCost == cost && r.previousClose == previousClose && AtMostOneSource(r) && !r.isStale
    ensures ShowsBestPrice(r, quote, quoteDelayed, mark)
  {
    var usesMark := quote <= 0.0 && mark.Some?;
    var usesClose := quote <= 0.0 && mark.None? && previousClose > 0.0;
    var last := if usesMark then mark.value else if usesClose then previousClose else quote;
    Position(id, cost, last, 0.0, 0.0, 0.0, 0.0, false, false, false,
             usesClose, usesMark, quoteDelayed && !usesMark && !usesClose, false, previousClose)
  }

  /** The broker's figure, or the one that follows from the price. */
  function ValueOf(p: Position, broker: Option<real>): (mv: real)
    requires p.id.priceMagnifier > 0
    ensures broker.Some? ==> mv == broker.value
    ensures broker.None? ==> mv * p.id.priceMagnifier as real == p.id.quantity * p.lastPrice
  {
    OrElse(broker, PerUnit(p.id.quantity * p.lastPrice, p.id.priceMagnifier))
  }

  function PnlOf(p: Position, broker: Option<real>): (pnl: real)
    requires p.id.priceMagnifier > 0
    ensures broker.Some? ==> pnl == broker.value
    ensures broker.None? ==> pnl * p.id.priceMagnifier as real == (p.lastPrice - p.avgCost) * p.id.quantity
  {
    OrElse(broker, PerUnit((p.lastPrice - p.avgCost) * p.id.quantity, p.id.priceMagnifier))
  }

  /** _build_position: the seed row from the positions feed, a quote snapshot, the previous
      close and the portfolio cache. Zero stands for no quote and no previous close. Value and
      P&L are the broker's where it is asked and knows them, and follow from the price
      otherwise. */
  function BuildRow(id: Instrument, feedCost: real, quote: real, quoteDelayed: bool, previousClose: real,
                    item: Option<PortfolioItem>, fx: FxQuote): (r: Position)
    requires id.priceMagnifier > 0
    ensures r.id == id && r.previousClose == previousClose && AtMostOneSource(r) && !r.isStale
    ensures ShowsBestPrice(r, quote, quoteDelayed, SeedMark(id, item)) && (quote > 0.0 ==> Frozen(r))
    ensures r.avgCost == SeedCost(id, feedCost, item)
    ensures match SeedValue(quote, item)
            case Some(v) => r.mvNative == v
            case None => r.mvNative * id.priceMagnifier as real == id.quantity * r.lastPrice
    ensures match SeedPnl(quote, item)
            case Some(v) => r.pnlNative == v
            case None => r.pnlNative * id.priceMagnifier as real == (r.lastPrice - r.avgCost) * id.quantity
  {
    var cost := SeedCost(id, feedCost, item);
    var bare := BareRow(id, cost, quote, quoteDelayed, previousClose, SeedMark(id, item));
    WithMoney(bare, ValueOf(bare, SeedValue(quote, item)), PnlOf(bare, SeedPnl(quote, item)), fx)
  }

  lemma SeedConverts(id: Instrument, feedCost: real, quote: real, quoteDelayed: bool, previousClose: real,
                     item: Option<PortfolioItem>, fx: FxQuote)
    requires id.priceMagnifier > 0
    ensures Converted(BuildRow(id, feedCost, quote, quoteDelayed, previousClose, item, fx), fx)
  {
    var cost := SeedCost(id, feedCost, item);
    var bare := BareRow(id, cost, quote, quoteDelayed, previousClose, SeedMark(id, item));
    MoneyConverts(bare, ValueOf(bare, SeedValue(quote, item)), PnlOf(bare, SeedPnl(quote, item)), fx);
  }

  /** A row that takes neither value nor P&L from the broker satisfies both money identities. */
  lemma ValuedIsConsistent(bare: Position, fx: FxQuote)
    requires bare.id.priceMagnifier > 0
    ensures Consistent(WithMoney(bare, ValueOf(bare, None), PnlOf(bare, None), fx))
  {
    FiguresAgree(ValueOf(bare, None), PnlOf(bare, None), Magnifier(bare),
                 bare.id.quantity, bare.lastPrice, bare.avgCost);
  }

  lemma FiguresAgree(mv: real, pnl: real, m: real, quantity: real, last: real, cost: real)
    requires mv * m == quantity * last && pnl * m == (last - cost) * quantity
    ensures (mv - pnl) * m == quantity * cost
  {
    assert (mv - pnl) * m == mv * m - pnl * m;
    assert (last - cost) * quantity == last * quantity - cost * quantity;
  }

  /** So do seed rows, with a quote or without the broker's figures. */
  lemma SeedIsConsistent(id: Instrument, feedCost: real, quote: real, quoteDelayed: bool, previousClose: real,
                         item: Option<PortfolioItem>, fx: FxQuote)
    requires id.priceMagnifier > 0 && SeedValue(quote, item).None? && SeedPnl(quote, item).None?
    ensures Consistent(BuildRow(id, feedCost, quote, quoteDelayed, previousClose, item, fx))
  {
    var bare := BareRow(id, SeedCost(id, feedCost, item), quote, quoteDelayed, previousClose, SeedMark(id, item));
    ValuedIsConsistent(bare, fx);
  }

  // ---- tick sequences -----------------------------------------------------------------

  datatype Tick = Tick(ticker: Ticker, fx: FxQuote)

  /** The row after the first n ticks. */
  function RunTicks(p: Position, ts: seq<Tick>, n: nat): (r: Position)
    requires p.id.priceMagnifier > 0 && n <= |ts|
    ensures r.id == p.id && r.avgCost == p.avgCost && r.previousClose == p.previousClose
  {
    if n == 0 then p else TickRow(RunTicks(p, ts, n - 1), ts[n - 1].ticker, ts[n - 1].fx)
  }

  function Price(t: Tick): real { CoerceLast(t.ticker) }

  /** The price on show before tick i: that of the last usable tick before it, or the seed's. */
  function PriceBefore(seed: real, ts: seq<Tick>, i: nat): real
    requires i <= |ts|
  {
    if i == 0 then seed else if Price(ts[i - 1]) > 0.0 then Price(ts[i - 1]) else PriceBefore(seed, ts, i - 1)
  }

  predicate ChangesPrice(seed: real, ts: seq<Tick>, i: nat)
    requires i < |ts|
  {
    Price(ts[i]) > 0.0 && Price(ts[i]) != PriceBefore(seed, ts, i)
  }

  /** The last of the first n ticks that changed the price. */
  function LastChange(seed: real, ts: seq<Tick>, n: nat): (r: Option<nat>)
    requires n <= |ts|
    ensures r.Some? ==> r.value < n && ChangesPrice(seed, ts, r.value)
    ensures forall i | (if r.Some? then r.value + 1 else 0) <= i < n :: !ChangesPrice(seed, ts, i)
  {
    if n == 0 then None
    else if ChangesPrice(seed, ts, n - 1) then Some(n - 1)
    else LastChange(seed, ts, n - 1)
  }

  lemma RevalueReads(p: Position, q: Position, price: real, isDelayed: bool, fx: FxQuote)
    requires p.id == q.id && p.avgCost == q.avgCost && p.previousClose == q.previousClose && p.id.priceMagnifier > 0
    ensures Revalue(p, price, isDelayed, fx) == Revalue(q, price, isDelayed, fx)
  {
  }

  /** The row after any ticks is the seed revalued at the last price-changing tick, with that
      tick's FX rate: ticks without a usable or a new price leave no trace, and once a tick
      has changed the price the money identities hold whatever the seed was. */
  lemma {:induction false} RowAfterTicks(p: Position, ts: seq<Tick>, n: nat)
    requires p.id.priceMagnifier > 0 && n <= |ts|
    ensures RunTicks(p, ts, n).lastPrice == PriceBefore(p.lastPrice, ts, n)
    ensures match LastChange(p.lastPrice, ts, n)
            case None => RunTicks(p, ts, n) == p
            case Some(k) =>
              RunTicks(p, ts, n) == Revalue(p, Price(ts[k]), ts[k].ticker.isDelayed, ts[k].fx)
              && Consistent(RunTicks(p, ts, n)) && AtMostOneSource(RunTicks(p, ts, n))
  {
    if n > 0 {
      RowAfterTicks(p, ts, n - 1);
      var t := ts[n - 1];
      if ChangesPrice(p.lastPrice, ts, n - 1) {
        RevalueReads(RunTicks(p, ts, n - 1), p, Price(t), t.ticker.isDelayed, t.fx);
      }
    }
  }

  // ---- the two copies -----------------------------------------------------------------

  /** `streaming` is the adapter's copy by contract, `live` the published store. */
  datatype Feed = Feed(streaming: map<string, Position>, live: Rows)

  datatype Event =
    | Ticked(conid: string, tick: Tick)
    | Marked(conid: string, item: PortfolioItem, fx: FxQuote)
    | Reseeded(closes: map<string, real>)
    | GatewayDropped
    | Seeded(conid: string, row: Position, streams: bool)
    | StreamingCleared

  predicate IsContractRow(p: Position, conid: string) {
    p.id.broker == IBKR && p.id.nativeKey == conid && p.id.assetClass == Stk
  }

  ghost function RowKey(live: Rows, conid: string): (r: Option<PositionKey>)
    ensures r.Some? ==> r.value in live && IsContractRow(live[r.value], conid)
    ensures r.None? ==> forall k | k in live :: !IsContractRow(live[k], conid)
  {
    if k :| k in live && IsContractRow(live[k], conid) then Some(k) else None
  }

  function Put(s: Feed, conid: string, p: Position): Feed {
    Feed(if conid in s.streaming then s.streaming[conid := p] else s.streaming, Set(s.live, p))
  }

  predicate Reseeds(p: Position, closes: map<string, real>, conid: string) {
    conid in closes && closes[conid] > 0.0 && closes[conid] != p.previousClose
  }

  /** The streaming contract whose reseeded copy overwrites the row, if any. */
  predicate RowReseeds(s: Feed, closes: map<string, real>, k: PositionKey)
    requires k in s.live
  {
    var conid := s.live[k].id.nativeKey;
    conid in s.streaming && Key(s.streaming[conid]) == k && Reseeds(s.streaming[conid], closes, conid)
  }

  function Reseed(s: Feed, closes: map<string, real>): Feed {
    Feed(map c | c in s.streaming ::
           if Reseeds(s.streaming[c], closes, c) then s.streaming[c].(previousClose := closes[c]) else s.streaming[c],
         map k | k in s.live ::
           if RowReseeds(s, closes, k)
           then s.streaming[s.live[k].id.nativeKey].(previousClose := closes[s.live[k].id.nativeKey])
           else s.live[k])
  }

  function Seed(s: Feed, conid: string, p: Position, streams: bool): Feed {
    Feed(if streams then s.streaming[conid := p] else s.streaming, Set(s.live, p))
  }

  /** A row can be seeded: it is a new contract of the session, and any row the store has for
      the contract is the one at its key. */
  predicate Seedable(s: Feed, conid: string, p: Position) {
    && IsContractRow(p, conid) && p.id.priceMagnifier > 0 && !p.isStale && AtMostOneSource(p)
    && conid !in s.streaming
    && (Key(p) in s.live ==> IsContractRow(s.live[Key(p)], conid))
    && (forall k | k in s.live && IsContractRow(s.live[k], conid) :: k == Key(p))
  }

  ghost function Step(s: Feed, e: Event): Feed
    requires Inv(s)
  {
    match e
    case Ticked(conid, tick) =>
      if conid !in s.streaming || TickRow(s.streaming[conid], tick.ticker, tick.fx) == s.streaming[conid] then s
      else Put(s, conid, TickRow(s.streaming[conid], tick.ticker, tick.fx))
    case Marked(conid, item, fx) =>
      (match RowKey(s.live, conid)
       case None => s
       case Some(k) =>
         if (conid in s.streaming && Frozen(s.live[k])) || MarkRow(s.live[k], item, fx) == s.live[k] then s
         else Put(s, conid, MarkRow(s.live[k], item, fx)))
    case Reseeded(closes) => Reseed(s, closes)
    case GatewayDropped => s.(live := MarkStale(s.live))
    case Seeded(conid, row, streams) => if Seedable(s, conid, row) then Seed(s, conid, row, streams) else s
    case StreamingCleared => s.(streaming := map[])
  }

  /** Rows sit under their own key, one row a contract (each conId is held in one account
      under its own symbol), and no IBKR row claims two price sources. */
  ghost predicate StoreOk(live: Rows) {
    && Keyed(live)
    && (forall j, k | j in live && k in live && IsContractRow(live[j], live[j].id.nativeKey)
                      && IsContractRow(live[k], live[j].id.nativeKey) :: j == k)
    && (forall k | k in live && live[k].id.broker == IBKR :: AtMostOneSource(live[k]))
  }

  /** The copy of a streaming contract is its published row, up to the stale flag. */
  ghost predicate Agree(s: Feed, conid: string)
    requires conid in s.streaming
  {
    var p := s.streaming[conid];
    && IsContractRow(p, conid) && p.id.priceMagnifier > 0 && !p.isStale
    && Key(p) in s.live && Unmark(s.live[Key(p)]) == p
  }

  ghost predicate Inv(s: Feed) {
    StoreOk(s.live) && forall conid | conid in s.streaming :: Agree(s, conid)
  }

  lemma AgreedRow(s: Feed, conid: string)
    requires Inv(s) && conid in s.streaming
    ensures RowKey(s.live, conid) == Some(Key(s.streaming[conid]))
    ensures s.live[Key(s.streaming[conid])].id == s.streaming[conid].id
  {
    var k := Key(s.streaming[conid]);
    assert Unmark(s.live[k]).id == s.streaming[conid].id;
    assert IsContractRow(s.live[k], conid);
  }

  /** Rewriting rows in place, identities unchanged, keeps the store's shape. */
  lemma StoreOkReadsIds(before: Rows, after: Rows)
    requires StoreOk(before) && after.Keys == before.Keys
    requires forall k | k in before :: after[k].id == before[k].id
    requires forall k | k in before :: AtMostOneSource(before[k]) ==> AtMostOneSource(after[k])
    ensures StoreOk(after)
  {
    assert forall k | k in before :: Key(after[k]) == Key(before[k]);
    assert forall k, conid | k in before :: IsContractRow(after[k], conid) == IsContractRow(before[k], conid);
  }

  /** Writing one contract's row, with its identity unchanged, keeps everything. */
  lemma PutKeepsInv(s: Feed, conid: string, k: PositionKey, p: Position)
    requires Inv(s) && k in s.live && IsContractRow(s.live[k], conid)
    requires p.id == s.live[k].id && AtMostOneSource(p) && !p.isStale
    ensures Inv(Put(s, conid, p))
  {
    var t := Put(s, conid, p);
    assert Key(p) == Key(s.live[k]) == k;
    StoreOkReadsIds(s.live, t.live);
    forall c | c in t.streaming ensures Agree(t, c) {
      PutAgrees(s, conid, k, p, c);
    }
  }

  lemma PutAgrees(s: Feed, conid: string, k: PositionKey, p: Position, c: string)
    requires Inv(s) && k in s.live && IsContractRow(s.live[k], conid) && Key(p) == k
    requires p.id == s.live[k].id && AtMostOneSource(p) && !p.isStale && c in s.streaming
    ensures Agree(Put(s, conid, p), c)
  {
    assert Agree(s, c);
    AgreedRow(s, c);
    if c == conid {
      assert Key(s.streaming[c]) == k;
    } else {
      assert Key(s.streaming[c]) != k;
    }
  }

  /** Seeding establishes the agreement, contract by contract. */
  lemma SeedKeepsInv(s: Feed, conid: string, p: Position, streams: bool)
    requires Inv(s) && Seedable(s, conid, p)
    ensures Inv(Seed(s, conid, p, streams))
    ensures var t := Seed(s, conid, p, streams);
      Key(p) in t.live && t.live[Key(p)] == p && (conid in t.streaming <==> streams)
  {
    var t := Seed(s, conid, p, streams);
    SeededStoreOk(s, conid, p);
    forall c | c in t.streaming ensures Agree(t, c) {
      if c == conid {
        assert t.live[Key(p)] == p;
      } else {
        assert Agree(s, c);
        AgreedRow(s, c);
        assert Key(s.streaming[c]) != Key(p);
      }
    }
  }

  lemma SeededStoreOk(s: Feed, conid: string, p: Position)
    requires Inv(s) && Seedable(s, conid, p)
    ensures StoreOk(Set(s.live, p))
  {
    var t := Set(s.live, p);
    forall k | k in t ensures k == Key(p) || (k in s.live && t[k] == s.live[k] && !IsContractRow(s.live[k], conid)) {
    }
  }

  lemma ReseedAgrees(s: Feed, closes: map<string, real>, c: string)
    requires Inv(s) && c in s.streaming
    ensures Agree(Reseed(s, closes), c)
  {
    assert Agree(s, c);
    AgreedRow(s, c);
    var k := Key(s.streaming[c]);
    assert s.live[k].id.nativeKey == c;
    assert RowReseeds(s, closes, k) <==> Reseeds(s.streaming[c], closes, c);
  }

  lemma ReseedKeepsInv(s: Feed, closes: map<string, real>)
    requires Inv(s)
    ensures Inv(Reseed(s, closes))
  {
    var t := Reseed(s, closes);
    forall k | k in s.live
      ensures t.live[k].id == s.live[k].id && (AtMostOneSource(s.live[k]) ==> AtMostOneSource(t.live[k]))
    {
      if RowReseeds(s, closes, k) {
        assert Agree(s, s.live[k].id.nativeKey);
        AgreedRow(s, s.live[k].id.nativeKey);
      }
    }
    StoreOkReadsIds(s.live, t.live);
    forall c | c in t.streaming ensures Agree(t, c) {
      ReseedAgrees(s, closes, c);
    }
  }

  lemma TickKeepsInv(s: Feed, conid: string, tick: Tick)
    requires Inv(s)
    ensures Inv(Step(s, Ticked(conid, tick)))
  {
    if conid in s.streaming {
      assert Agree(s, conid);
      AgreedRow(s, conid);
      var p := TickRow(s.streaming[conid], tick.ticker, tick.fx);
      if p != s.streaming[conid] {
        PutKeepsInv(s, conid, Key(s.streaming[conid]), p);
      }
    }
  }

  lemma MarkKeepsInv(s: Feed, conid: string, item: PortfolioItem, fx: FxQuote)
    requires Inv(s)
    ensures Inv(Step(s, Marked(conid, item, fx)))
  {
    var k := RowKey(s.live, conid);
    if k.Some? {
      var p := MarkRow(s.live[k.value], item, fx);
      if p != s.live[k.value] {
        PutKeepsInv(s, conid, k.value, p);
      }
    }
  }

  lemma DropKeepsInv(s: Feed)
    requires Inv(s)
    ensures Inv(s.(live := MarkStale(s.live)))
  {
    StoreOkReadsIds(s.live, MarkStale(s.live));
    forall c | c in s.streaming ensures Agree(s.(live := MarkStale(s.live)), c) {
      assert Agree(s, c);
    }
  }

  lemma StepKeepsInv(s: Feed, e: Event)
    requires Inv(s)
    ensures Inv(Step(s, e))
  {
    match e
    case Ticked(conid, tick) => TickKeepsInv(s, conid, tick);
    case Marked(conid, item, fx) => MarkKeepsInv(s, conid, item, fx);
    case Reseeded(closes) => ReseedKeepsInv(s, closes);
    case GatewayDropped => DropKeepsInv(s);
    case Seeded(conid, row, streams) => if Seedable(s, conid, row) { SeedKeepsInv(s, conid, row, streams); }
    case StreamingCleared =>
  }

  // ---- whole runs ---------------------------------------------------------------------

  ghost function Exec(s: Feed, es: seq<Event>): Feed
    requires Inv(s)
    decreases |es|
  {
    if es == [] then s else StepKeepsInv(s, es[0]); Exec(Step(s, es[0]), es[1..])
  }

  lemma {:induction false} RunKeepsInv(s: Feed, es: seq<Event>)
    requires Inv(s)
    ensures Inv(Exec(s, es))
    decreases |es|
  {
    if es != [] {
      StepKeepsInv(s, es[0]);
      RunKeepsInv(Step(s, es[0]), es[1..]);
    }
  }

  /** Agreement over every run, through any number of streaming sessions: each copy equals its
      published row up to the stale flag, the copy is never stale, and no IBKR row ever claims
      two price sources. Within a session no contract is dropped or changes its identity. */
  lemma RunKeepsAgreement(s: Feed, es: seq<Event>)
    requires Inv(s)
    ensures var t := Exec(s, es);
      && (forall c | c in t.streaming ::
            var p := t.streaming[c];
            Key(p) in t.live && !p.isStale && t.live[Key(p)].(isStale := false) == p)
      && (forall k | k in t.live && t.live[k].id.broker == IBKR :: AtMostOneSource(t.live[k]))
      && (StreamingCleared !in es ==>
            forall c | c in s.streaming :: c in t.streaming && t.streaming[c].id == s.streaming[c].id)
  {
    RunKeepsInv(s, es);
    var t := Exec(s, es);
    forall c | c in t.streaming ensures Agree(t, c) {
    }
    if StreamingCleared !in es {
      SessionKeepsIdentity(s, es);
    }
  }

  lemma {:induction false} SessionKeepsIdentity(s: Feed, es: seq<Event>)
    requires Inv(s) && StreamingCleared !in es
    ensures var t := Exec(s, es);
      forall c | c in s.streaming :: c in t.streaming && t.streaming[c].id == s.streaming[c].id
    decreases |es|
  {
    if es != [] {
      assert es[0] in es && StreamingCleared !in es[1..];
      StepKeepsInv(s, es[0]);
      StepKeepsIdentity(s, es[0]);
      SessionKeepsIdentity(Step(s, es[0]), es[1..]);
    }
  }

  lemma StepKeepsIdentity(s: Feed, e: Event)
    requires Inv(s) && !e.StreamingCleared?
    ensures forall c | c in s.streaming :: c in Step(s, e).streaming && Step(s, e).streaming[c].id == s.streaming[c].id
  {
    forall c | c in s.streaming ensures c in Step(s, e).streaming && Step(s, e).streaming[c].id == s.streaming[c].id {
      StepKeepsIdOf(s, e, c);
    }
  }

  lemma StepKeepsIdOf(s: Feed, e: Event, c: string)
    requires Inv(s) && c in s.streaming && !e.StreamingCleared?
    ensures c in Step(s, e).streaming && Step(s, e).streaming[c].id == s.streaming[c].id
  {
    if e.Marked? && e.conid == c {
      assert Agree(s, c);
      AgreedRow(s, c);
      var k := Key(s.streaming[c]);
      assert MarkRow(s.live[k], e.item, e.fx).id == s.live[k].id;
    }
  }

  datatype Copies = Copies(stream: Position, shown: Position)

  ghost function CopiesOf(s: Feed, conid: string): Copies
    requires Inv(s) && conid in s.streaming
  {
    assert Agree(s, conid);
    Copies(s.streaming[conid], s.live[Key(s.streaming[conid])])
  }

  /** What one event does to one streaming contract, which sees nothing but its two copies. */
  function RowStep(r: Copies, e: Event, conid: string): Copies
    requires r.stream.id.priceMagnifier > 0
  {
    match e
    case Ticked(c, tick) =>
      var p := TickRow(r.stream, tick.ticker, tick.fx);
      if c != conid || p == r.stream then r else Copies(p, p)
    case Marked(c, item, fx) =>
      var p := MarkRow(r.shown, item, fx);
      if c != conid || Frozen(r.shown) || p == r.shown then r else Copies(p, p)
    case Reseeded(closes) =>
      if !Reseeds(r.stream, closes, conid) then r
      else var p := r.stream.(previousClose := closes[conid]); Copies(p, p)
    case GatewayDropped => Copies(r.stream, Stale(r.shown))
    case _ => r
  }

  lemma OtherKeysDiffer(s: Feed, c: string, conid: string, k: PositionKey)
    requires Inv(s) && conid in s.streaming && k in s.live && IsContractRow(s.live[k], c) && c != conid
    ensures Key(s.streaming[conid]) != k
  {
    assert Agree(s, conid);
    AgreedRow(s, conid);
  }

  lemma PutProjects(s: Feed, c: string, k: PositionKey, p: Position, conid: string)
    requires Inv(s) && conid in s.streaming && k in s.live && IsContractRow(s.live[k], c)
    requires p.id == s.live[k].id && Inv(Put(s, c, p))
    ensures CopiesOf(Put(s, c, p), conid) == if c == conid then Copies(p, p) else CopiesOf(s, conid)
  {
    assert Key(p) == Key(s.live[k]) == k;
    if c != conid {
      OtherKeysDiffer(s, c, conid, k);
    }
  }

  lemma StepProjects(s: Feed, e: Event, conid: string)
    requires Inv(s) && conid in s.streaming && Inv(Step(s, e)) && conid in Step(s, e).streaming
    requires !e.StreamingCleared?
    ensures Agree(s, conid)
    ensures CopiesOf(Step(s, e), conid) == RowStep(CopiesOf(s, conid), e, conid)
  {
    assert Agree(s, conid);
    AgreedRow(s, conid);
    match e
    case Ticked(c, tick) => TickProjects(s, c, tick, conid);
    case Marked(c, item, fx) => MarkProjects(s, c, item, fx, conid);
    case Reseeded(closes) =>
      var k := Key(s.streaming[conid]);
      assert RowReseeds(s, closes, k) <==> Reseeds(s.streaming[conid], closes, conid);
    case GatewayDropped =>
    case Seeded(c, row, streams) => SeedProjects(s, c, row, streams, conid);
  }

  lemma TickProjects(s: Feed, c: string, tick: Tick, conid: string)
    requires Inv(s) && conid in s.streaming && Inv(Step(s, Ticked(c, tick)))
    requires conid in Step(s, Ticked(c, tick)).streaming && Agree(s, conid)
    ensures CopiesOf(Step(s, Ticked(c, tick)), conid) == RowStep(CopiesOf(s, conid), Ticked(c, tick), conid)
  {
    if c in s.streaming {
      assert Agree(s, c);
      AgreedRow(s, c);
      var p := TickRow(s.streaming[c], tick.ticker, tick.fx);
      if p != s.streaming[c] {
        PutProjects(s, c, Key(s.streaming[c]), p, conid);
      }
    }
  }

  lemma SeedProjects(s: Feed, c: string, row: Position, streams: bool, conid: string)
    requires Inv(s) && conid in s.streaming && Inv(Step(s, Seeded(c, row, streams)))
    requires conid in Step(s, Seeded(c, row, streams)).streaming && Agree(s, conid)
    ensures CopiesOf(Step(s, Seeded(c, row, streams)), conid) == CopiesOf(s, conid)
  {
    if Seedable(s, c, row) {
      SeedElsewhere(s, c, row, conid);
      SeedLeavesOthers(s, c, row, streams, conid);
    }
  }

  lemma SeedLeavesOthers(s: Feed, c: string, row: Position, streams: bool, conid: string)
    requires conid in s.streaming && c != conid
    requires Key(s.streaming[conid]) != Key(row) && Key(s.streaming[conid]) in s.live
    ensures var t := Seed(s, c, row, streams); var k := Key(s.streaming[conid]);
      conid in t.streaming && t.streaming[conid] == s.streaming[conid] && k in t.live && t.live[k] == s.live[k]
  {
  }

  lemma SeedElsewhere(s: Feed, c: string, row: Position, conid: string)
    requires Inv(s) && conid in s.streaming && Seedable(s, c, row)
    ensures c != conid && Key(s.streaming[conid]) != Key(row)
  {
    assert Agree(s, conid);
    AgreedRow(s, conid);
    if Key(row) in s.live {
      OtherKeysDiffer(s, c, conid, Key(row));
    }
  }

  lemma MarkProjects(s: Feed, c: string, item: PortfolioItem, fx: FxQuote, conid: string)
    requires Inv(s) && conid in s.streaming && Inv(Step(s, Marked(c, item, fx)))
    requires conid in Step(s, Marked(c, item, fx)).streaming && Agree(s, conid)
    ensures CopiesOf(Step(s, Marked(c, item, fx)), conid) == RowStep(CopiesOf(s, conid), Marked(c, item, fx), conid)
  {
    AgreedRow(s, conid);
    if c == conid {
      OwnMarkProjects(s, item, fx, conid);
    } else if RowKey(s.live, c).Some? {
      OtherMarkProjects(s, c, RowKey(s.live, c).value, item, fx, conid);
    }
  }

  lemma OwnMarkProjects(s: Feed, item: PortfolioItem, fx: FxQuote, conid: string)
    requires Inv(s) && conid in s.streaming && RowKey(s.live, conid) == Some(Key(s.streaming[conid])) && Agree(s, conid)
    requires Inv(Step(s, Marked(conid, item, fx))) && conid in Step(s, Marked(conid, item, fx)).streaming
    ensures CopiesOf(Step(s, Marked(conid, item, fx)), conid)
         == RowStep(CopiesOf(s, conid), Marked(conid, item, fx), conid)
  {
    var k := Key(s.streaming[conid]);
    var p := MarkRow(s.live[k], item, fx);
    if !Frozen(s.live[k]) && p != s.live[k] {
      PutProjects(s, conid, k, p, conid);
    }
  }

  lemma OtherMarkProjects(s: Feed, c: string, k: PositionKey, item: PortfolioItem, fx: FxQuote, conid: string)
    requires Inv(s) && conid in s.streaming && c != conid && RowKey(s.live, c) == Some(k)
    requires Inv(Step(s, Marked(c, item, fx))) && conid in Step(s, Marked(c, item, fx)).streaming
    ensures CopiesOf(Step(s, Marked(c, item, fx)), conid) == CopiesOf(s, conid)
  {
    var p := MarkRow(s.live[k], item, fx);
    if Step(s, Marked(c, item, fx)) != s {
      PutProjects(s, c, k, p, conid);
    }
  }

  /** A usable tick of a streaming contract at a new price shows in both its copies: its own
      price, the money figures at it, and neither a mark nor a previous close any more. */
  lemma TickShows(s: Feed, conid: string, tick: Tick)
    requires Inv(s) && conid in s.streaming
    requires CoerceLast(tick.ticker) > 0.0 && CoerceLast(tick.ticker) != s.streaming[conid].lastPrice
    ensures var t := Step(s, Ticked(conid, tick));
      && Inv(t) && conid in t.streaming
      && var p := t.streaming[conid];
         && CopiesOf(t, conid) == Copies(p, p) && p.lastPrice == CoerceLast(tick.ticker)
         && Consistent(p) && Converted(p, tick.fx) && p.isDelayed == tick.ticker.isDelayed
         && !p.isPreviousClose && !p.isBrokerMark && !p.isStale
         && p.id == s.streaming[conid].id && p.avgCost == s.streaming[conid].avgCost
  {
    var e := Ticked(conid, tick);
    StepKeepsInv(s, e);
    StepKeepsIdentity(s, e);
    assert Agree(s, conid);
    StepProjects(s, e, conid);
    RevalueConverts(s.streaming[conid], CoerceLast(tick.ticker), tick.ticker.isDelayed, tick.fx);
  }

  /** A portfolio event reaches the contract's published row, and its stream copy if there is
      one, unless the row shows a positive price that is not a mark and is streaming. */
  lemma MarkShows(s: Feed, conid: string, k: PositionKey, item: PortfolioItem, fx: FxQuote)
    requires Inv(s) && RowKey(s.live, conid) == Some(k)
    ensures var t := Step(s, Marked(conid, item, fx));
      && k in t.live
      && t.live[k] == (if conid in s.streaming && Frozen(s.live[k]) then s.live[k] else MarkRow(s.live[k], item, fx))
      && (conid in s.streaming && t.live[k] != s.live[k] ==> conid in t.streaming && t.streaming[conid] == t.live[k])
  {
    assert Key(s.live[k]) == k;
  }

  /** A reseed sets the previous close of both copies to a new positive close and leaves every
      other figure of them. */
  lemma ReseedShows(s: Feed, closes: map<string, real>, conid: string)
    requires Inv(s) && conid in s.streaming
    ensures var t := Step(s, Reseeded(closes));
      && Inv(t) && conid in t.streaming
      && var p := s.streaming[conid];
         if conid in closes && closes[conid] > 0.0 && closes[conid] != p.previousClose
         then CopiesOf(t, conid) == Copies(p.(previousClose := closes[conid]), p.(previousClose := closes[conid]))
         else CopiesOf(t, conid) == CopiesOf(s, conid)
  {
    StepKeepsInv(s, Reseeded(closes));
    StepKeepsIdentity(s, Reseeded(closes));
    StepProjects(s, Reseeded(closes), conid);
  }

  /** A gateway drop marks every published row but cash, and no stream copy. */
  lemma DropShows(s: Feed, k: PositionKey)
    requires Inv(s) && k in s.live
    ensures var t := Step(s, GatewayDropped);
      && t.streaming == s.streaming && t.live.Keys == s.live.Keys
      && t.live[k] == if s.live[k].id.assetClass == Cash then s.live[k] else s.live[k].(isStale := true)
  {
  }

  function WithoutMarks(es: seq<Event>, conid: string): seq<Event> {
    if es == [] then []
    else if es[0].Marked? && es[0].conid == conid then WithoutMarks(es[1..], conid)
    else [es[0]] + WithoutMarks(es[1..], conid)
  }

  lemma FrozenStays(r: Copies, e: Event, conid: string)
    requires r.stream.id.priceMagnifier > 0 && Frozen(r.stream) && Unmark(r.shown) == r.stream
    ensures Frozen(RowStep(r, e, conid).stream)
    ensures e.Marked? ==> RowStep(r, e, conid) == r
  {
  }

  /** No portfolio event of the contract changes anything of it. */
  ghost predicate IgnoresMarks(r: Copies, conid: string)
    requires r.stream.id.priceMagnifier > 0
  {
    forall item, fx :: RowStep(r, Marked(conid, item, fx), conid) == r
  }

  /** Unless the row is frozen some portfolio event changes it: one that reports another P&L. */
  lemma OnlyFrozenIgnoresMarks(r: Copies, conid: string)
    requires r.stream.id.priceMagnifier > 0 && Unmark(r.shown) == r.stream
    ensures IgnoresMarks(r, conid) <==> Frozen(r.stream)
  {
    if !Frozen(r.stream) {
      var item := PortfolioItem(Missing, Missing, Missing, Number(r.shown.pnlNative + 1.0));
      assert MarkRow(r.shown, item, Unavailable).pnlNative == r.shown.pnlNative + 1.0;
      assert RowStep(r, Marked(conid, item, Unavailable), conid) != r;
    }
  }

  /** After a usable tick no portfolio event changes the row, unless, exactly, the tick repeats
      the price of a broker mark. */
  lemma TickFreezes(r: Copies, conid: string, tick: Tick)
    requires r.stream.id.priceMagnifier > 0 && Unmark(r.shown) == r.stream && CoerceLast(tick.ticker) > 0.0
    ensures IgnoresMarks(RowStep(r, Ticked(conid, tick), conid), conid)
       <==> !(r.stream.isBrokerMark && CoerceLast(tick.ticker) == r.stream.lastPrice)
  {
    OnlyFrozenIgnoresMarks(RowStep(r, Ticked(conid, tick), conid), conid);
  }

  /** A broker mark at 10, a live tick at 10, and a later mark at 9: the row shows 9. */
  lemma TickedRowTakesLaterMark()
    ensures var id := Instrument(IBKR, "U1", "1", "700.HK", "SEHK", "USD", "Tencent", Stk, 1.0, 1);
      var p := Position(id, 8.0, 10.0, 10.0, 10.0, 2.0, 2.0, false, false, false, false, true, false, false, 0.0);
      var tick := Tick(Ticker(Number(10.0), Missing, Missing, false), Unavailable);
      var item := PortfolioItem(Number(9.0), Missing, Number(9.0), Number(1.0));
      var ticked := RowStep(Copies(p, p), Ticked("1", tick), "1");
      var marked := RowStep(ticked, Marked("1", item, Unavailable), "1");
      CoerceLast(tick.ticker) == 10.0 && ticked == Copies(p, p)
      && marked.shown.lastPrice == 9.0 && marked.stream.lastPrice == 9.0
  {
  }

  /** Once a streaming row shows a positive price that is not a broker mark, portfolio events
      are irrelevant to it for the rest of the session: any run leaves both its copies as the
      run without them does. */
  lemma {:induction false} MarksNeverOverrideTicks(s: Feed, u: Feed, es: seq<Event>, conid: string)
    requires StreamingCleared !in es
    requires Inv(s) && Inv(u) && conid in s.streaming && conid in u.streaming
    requires CopiesOf(s, conid) == CopiesOf(u, conid) && Frozen(s.streaming[conid])
    ensures var t, v := Exec(s, es), Exec(u, WithoutMarks(es, conid));
      conid in t.streaming && conid in v.streaming && Inv(t) && Inv(v)
      && CopiesOf(t, conid) == CopiesOf(v, conid) && Frozen(t.streaming[conid])
    decreases |es|
  {
    if es != [] {
      var e := es[0];
      assert e in es && StreamingCleared !in es[1..];
      assert Agree(s, conid);
      StepKeepsInv(s, e);
      StepKeepsIdentity(s, e);
      StepProjects(s, e, conid);
      FrozenStays(CopiesOf(s, conid), e, conid);
      if e.Marked? && e.conid == conid {
        MarksNeverOverrideTicks(Step(s, e), u, es[1..], conid);
      } else {
        StepKeepsInv(u, e);
        StepKeepsIdentity(u, e);
        StepProjects(u, e, conid);
        MarksNeverOverrideTicks(Step(s, e), Step(u, e), es[1..], conid);
        assert ([e] + WithoutMarks(es[1..], conid))[1..] == WithoutMarks(es[1..], conid);
      }
    }
  }

  /** The reseed once the contracts in `done` are handled. */
  function ReseedSome(s: Feed, closes: map<string, real>, done: set<string>): Feed {
    var t := Reseed(s, closes);
    Feed(map c | c in s.streaming :: if c in done then t.streaming[c] else s.streaming[c],
         map k | k in s.live :: if s.live[k].id.nativeKey in done then t.live[k] else s.live[k])
  }

  predicate OwnsRow(s: Feed, c: string) {
    c in s.streaming && Key(s.streaming[c]) in s.live && s.live[Key(s.streaming[c])].id.nativeKey == c
  }

  lemma ReseedNext(s: Feed, closes: map<string, real>, done: set<string>, c: string)
    requires OwnsRow(s, c) && c !in done
    ensures ReseedSome(s, closes, done + {c})
         == if Reseeds(s.streaming[c], closes, c)
            then Put(ReseedSome(s, closes, done), c, s.streaming[c].(previousClose := closes[c]))
            else ReseedSome(s, closes, done)
  {
    var now := ReseedSome(s, closes, done);
    var next := ReseedSome(s, closes, done + {c});
    var key := Key(s.streaming[c]);
    forall k | k in s.live && k != key ensures next.live[k] == now.live[k] {
      assert s.live[k].id.nativeKey == c ==> !RowReseeds(s, closes, k);
    }
    assert RowReseeds(s, closes, key) <==> Reseeds(s.streaming[c], closes, c);
    if Reseeds(s.streaming[c], closes, c) {
      var updated := s.streaming[c].(previousClose := closes[c]);
      assert next.streaming == now.streaming[c := updated];
      assert next.live == now.live[key := updated];
    } else {
      assert next.streaming == now.streaming;
      assert next.live == now.live;
    }
  }

  // ---- the adapter's callbacks --------------------------------------------------------

  /** The adapter's _streaming copies beside the store it publishes to. */
  class Streams {
    var streaming: map<string, Position>
    const live: LivePositions

    ghost function State(): Feed
      reads this, live
    {
      Feed(streaming, live.positions)
    }

    constructor (live: LivePositions)
      ensures this.live == live && streaming == map[]
    {
      this.live := live;
      streaming := map[];
    }

    /** One row of _start_streaming; `streams` is false for the venues without permission. */
    method SeedRow(conid: string, p: Position, streams: bool)
      requires Inv(State()) && Seedable(State(), conid, p)
      modifies this, live
      ensures State() == Step(old(State()), Seeded(conid, p, streams)) && Inv(State())
    {
      SeedKeepsInv(State(), conid, p, streams);
      live.SetPosition(p);
      if streams {
        streaming := streaming[conid := p];
      }
    }

    /** _streaming.clear(), on a reconnect and in _stop_streaming. */
    method ClearStreaming()
      requires Inv(State())
      modifies this
      ensures State() == Step(old(State()), StreamingCleared) && Inv(State())
      ensures streaming == map[] && live.positions == old(live.positions)
    {
      streaming := map[];
    }

    /** _on_ticker_update */
    method OnTicker(conid: string, tick: Tick)
      requires Inv(State())
      modifies this, live
      ensures State() == Step(old(State()), Ticked(conid, tick)) && Inv(State())
    {
      TickKeepsInv(State(), conid, tick);
      if conid !in streaming {
        return;
      }
      assert Agree(State(), conid);
      var row := streaming[conid];
      var price := CoerceLast(tick.ticker);
      if price <= 0.0 || price == row.lastPrice {
        return;
      }
      var updated := Revalue(row, price, tick.ticker.isDelayed, tick.fx);
      streaming := streaming[conid := updated];
      live.SetPosition(updated);
    }

    /** _on_portfolio_update */
    method OnPortfolio(conid: string, item: PortfolioItem, fx: FxQuote)
      requires Inv(State())
      modifies this, live
      ensures State() == Step(old(State()), Marked(conid, item, fx)) && Inv(State())
    {
      MarkKeepsInv(State(), conid, item, fx);
      if k :| k in live.positions && IsContractRow(live.positions[k], conid) {
        assert RowKey(live.positions, conid) == Some(k);
        var row := live.positions[k];
        if conid in streaming && !row.isBrokerMark && row.lastPrice > 0.0 {
          return;
        }
        var updated := MarkRow(row, item, fx);
        if updated == row {
          return;
        }
        if conid in streaming {
          streaming := streaming[conid := updated];
        }
        live.SetPosition(updated);
      }
    }

    /** _reseed_streaming_previous_closes, after its fetch: one write for each changed close. */
    method ReseedCloses(closes: map<string, real>)
      requires Inv(State())
      modifies this, live
      ensures State() == Step(old(State()), Reseeded(closes)) && Inv(State())
    {
      ghost var s := State();
      ReseedKeepsInv(s, closes);
      forall c | c in s.streaming ensures OwnsRow(s, c) {
        assert Agree(s, c);
        AgreedRow(s, c);
      }
      WriteCloses(closes);
    }

    method WriteCloses(closes: map<string, real>)
      requires forall c | c in streaming :: OwnsRow(State(), c)
      modifies this, live
      ensures State() == Reseed(old(State()), closes)
    {
      ghost var s := State();
      ReseedAll(s, closes);
      var todo := streaming.Keys;
      ghost var done: set<string> := {};
      while todo != {}
        invariant todo + done == s.streaming.Keys && todo !! done
        invariant State() == ReseedSome(s, closes, done)
      {
        var c :| c in todo;
        ReseedNext(s, closes, done, c);
        todo, done := todo - {c}, done + {c};
        ReseedOne(c, closes);
      }
      assert done == s.streaming.Keys;
    }

    method ReseedOne(c: string, closes: map<string, real>)
      requires c in streaming
      modifies this, live
      ensures State() == if Reseeds(old(streaming)[c], closes, c)
                         then Put(old(State()), c, old(streaming)[c].(previousClose := closes[c])) else old(State())
    {
      var row := streaming[c];
      if c in closes && closes[c] > 0.0 && closes[c] != row.previousClose {
        var updated := row.(previousClose := closes[c]);
        streaming := streaming[c := updated];
        live.SetPosition(updated);
      }
    }
  }

  lemma ReseedAll(s: Feed, closes: map<string, real>)
    ensures ReseedSome(s, closes, s.streaming.Keys) == Reseed(s, closes)
    ensures ReseedSome(s, closes, {}) == s
  {
    var t := ReseedSome(s, closes, s.streaming.Keys);
    assert t.streaming == Reseed(s, closes).streaming;
    forall k | k in s.live ensures t.live[k] == Reseed(s, closes).live[k] {
    }
    assert t.live == Reseed(s, closes).live;
    assert ReseedSome(s, closes, {}).streaming == s.streaming;
    assert ReseedSome(s, closes, {}).live == s.live;
  }
}
