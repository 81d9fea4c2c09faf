/**
 FxService (app/core/fx.py): the two-source rate cache with inversion and restarts through
 fx_cache, and the choice made on every read. Instants are microseconds since the Unix epoch.
 */
module Fx {
  import opened Broker

  type Currency = string

  const SUPPORTED: set<Currency> :=
    {"HKD", "JPY", "KRW", "TWD", "CNH", "AUD", "GBP", "EUR", "SGD", "CHF", "CAD", "SEK"}
  const DIRECT_USD_TERMS: set<Currency> := {"AUD", "EUR", "GBP"}
  const IB_UNSUPPORTED: set<Currency> := {"TWD"}

  const SECOND := 1_000_000
  const HOUR := 3600 * SECOND
  const DAY := 24 * HOUR
  const WEEK := 7 * DAY
  const STALE_AFTER := 60 * SECOND

  datatype Source = Ib | ApiFallback

  datatype Rate = Rate(pair: string, rate: real, quotedAt: int, isStale: bool, source: Source)

  function PairFor(c: Currency): string { c + "USD" }

  /** The pair subscribed at IB: USD-base except for the direct terms. */
  function IbPairFor(c: Currency): string {
    if c in DIRECT_USD_TERMS then PairFor(c) else "USD" + c
  }

  /** _contract_quotes_usd_base: whether the contract's price is native units per USD. */
  predicate QuotesUsdBase(c: Currency, pair: string) {
    pair == "USD" + c
  }

  /** Market convention: a pair has USD first except for AUD, EUR and GBP, and only a price with
      USD first is inverted. */
  lemma PairsFollowConvention(c: Currency)
    requires c in SUPPORTED
    ensures QuotesUsdBase(c, IbPairFor(c)) <==> c !in {"AUD", "EUR", "GBP"}
    ensures IbPairFor(c) == if c in {"AUD", "EUR", "GBP"} then c + "USD" else "USD" + c
  {
    if c in {"AUD", "EUR", "GBP"} {
      assert (c + "USD")[0] != ("USD" + c)[0];
    }
  }

  // ---- the trading week ---------------------------------------------------------------

  /** Monday is 0; the epoch was a Thursday. */
  function Weekday(t: int): int { (t / DAY + 3) % 7 }

  function HourOf(t: int): int { t % DAY / HOUR }

  /** is_fx_market_open */
  predicate MarketOpen(t: int) {
    if Weekday(t) == 5 then false
    else if Weekday(t) == 6 then HourOf(t) >= 22
    else if Weekday(t) == 4 then HourOf(t) < 22
    else true
  }

  /** Sunday 4 January 1970, 22:00 UTC. */
  const SUNDAY_OPEN := 3 * DAY + 22 * HOUR

  /** The weekday test is one interval of the week: the five days from Sunday 22:00. */
  lemma MarketOpenIsFiveDaysFromSunday(t: int)
    ensures MarketOpen(t) <==> (t - SUNDAY_OPEN) % WEEK < 5 * DAY
  {
    var day, rest := t / DAY, t % DAY;
    assert t == day * DAY + rest && 0 <= rest < DAY;
    var week, wd := (day + 3) / 7, (day + 3) % 7;
    assert day + 3 == week * 7 + wd && 0 <= wd < 7;
    assert t - SUNDAY_OPEN == (week - 1) * WEEK + (wd + 1) * DAY + rest - 22 * HOUR;
    var inWeek := (wd + 1) * DAY + rest - 22 * HOUR;
    var h := rest / HOUR;
    assert h * HOUR <= rest < (h + 1) * HOUR;
    if inWeek >= WEEK {
      ModWeek(t - SUNDAY_OPEN, week, inWeek - WEEK);
    } else {
      ModWeek(t - SUNDAY_OPEN, week - 1, inWeek);
    }
  }

  lemma ModWeek(x: int, q: int, r: int)
    requires x == q * WEEK + r && 0 <= r < WEEK
    ensures x % WEEK == r
  {
    assert x / WEEK == q;
  }

  // ---- the choice on a read -----------------------------------------------------------

  predicate Stale(r: Rate, now: int) {
    r.source == Ib && MarketOpen(now) && now - r.quotedAt > STALE_AFTER
  }

  /** _pick_rate, its clock reading `now`. */
  function Pick(ib: Option<Rate>, api: Option<Rate>, now: int): Option<Rate> {
    if ib.None? then api
    else if api.None? then ib
    else if Stale(ib.value, now) && api.value.quotedAt > ib.value.quotedAt then api
    else ib
  }

  /** get_rate_sync for a supported currency: the choice and the stale flag read the clock
      separately, at `now` and then at `later`. */
  function Read(ib: Option<Rate>, api: Option<Rate>, now: int, later: int): (r: Option<Rate>)
    requires ib.Some? ==> ib.value.source == Ib
    requires api.Some? ==> api.value.source == ApiFallback
    ensures r.None? <==> ib.None? && api.None?
    ensures r.Some? && r.value.source == ApiFallback ==>
      api.Some? && r.value.rate == api.value.rate && !r.value.isStale
      && (ib.Some? ==> Stale(ib.value, now) && api.value.quotedAt > ib.value.quotedAt)
    ensures r.Some? && r.value.source == Ib ==>
      ib.Some? && r.value.rate == ib.value.rate && r.value.isStale == Stale(ib.value, later)
  {
    match Pick(ib, api, now)
    case None => None
    case Some(chosen) => Some(chosen.(isStale := Stale(chosen, later)))
  }

  /** A read that serves a stale rate although the API has a strictly newer quote. */
  predicate PassesOver(ib: Option<Rate>, api: Option<Rate>, now: int, later: int)
    requires ib.Some? ==> ib.value.source == Ib
    requires api.Some? ==> api.value.source == ApiFallback
  {
    var r := Read(ib, api, now, later);
    r.Some? && r.value.isStale && api.Some? && api.value.quotedAt > r.value.quotedAt
  }

  /** A rate served as stale is from IB, and no strictly newer API quote was passed over,
      except exactly when the IB quote went stale between the two clock readings. */
  lemma StaleReads(ib: Option<Rate>, api: Option<Rate>, now: int, later: int)
    requires ib.Some? ==> ib.value.source == Ib
    requires api.Some? ==> api.value.source == ApiFallback
    ensures var r := Read(ib, api, now, later);
      r.Some? && r.value.isStale ==> ib == Some(r.value.(isStale := ib.value.isStale)) && Stale(ib.value, later)
    ensures PassesOver(ib, api, now, later)
       <==> ib.Some? && api.Some? && api.value.quotedAt > ib.value.quotedAt
            && !Stale(ib.value, now) && Stale(ib.value, later)
  {
  }

  /** Without new quotes, once a read has switched to the API, every later read while the
      market is open switches too; and none does while it is closed. */
  lemma SwitchLasts(ib: Rate, api: Rate, first: int, now: int, later: int)
    requires ib.source == Ib && api.source == ApiFallback
    requires Read(Some(ib), Some(api), first, first).value.source == ApiFallback
    requires first <= now <= later
    ensures Read(Some(ib), Some(api), now, later).value.source == ApiFallback <==> MarketOpen(now)
  {
  }

  /** The exception occurs: one microsecond between the readings serves a stale IB rate over
      an API quote a second newer. */
  lemma TornReadPassesOverNewerQuote()
    ensures var t := 4 * DAY;
      var ib := Rate("HKDUSD", 0.128, t, false, Ib);
      var api := Rate("HKDUSD", 0.129, t + SECOND, false, ApiFallback);
      Read(Some(ib), Some(api), t + STALE_AFTER, t + STALE_AFTER + 1) == Some(ib.(isStale := true))
  {
    assert Weekday(4 * DAY + STALE_AFTER + 1) == 0;
  }

  // ---- IB ticks of one currency -------------------------------------------------------

  datatype Ticker = Ticker(bid: Option<real>, ask: Option<real>, last: Option<real>, marketPrice: Option<real>)

  predicate Positive(x: Option<real>) { x.Some? && x.value > 0.0 }

  /** _extract_forex_price; NaN compares like an absent value. */
  function ExtractPrice(t: Ticker): (r: Option<real>)
    ensures r.Some? ==> r.value > 0.0
    ensures r.None? <==> !(Positive(t.bid) && Positive(t.ask)) && !Positive(t.last) && !Positive(t.marketPrice)
    ensures Positive(t.bid) && Positive(t.ask) ==> r.value - t.bid.value == t.ask.value - r.value
    ensures !(Positive(t.bid) && Positive(t.ask)) && Positive(t.last) ==> r == t.last
    ensures r.Some? && !(Positive(t.bid) && Positive(t.ask)) && !Positive(t.last) ==> r == t.marketPrice
  {
    if Positive(t.bid) && Positive(t.ask) then Some((t.bid.value + t.ask.value) / 2.0)
    else if Positive(t.last) then t.last
    else if Positive(t.marketPrice) then t.marketPrice
    else None
  }

  /** The USD-per-native value of a tick of a contract that does or does not need inversion. */
  function Usable(t: Ticker, invert: bool): (r: Option<real>)
    ensures r.Some? ==> r.value > 0.0
  {
    match ExtractPrice(t)
    case None => None
    case Some(p) => Some(if invert then 1.0 / p else p)
  }

  datatype Quote = Quote(value: Option<real>, at: int)

  function TickRate(c: Currency, existing: Option<Rate>, q: Quote): Option<Rate> {
    if q.value.None? || (existing.Some? && existing.value.rate == q.value.value) then existing
    else Some(Rate(PairFor(c), q.value.value, q.at, false, Ib))
  }

  function RunTicks(c: Currency, existing: Option<Rate>, qs: seq<Quote>, n: nat): Option<Rate>
    requires n <= |qs|
  {
    if n == 0 then existing else TickRate(c, RunTicks(c, existing, qs, n - 1), qs[n - 1])
  }

  /** The value on show before tick i: that of the last usable tick before it, or the stored one. */
  function ValueBefore(existing: Option<Rate>, qs: seq<Quote>, i: nat): Option<real>
    requires i <= |qs|
  {
    if i == 0 then (if existing.Some? then Some(existing.value.rate) else None)
    else if qs[i - 1].value.Some? then qs[i - 1].value
    else ValueBefore(existing, qs, i - 1)
  }

  predicate ChangesValue(existing: Option<Rate>, qs: seq<Quote>, i: nat)
    requires i < |qs|
  {
    qs[i].value.Some? && qs[i].value != ValueBefore(existing, qs, i)
  }

  /** The tick that began the current run of equal values, among the first n. */
  function RunStart(existing: Option<Rate>, qs: seq<Quote>, n: nat): (r: Option<nat>)
    requires n <= |qs|
    ensures r.Some? ==> r.value < n && ChangesValue(existing, qs, r.value)
    ensures forall i | (if r.Some? then r.value + 1 else 0) <= i < n :: !ChangesValue(existing, qs, i)
  {
    if n == 0 then None
    else if ChangesValue(existing, qs, n - 1) then Some(n - 1)
    else RunStart(existing, qs, n - 1)
  }

  /** After any ticks the rate is that of the last usable one, quoted when the current run of
      equal values began; usable ticks since then all repeat it. */
  lemma {:induction false} RateAfterTicks(c: Currency, existing: Option<Rate>, qs: seq<Quote>, n: nat)
    requires n <= |qs|
    ensures var r := RunTicks(c, existing, qs, n);
      (if r.Some? then Some(r.value.rate) else None) == ValueBefore(existing, qs, n)
    ensures match RunStart(existing, qs, n)
            case None => RunTicks(c, existing, qs, n) == existing
            case Some(j) =>
              RunTicks(c, existing, qs, n) == Some(Rate(PairFor(c), qs[j].value.value, qs[j].at, false, Ib))
              && (forall i | j < i < n && qs[i].value.Some? :: qs[i].value == qs[j].value)
  {
    if n > 0 {
      RateAfterTicks(c, existing, qs, n - 1);
    }
  }

  /** So a live feed that keeps ticking one value is stale a minute after the first of them. */
  lemma {:induction false} SteadyFeedGoesStale(c: Currency, existing: Option<Rate>, qs: seq<Quote>, n: nat, now: int)
    requires 0 < n <= |qs| && ChangesValue(existing, qs, 0)
    requires forall i | 0 <= i < n :: qs[i].value == qs[0].value
    requires MarketOpen(now) && now > qs[0].at + 60 * SECOND
    ensures RunStart(existing, qs, n) == Some(0)
    ensures var r := RunTicks(c, existing, qs, n); r.Some? && Stale(r.value, now)
  {
    RateAfterTicks(c, existing, qs, n);
    if n > 1 {
      SteadyFeedGoesStale(c, existing, qs, n - 1, now);
    }
  }

  // ---- the cache over runs and restarts -----------------------------------------------

  /** A row of the fx_cache table, keyed by pair. */
  datatype Row = Row(rate: real, source: Source, quotedAt: int)

  /** An observed market value: what one unit of the currency is worth in USD. */
  datatype Seen = Seen(source: Source, currency: Currency, usdPerNative: real)

  /** `pairs` are the subscribed contracts, `pending` the fx_cache writes under way, `seen`
      the history of observed values. */
  datatype Service = Service(
    ib: map<Currency, Rate>, api: map<Currency, Rate>,
    pairs: map<Currency, string>, cache: map<string, Row>, pending: seq<Rate>,
    seen: set<Seen>)

  const INITIAL := Service(map[], map[], map[], map[], [], {})

  datatype Event =
    | IbAttached
    | Subscribed(currency: Currency)
    | IbTicked(currency: Currency, ticker: Ticker, at: int)
    | ApiQuoted(currency: Currency, nativePerUsd: real, at: int)
    | WriteEnded(index: nat, ok: bool)
    | Restarted

  /** The meaning of an IB price, from the pair alone: term units per base unit. */
  function UsdPerNative(pair: string, price: real): real
    requires price > 0.0 && |pair| >= 3
  {
    if pair[..3] == "USD" then 1.0 / price else price
  }

  function RowOf(r: Rate): Row { Row(r.rate, r.source, r.quotedAt) }

  /** start(): each cached row goes back to the bucket of its source. */
  function Load(cache: map<string, Row>, source: Source): map<Currency, Rate> {
    map c | c in SUPPORTED && PairFor(c) in cache && cache[PairFor(c)].source == source ::
      Rate(PairFor(c), cache[PairFor(c)].rate, cache[PairFor(c)].quotedAt, false, source)
  }

  /** set_rate and _handler both file a rate and schedule its write. */
  function File(s: Service, r: Rate): Service {
    var c := if |r.pair| >= 3 then r.pair[..3] else r.pair;
    if r.source == Ib then s.(ib := s.ib[c := r], pending := s.pending + [r])
    else s.(api := s.api[c := r], pending := s.pending + [r])
  }

  function Tick(s: Service, c: Currency, t: Ticker, at: int): Service {
    if c !in s.pairs then s
    else
      var existing := if c in s.ib then Some(s.ib[c]) else None;
      var r := TickRate(c, existing, Quote(Usable(t, QuotesUsdBase(c, s.pairs[c])), at));
      if r == existing || r.None? then s else File(s, r.value)
  }

  function ApiQuote(s: Service, c: Currency, nativePerUsd: real, at: int): Service {
    if c !in SUPPORTED || c == "CNH" || nativePerUsd <= 0.0 then s
    else File(s, Rate(PairFor(c), 1.0 / nativePerUsd, at, false, ApiFallback))
  }

  function Step(s: Service, e: Event): Service {
    match e
    case IbAttached => s.(pairs := map[])
    case Subscribed(c) =>
      if c in SUPPORTED - IB_UNSUPPORTED then s.(pairs := s.pairs[c := IbPairFor(c)]) else s
    case IbTicked(c, t, at) =>
      var seen := if c in s.pairs && |s.pairs[c]| >= 3 && ExtractPrice(t).Some?
                  then {Seen(Ib, c, UsdPerNative(s.pairs[c], ExtractPrice(t).value))} else {};
      Tick(s, c, t, at).(seen := s.seen + seen)
    case ApiQuoted(c, q, at) =>
      ApiQuote(s, c, q, at).(seen := s.seen + if q > 0.0 then {Seen(ApiFallback, c, 1.0 / q)} else {})
    case WriteEnded(i, ok) =>
      if i >= |s.pending| then s
      else
        var t := s.(pending := s.pending[..i] + s.pending[i + 1..]);
        if ok then t.(cache := s.cache[s.pending[i].pair := RowOf(s.pending[i])]) else t
    case Restarted => s.(ib := Load(s.cache, Ib), api := Load(s.cache, ApiFallback), pairs := map[], pending := [])
  }

  function Exec(s: Service, es: seq<Event>): Service
    decreases |es|
  {
    if es == [] then s else Exec(Step(s, es[0]), es[1..])
  }

  /** A positive USD-per-native value that was really observed at its source, for a currency
      that source may quote: CNH never comes from the API, TWD never from IB. */
  ghost predicate Sound(s: Service, c: Currency, source: Source, rate: real) {
    && c in SUPPORTED && rate > 0.0 && Seen(source, c, rate) in s.seen
    && (source == ApiFallback ==> c != "CNH") && (source == Ib ==> c !in IB_UNSUPPORTED)
  }

  ghost predicate SoundPair(s: Service, pair: string, source: Source, rate: real) {
    |pair| >= 3 && pair == PairFor(pair[..3]) && Sound(s, pair[..3], source, rate)
  }

  ghost predicate Bucket(s: Service, m: map<Currency, Rate>, source: Source) {
    forall c | c in m :: m[c].source == source && m[c].pair == PairFor(c) && Sound(s, c, source, m[c].rate)
  }

  ghost predicate Inv(s: Service) {
    && Bucket(s, s.ib, Ib) && Bucket(s, s.api, ApiFallback)
    && (forall c | c in s.pairs :: c in SUPPORTED - IB_UNSUPPORTED && s.pairs[c] == IbPairFor(c))
    && (forall p | p in s.cache :: SoundPair(s, p, s.cache[p].source, s.cache[p].rate))
    && (forall r | r in s.pending :: SoundPair(s, r.pair, r.source, r.rate))
  }

  lemma SupportedCodes(c: Currency)
    requires c in SUPPORTED
    ensures |c| == 3 && c != "USD" && PairFor(c)[..3] == c
    ensures QuotesUsdBase(c, IbPairFor(c)) <==> IbPairFor(c)[..3] == "USD"
  {
    assert PairFor(c)[..3] == c;
    assert ("USD" + c)[..3] == "USD";
  }

  lemma FileKeepsInv(s: Service, c: Currency, r: Rate)
    requires Inv(s) && r.pair == PairFor(c) && Sound(s, c, r.source, r.rate)
    ensures Inv(File(s, r))
  {
    SupportedCodes(c);
    assert SoundPair(s, r.pair, r.source, r.rate);
    if r.source == Ib {
      FiledIsSound(s, s.ib, c, r);
    } else {
      FiledIsSound(s, s.api, c, r);
    }
  }

  lemma FiledIsSound(s: Service, m: map<Currency, Rate>, c: Currency, r: Rate)
    requires Bucket(s, m, r.source) && r.pair == PairFor(c) && Sound(s, c, r.source, r.rate)
    ensures Bucket(s, m[c := r], r.source)
  {
  }

  /** More history changes nothing. */
  lemma SeenGrows(s: Service, seen: set<Seen>)
    requires Inv(s)
    ensures Inv(s.(seen := s.seen + seen))
  {
  }

  lemma TickKeepsInv(s: Service, c: Currency, ticker: Ticker, at: int)
    requires Inv(s)
    ensures Inv(Step(s, IbTicked(c, ticker, at)))
  {
    var u := Step(s, IbTicked(c, ticker, at)).seen;
    SeenGrows(s, u);
    assert s.seen + u == u;
    var t := s.(seen := u);
    if c in s.pairs {
      SupportedCodes(c);
      var price := ExtractPrice(ticker);
      if price.Some? {
        var v := UsdPerNative(s.pairs[c], price.value);
        assert Usable(ticker, QuotesUsdBase(c, s.pairs[c])) == Some(v);
        FileKeepsInv(t, c, Rate(PairFor(c), v, at, false, Ib));
      }
    }
  }

  lemma ApiKeepsInv(s: Service, c: Currency, nativePerUsd: real, at: int)
    requires Inv(s)
    ensures Inv(Step(s, ApiQuoted(c, nativePerUsd, at)))
  {
    var u := Step(s, ApiQuoted(c, nativePerUsd, at)).seen;
    SeenGrows(s, u);
    assert s.seen + u == u;
    if c in SUPPORTED && c != "CNH" && nativePerUsd > 0.0 {
      ApiQuoteKeepsInv(s.(seen := u), c, nativePerUsd, at);
    }
  }

  lemma ApiQuoteKeepsInv(s: Service, c: Currency, nativePerUsd: real, at: int)
    requires Inv(s) && c in SUPPORTED && c != "CNH" && nativePerUsd > 0.0
    requires Seen(ApiFallback, c, 1.0 / nativePerUsd) in s.seen
    ensures Inv(ApiQuote(s, c, nativePerUsd, at))
  {
    FileKeepsInv(s, c, Rate(PairFor(c), 1.0 / nativePerUsd, at, false, ApiFallback));
  }

  lemma RestartKeepsInv(s: Service)
    requires Inv(s)
    ensures Inv(Step(s, Restarted))
  {
    forall c | c in SUPPORTED ensures PairFor(c)[..3] == c {
      SupportedCodes(c);
    }
  }

  lemma WriteKeepsInv(s: Service, i: nat, ok: bool)
    requires Inv(s)
    ensures Inv(Step(s, WriteEnded(i, ok)))
  {
    var t := Step(s, WriteEnded(i, ok));
    assert forall q | q in t.pending :: q in s.pending;
  }

  lemma SubscriptionKeepsInv(s: Service, pairs: map<Currency, string>)
    requires Inv(s)
    requires forall c | c in pairs :: c in SUPPORTED - IB_UNSUPPORTED && pairs[c] == IbPairFor(c)
    ensures Inv(s.(pairs := pairs))
  {
  }

  lemma StepKeepsInv(s: Service, e: Event)
    requires Inv(s)
    ensures Inv(Step(s, e))
  {
    match e
    case IbTicked(c, t, at) => TickKeepsInv(s, c, t, at);
    case ApiQuoted(c, q, at) => ApiKeepsInv(s, c, q, at);
    case WriteEnded(i, ok) => WriteKeepsInv(s, i, ok);
    case Restarted => RestartKeepsInv(s);
    case IbAttached => SubscriptionKeepsInv(s, map[]);
    case Subscribed(c) =>
      if c in SUPPORTED - IB_UNSUPPORTED { SubscriptionKeepsInv(s, s.pairs[c := IbPairFor(c)]); }
  }

  /** Every cached rate, over every run of subscriptions, ticks, API quotes, writes ending in
      any order and restarts. */
  lemma {:induction false} CachedRatesAreSound(s: Service, es: seq<Event>)
    requires Inv(s)
    ensures var t := Exec(s, es);
      && Inv(t) && "CNH" !in t.api && "TWD" !in t.ib
      && (forall c | c in t.ib :: t.ib[c].rate > 0.0 && t.ib[c].source == Ib && Seen(Ib, c, t.ib[c].rate) in t.seen)
      && (forall c | c in t.api ::
            t.api[c].rate > 0.0 && t.api[c].source == ApiFallback && Seen(ApiFallback, c, t.api[c].rate) in t.seen)
    decreases |es|
  {
    if es != [] {
      StepKeepsInv(s, es[0]);
      CachedRatesAreSound(Step(s, es[0]), es[1..]);
    }
  }

  lemma {:induction false} ExecSnoc(s: Service, es: seq<Event>, e: Event)
    ensures Exec(s, es + [e]) == Step(Exec(s, es), e)
    decreases |es|
  {
    if es == [] {
      assert Exec(Step(s, e), []) == Step(s, e);
    } else {
      assert (es + [e])[1..] == es[1..] + [e];
      ExecSnoc(Step(s, es[0]), es[1..], e);
    }
  }

  function IbRate(s: Service, c: Currency): Option<Rate> {
    if c in s.ib then Some(s.ib[c]) else None
  }

  /** The quote an event brings of a currency, if it is subscribed. */
  function QuoteOf(s: Service, e: Event, c: Currency): seq<Quote> {
    if e.IbTicked? && e.currency == c && c in s.pairs
    then [Quote(Usable(e.ticker, QuotesUsdBase(c, s.pairs[c])), e.at)] else []
  }

  function QuotesOf(s: Service, es: seq<Event>, c: Currency): seq<Quote> {
    if es == [] then []
    else QuotesOf(s, es[..|es| - 1], c) + QuoteOf(Exec(s, es[..|es| - 1]), es[|es| - 1], c)
  }

  lemma {:induction false} RunTicksReadsPrefix(c: Currency, existing: Option<Rate>, qs: seq<Quote>, more: seq<Quote>,
                                               n: nat)
    requires n <= |qs|
    ensures RunTicks(c, existing, qs + more, n) == RunTicks(c, existing, qs, n)
  {
    if n > 0 { RunTicksReadsPrefix(c, existing, qs, more, n - 1); }
  }

  lemma OneMoreTick(c: Currency, existing: Option<Rate>, qs: seq<Quote>, more: seq<Quote>)
    requires |more| <= 1
    ensures var before := RunTicks(c, existing, qs, |qs|);
      RunTicks(c, existing, qs + more, |qs + more|) == if more == [] then before else TickRate(c, before, more[0])
  {
    RunTicksReadsPrefix(c, existing, qs, more, |qs|);
    assert more == [] ==> qs + more == qs;
  }

  /** Of all events only a currency's own ticks, and restarts, move its IB rate. */
  lemma StepMovesIbRate(s: Service, e: Event, c: Currency)
    requires Inv(s) && !e.Restarted?
    ensures var q := QuoteOf(s, e, c);
      IbRate(Step(s, e), c) == if q == [] then IbRate(s, c) else TickRate(c, IbRate(s, c), q[0])
  {
    if e.IbTicked? && e.currency in s.pairs {
      SupportedCodes(e.currency);
    }
  }

  /** RateAfterTicks for whole runs: until a restart, whatever other ticks, API quotes, writes
      and subscriptions come between, a currency's IB rate is that of the last usable tick of
      its own subscriptions, quoted when the current run of equal values began. */
  lemma {:induction false} RateAfterRun(s: Service, es: seq<Event>, c: Currency)
    requires Inv(s) && Restarted !in es
    ensures var qs := QuotesOf(s, es, c); var r := IbRate(Exec(s, es), c);
      && r == RunTicks(c, IbRate(s, c), qs, |qs|)
      && (if r.Some? then Some(r.value.rate) else None) == ValueBefore(IbRate(s, c), qs, |qs|)
      && match RunStart(IbRate(s, c), qs, |qs|)
         case None => r == IbRate(s, c)
         case Some(j) => r == Some(Rate(PairFor(c), qs[j].value.value, qs[j].at, false, Ib))
  {
    var qs := QuotesOf(s, es, c);
    if es != [] {
      var n := |es| - 1;
      assert es[n] in es && Restarted !in es[..n];
      RateAfterRun(s, es[..n], c);
      CachedRatesAreSound(s, es[..n]);
      ExecSnoc(s, es[..n], es[n]);
      assert es[..n] + [es[n]] == es;
      StepMovesIbRate(Exec(s, es[..n]), es[n], c);
      OneMoreTick(c, IbRate(s, c), QuotesOf(s, es[..n], c), QuoteOf(Exec(s, es[..n]), es[n], c));
    }
    RateAfterTicks(c, IbRate(s, c), qs, |qs|);
  }

  /** A written rate comes back from a restart in the bucket of its source, and only there. */
  lemma WrittenRateSurvivesRestart(s: Service, i: nat)
    requires Inv(s) && i < |s.pending|
    ensures var t := Step(Step(s, WriteEnded(i, true)), Restarted);
      var r := s.pending[i];
      var c := r.pair[..3];
      if r.source == Ib then c in t.ib && t.ib[c] == r.(isStale := false) && c !in t.api
      else c in t.api && t.api[c] == r.(isStale := false) && c !in t.ib
  {
    var r := s.pending[i];
    assert r in s.pending && SoundPair(s, r.pair, r.source, r.rate);
  }

  /** A tick that brings a new value is filed and its write scheduled, and likewise an API
      quote; a written rate is there after a restart: the whole way for either source. */
  lemma TickReachesTheCache(s: Service, c: Currency, t: Ticker, at: int)
    requires Inv(s) && c in SUPPORTED - IB_UNSUPPORTED && ExtractPrice(t).Some?
    requires var price := ExtractPrice(t).value; var value := UsdPerNative(IbPairFor(c), price);
      c !in s.ib || s.ib[c].rate != value
    ensures var value := UsdPerNative(IbPairFor(c), ExtractPrice(t).value);
      var r := Rate(PairFor(c), value, at, false, Ib);
      var u := Step(Step(s, Subscribed(c)), IbTicked(c, t, at));
      var v := Step(Step(u, WriteEnded(|s.pending|, true)), Restarted);
      && c in u.ib && u.ib[c] == r && u.pending == s.pending + [r]
      && c in v.ib && v.ib[c] == r && c !in v.api
  {
    SupportedCodes(c);
    StepKeepsInv(s, Subscribed(c));
    StepKeepsInv(Step(s, Subscribed(c)), IbTicked(c, t, at));
    var u := Step(Step(s, Subscribed(c)), IbTicked(c, t, at));
    var value := UsdPerNative(IbPairFor(c), ExtractPrice(t).value);
    assert u.pending == s.pending + [Rate(PairFor(c), value, at, false, Ib)];
    WrittenRateSurvivesRestart(u, |s.pending|);
  }

  lemma ApiQuoteReachesTheCache(s: Service, c: Currency, nativePerUsd: real, at: int)
    requires Inv(s) && c in SUPPORTED && c != "CNH" && nativePerUsd > 0.0
    ensures var r := Rate(PairFor(c), 1.0 / nativePerUsd, at, false, ApiFallback);
      var u := Step(s, ApiQuoted(c, nativePerUsd, at));
      var v := Step(Step(u, WriteEnded(|s.pending|, true)), Restarted);
      && c in u.api && u.api[c] == r && u.pending == s.pending + [r] && u.ib == s.ib
      && c in v.api && v.api[c] == r && c !in v.ib
  {
    SupportedCodes(c);
    StepKeepsInv(s, ApiQuoted(c, nativePerUsd, at));
    WrittenRateSurvivesRestart(Step(s, ApiQuoted(c, nativePerUsd, at)), |s.pending|);
  }

  function ApiRates(payload: map<Currency, real>, at: int, done: set<Currency>): map<Currency, Rate> {
    map c | c in done && c != "CNH" && c in payload && payload[c] > 0.0 ::
      Rate(PairFor(c), 1.0 / payload[c], at, false, ApiFallback)
  }

  /** One currency of the payload. */
  function Quoted(api: map<Currency, Rate>, payload: map<Currency, real>, at: int, c: Currency): map<Currency, Rate> {
    if c != "CNH" && c in payload && payload[c] > 0.0
    then api[c := Rate(PairFor(c), 1.0 / payload[c], at, false, ApiFallback)]
    else api
  }

  lemma ApiRatesAdd(api: map<Currency, Rate>, payload: map<Currency, real>, at: int, done: set<Currency>, c: Currency)
    ensures Quoted(api + ApiRates(payload, at, done), payload, at, c) == api + ApiRates(payload, at, done + {c})
  {
  }

  // ---- the service object -------------------------------------------------------------

  class FxService {
    var ibRates: map<Currency, Rate>
    var apiRates: map<Currency, Rate>
    var tickers: map<Currency, string>
    var cache: map<string, Row>
    var pending: seq<Rate>
    ghost var seen: set<Seen>

    ghost function State(): Service
      reads this
    {
      Service(ibRates, apiRates, tickers, cache, pending, seen)
    }

    ghost predicate Valid()
      reads this
    {
      Inv(State())
    }

    constructor ()
      ensures Valid() && State() == INITIAL
    {
      ibRates, apiRates, tickers, cache, pending, seen := map[], map[], map[], map[], [], {};
    }

    /** The updateEvent handler of one currency's subscription. */
    method OnTick(c: Currency, ticker: Ticker, at: int)
      requires Valid()
      modifies this
      ensures Valid() && State() == Step(old(State()), IbTicked(c, ticker, at))
    {
      TickKeepsInv(State(), c, ticker, at);
      TakeTick(c, ticker, at);
    }

    method TakeTick(c: Currency, ticker: Ticker, at: int)
      requires c in tickers ==> c in SUPPORTED && |tickers[c]| >= 3
      modifies this
      ensures State() == Step(old(State()), IbTicked(c, ticker, at))
    {
      if c !in tickers {
        return;
      }
      SupportedCodes(c);
      var price := ExtractPrice(ticker);
      if price.None? {
        return;
      }
      seen := seen + {Seen(Ib, c, UsdPerNative(tickers[c], price.value))};
      var value := price.value;
      if QuotesUsdBase(c, tickers[c]) {
        value := 1.0 / value;
      }
      if c in ibRates && ibRates[c].rate == value {
        return;
      }
      var rate := Rate(PairFor(c), value, at, false, Ib);
      ibRates := ibRates[c := rate];
      pending := pending + [rate];
    }

    /** refresh_from_api on a payload of native units per USD: every supported quote but CNH's. */
    method RefreshFromApi(payload: map<Currency, real>, at: int)
      requires Valid()
      modifies this
      ensures Valid() && apiRates == old(apiRates) + ApiRates(payload, at, SUPPORTED)
      ensures ibRates == old(ibRates) && cache == old(cache) && tickers == old(tickers)
    {
      ghost var es := RefreshEach(SUPPORTED, payload, at);
      CachedRatesAreSound(old(State()), es);
    }

    method RefreshEach(currencies: set<Currency>, payload: map<Currency, real>, at: int) returns (ghost es: seq<Event>)
      requires currencies <= SUPPORTED
      modifies this`apiRates, this`pending, this`seen
      ensures State() == Exec(old(State()), es)
      ensures apiRates == old(apiRates) + ApiRates(payload, at, currencies)
    {
      es := [];
      var todo := currencies;
      ghost var done: set<Currency> := {};
      while todo != {}
        invariant todo + done == currencies && todo !! done
        invariant State() == Exec(old(State()), es)
        invariant apiRates == old(apiRates) + ApiRates(payload, at, done)
      {
        var c :| c in todo;
        todo := todo - {c};
        ApiRatesAdd(old(apiRates), payload, at, done, c);
        done := done + {c};
        es := RefreshOne(c, payload, at, old(State()), es);
      }
      assert done == currencies;
    }

    /** One currency of the payload; `es` grows by the event this is. */
    method RefreshOne(c: Currency, payload: map<Currency, real>, at: int, ghost start: Service, ghost es: seq<Event>)
      returns (ghost fs: seq<Event>)
      requires c in SUPPORTED && State() == Exec(start, es)
      modifies this`apiRates, this`pending, this`seen
      ensures State() == Exec(start, fs)
      ensures apiRates == Quoted(old(apiRates), payload, at, c)
    {
      fs := es;
      if c != "CNH" && c in payload && payload[c] > 0.0 {
        ExecSnoc(start, es, ApiQuoted(c, payload[c], at));
        fs := es + [ApiQuoted(c, payload[c], at)];
        ApplyQuote(c, payload[c], at);
      }
    }

    /** set_rate for an API quote. */
    method ApplyQuote(c: Currency, nativePerUsd: real, at: int)
      requires c in SUPPORTED && c != "CNH" && nativePerUsd > 0.0
      modifies this`apiRates, this`pending, this`seen
      ensures State() == Step(old(State()), ApiQuoted(c, nativePerUsd, at))
      ensures apiRates == old(apiRates)[c := Rate(PairFor(c), 1.0 / nativePerUsd, at, false, ApiFallback)]
    {
      SupportedCodes(c);
      seen := seen + {Seen(ApiFallback, c, 1.0 / nativePerUsd)};
      var rate := Rate(PairFor(c), 1.0 / nativePerUsd, at, false, ApiFallback);
      apiRates := apiRates[rate.pair[..3] := rate];
      pending := pending + [rate];
    }
  }
}
