/** The types every adapter shares: app/core/broker.py. Money and prices are reals. */
module Broker {

  datatype Option<+T> = None | Some(value: T)

  datatype ConnectionState = Connected | Reconnecting | Disconnected

  datatype AssetClass = Stk | Cash

  /** The instrument a row stands for: nothing an adapter recomputes is in here. */
  datatype Instrument = Instrument(
    broker: string,
    accountId: string,
    nativeKey: string,
    canonicalSymbol: string,
    exchange: string,
    currency: string,
    nameEn: string,
    assetClass: AssetClass,
    quantity: real,
    priceMagnifier: int)

  datatype Position = Position(
    id: Instrument,
    avgCost: real,
    lastPrice: real,
    mvNative: real,
    mvUsd: real,
    pnlNative: real,
    pnlUsd: real,
    fxIsStale: bool,
    fxIsFallback: bool,
    fxUnavailable: bool,
    isPreviousClose: bool,
    isBrokerMark: bool,
    isDelayed: bool,
    isStale: bool,
    previousClose: real)

  /** (broker, account_id, canonical_symbol) */
  type PositionKey = (string, string, string)

  function Key(p: Position): PositionKey {
    (p.id.broker, p.id.accountId, p.id.canonicalSymbol)
  }

  /** Two rows share a key exactly when broker, account and symbol agree. */
  lemma KeysDistinguish(p: Position, q: Position)
    ensures Key(p) == Key(q)
       <==> p.id.broker == q.id.broker && p.id.accountId == q.id.accountId
            && p.id.canonicalSymbol == q.id.canonicalSymbol
  {
  }
}
