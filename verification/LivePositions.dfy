/**
 The observable position store (app/core/live_positions.py) and what its writers may do to
 one another's rows.
 */
module LivePositions {
  import opened Broker

  type Rows = map<PositionKey, Position>

  // ---- the specification of the writes ------------------------------------------------

  /** {_key(p): p for p in positions}: the last position of each key wins. */
  function ByKey(ps: seq<Position>): Rows {
    if ps == [] then map[] else ByKey(ps[..|ps| - 1])[Key(ps[|ps| - 1]) := ps[|ps| - 1]]
  }

  function Set(rows: Rows, p: Position): Rows {
    rows[Key(p) := p]
  }

  function ReplaceBroker(rows: Rows, broker: string, ps: seq<Position>): Rows {
    (map k | k in rows && k.0 != broker :: rows[k]) + ByKey(ps)
  }

  function Stale(p: Position): Position {
    if p.id.assetClass == Cash then p else p.(isStale := true)
  }

  predicate SkipsMarking(p: Position) {
    p.id.assetClass == Cash || p.isStale
  }

  /** IbkrAdapter._mark_live_positions_stale: every row but cash, whoever owns it. */
  function MarkStale(rows: Rows): Rows {
    map k | k in rows :: Stale(rows[k])
  }

  // ---- the store object ---------------------------------------------------------------

  class LivePositions {
    var positions: Rows
    var changed: bool

    constructor ()
      ensures positions == map[] && !changed
    {
      positions, changed := map[], false;
    }

    /** The event is set exactly when the rows change, and is never cleared by a write. */
    method SetPosition(p: Position)
      modifies this
      ensures positions == Set(old(positions), p)
      ensures changed == (old(changed) || positions != old(positions))
    {
      var key := Key(p);
      if key in positions && positions[key] == p {
        assert Set(positions, p) == positions;
        return;
      }
      positions := positions[key := p];
      changed := true;
      assert positions[key] == p;
    }

    method ReplaceAll(ps: seq<Position>)
      modifies this
      ensures positions == ByKey(ps)
      ensures changed == (old(changed) || positions != old(positions))
    {
      var newMap := BuildMap(ps);
      if newMap == positions {
        return;
      }
      positions := newMap;
      changed := true;
    }

    method ReplaceBrokerRows(broker: string, ps: seq<Position>)
      modifies this
      ensures positions == ReplaceBroker(old(positions), broker, ps)
      ensures changed == (old(changed) || positions != old(positions))
    {
      var newMap := map k | k in positions && k.0 != broker :: positions[k];
      var updates := BuildMap(ps);
      newMap := newMap + updates;
      if newMap == positions {
        return;
      }
      positions := newMap;
      changed := true;
    }

    /** One set_position call for each row that is neither cash nor stale already. */
    method MarkAllStale()
      modifies this
      ensures positions == MarkStale(old(positions))
      ensures changed == (old(changed) || positions != old(positions))
    {
      ghost var before := positions;
      ghost var was := changed;
      ghost var marked: set<PositionKey> := {};
      var todo := positions.Keys;
      while todo != {}
        invariant todo <= positions.Keys == before.Keys && marked <= before.Keys - todo
        invariant forall k | k in before ::
          if k in todo then positions[k] == before[k]
          else positions[k] == Stale(before[k]) && (k in marked <==> !SkipsMarking(before[k]))
        invariant changed == (was || marked != {})
      {
        var k :| k in todo;
        var row := positions[k];
        todo := todo - {k};
        if !SkipsMarking(row) {
          positions := positions[k := row.(isStale := true)];
          changed := true;
          marked := marked + {k};
        }
      }
      assert positions == MarkStale(before);
      StaleMarkShows(before);
    }

    /** wait_for_change once the event is set. */
    method TakeChange()
      requires changed
      modifies this`changed
      ensures !changed
    {
      changed := false;
    }
  }

  method BuildMap(ps: seq<Position>) returns (m: Rows)
    ensures m == ByKey(ps)
  {
    m := map[];
    for i := 0 to |ps|
      invariant m == ByKey(ps[..i])
    {
      assert ps[..i + 1][..i] == ps[..i];
      m := m[Key(ps[i]) := ps[i]];
    }
    assert ps[..|ps|] == ps;
  }

  // ---- the writers' runs -------------------------------------------------------------

  /** One store write by an adapter. A failed refresh writes nothing and is not an event. */
  datatype Write =
    | SetRow(p: Position)
    | Refresh(broker: string, ps: seq<Position>)
    | GatewayLost

  function Apply(rows: Rows, w: Write): Rows {
    match w
    case SetRow(p) => Set(rows, p)
    case Refresh(broker, ps) => ReplaceBroker(rows, broker, ps)
    case GatewayLost => MarkStale(rows)
  }

  function Run(rows: Rows, ws: seq<Write>): Rows {
    if ws == [] then rows else Apply(Run(rows, ws[..|ws| - 1]), ws[|ws| - 1])
  }

  predicate OwnedBy(w: Write, broker: string) {
    match w
    case SetRow(p) => p.id.broker == broker
    case Refresh(b, _) => b == broker
    case GatewayLost => false
  }

  /** Adapters write rows under their own name, and rows are stored under their own key. */
  predicate WellFormedWrite(w: Write) {
    w.Refresh? ==> forall p | p in w.ps :: p.id.broker == w.broker
  }

  predicate Keyed(rows: Rows) {
    forall k | k in rows :: Key(rows[k]) == k
  }

  /** One broker's rows, with the stale flag erased. */
  function Unmark(p: Position): Position { p.(isStale := false) }

  function RowsOf(rows: Rows, broker: string): Rows {
    map k | k in rows && k.0 == broker :: rows[k]
  }

  function View(rows: Rows, broker: string): Rows {
    map k | k in rows && k.0 == broker :: Unmark(rows[k])
  }

  function Own(ws: seq<Write>, broker: string): seq<Write> {
    if ws == [] then []
    else if OwnedBy(ws[|ws| - 1], broker) then Own(ws[..|ws| - 1], broker) + [ws[|ws| - 1]]
    else Own(ws[..|ws| - 1], broker)
  }

  lemma {:induction false} ByKeyIsKeyed(ps: seq<Position>)
    ensures Keyed(ByKey(ps))
    ensures forall k :: k in ByKey(ps) <==> exists i :: 0 <= i < |ps| && Key(ps[i]) == k
  {
    if ps != [] {
      var n := |ps| - 1;
      ByKeyIsKeyed(ps[..n]);
      forall k ensures k in ByKey(ps) <==> exists i :: 0 <= i < |ps| && Key(ps[i]) == k {
        if k in ByKey(ps[..n]) {
          var i :| 0 <= i < n && Key(ps[..n][i]) == k;
          assert Key(ps[i]) == k;
        }
        if exists i :: 0 <= i < |ps| && Key(ps[i]) == k {
          var i :| 0 <= i < |ps| && Key(ps[i]) == k;
          assert i < n ==> Key(ps[..n][i]) == k;
        }
      }
    }
  }

  /** ByKey is the last-wins map: each row is the last position of its key. */
  lemma {:induction false} ByKeyTakesLast(ps: seq<Position>, i: nat)
    requires i < |ps| && forall j | i < j < |ps| :: Key(ps[j]) != Key(ps[i])
    ensures Key(ps[i]) in ByKey(ps) && ByKey(ps)[Key(ps[i])] == ps[i]
  {
    var n := |ps| - 1;
    if i < n {
      assert forall j | i < j < n :: ps[..n][j] == ps[j];
      ByKeyTakesLast(ps[..n], i);
      assert Key(ps[n]) != Key(ps[i]);
    }
  }

  /** The store shows two written rows side by side exactly when they differ in broker, account
      or symbol; otherwise the later replaces the earlier. Other rows stay. */
  lemma TwoRowsCoexist(rows: Rows, p: Position, q: Position)
    requires p != q
    ensures var t := Set(Set(rows, p), q);
      && Key(q) in t && t[Key(q)] == q
      && (Key(p) in t && t[Key(p)] == p
          <==> p.id.broker != q.id.broker || p.id.accountId != q.id.accountId
               || p.id.canonicalSymbol != q.id.canonicalSymbol)
      && (forall k | k != Key(p) && k != Key(q) :: (k in t <==> k in rows) && (k in rows ==> t[k] == rows[k]))
  {
    KeysDistinguish(p, q);
  }

  lemma RefreshKeys(broker: string, ps: seq<Position>)
    requires forall p | p in ps :: p.id.broker == broker
    ensures forall k | k in ByKey(ps) :: k.0 == broker
  {
    ByKeyIsKeyed(ps);
    forall k | k in ByKey(ps) ensures k.0 == broker {
      var i :| 0 <= i < |ps| && Key(ps[i]) == k;
      assert ps[i] in ps;
    }
  }

  lemma OtherRowLeavesRows(rows: Rows, p: Position, broker: string)
    requires p.id.broker != broker
    ensures RowsOf(Set(rows, p), broker) == RowsOf(rows, broker)
  {
    assert Key(p).0 != broker;
  }

  lemma OtherRefreshLeavesRows(rows: Rows, other: string, ps: seq<Position>, broker: string)
    requires other != broker && forall p | p in ps :: p.id.broker == other
    ensures RowsOf(ReplaceBroker(rows, other, ps), broker) == RowsOf(rows, broker)
  {
    RefreshKeys(other, ps);
  }

  lemma ViewReadsRows(a: Rows, b: Rows, broker: string)
    requires RowsOf(a, broker) == RowsOf(b, broker)
    ensures View(a, broker) == View(b, broker)
  {
    forall k ensures k in View(a, broker) <==> k in View(b, broker) {
      assert k in RowsOf(a, broker) <==> k in RowsOf(b, broker);
    }
    forall k | k in View(a, broker) ensures View(a, broker)[k] == View(b, broker)[k] {
      assert RowsOf(a, broker)[k] == RowsOf(b, broker)[k];
    }
  }

  /** A write by another broker changes at most the stale flags of this broker's rows. */
  lemma OthersLeaveView(rows: Rows, w: Write, broker: string)
    requires WellFormedWrite(w) && !OwnedBy(w, broker)
    ensures View(Apply(rows, w), broker) == View(rows, broker)
    ensures w.GatewayLost? || RowsOf(Apply(rows, w), broker) == RowsOf(rows, broker)
  {
    match w
    case SetRow(p) =>
      OtherRowLeavesRows(rows, p, broker);
      ViewReadsRows(Apply(rows, w), rows, broker);
    case Refresh(b, ps) =>
      OtherRefreshLeavesRows(rows, b, ps, broker);
      ViewReadsRows(Apply(rows, w), rows, broker);
    case GatewayLost =>
      assert forall k | k in rows :: Unmark(Stale(rows[k])) == Unmark(rows[k]);
  }

  /** A broker's own write acts on its view alone. */
  lemma OwnWritesReadView(a: Rows, b: Rows, w: Write, broker: string)
    requires WellFormedWrite(w) && OwnedBy(w, broker) && View(a, broker) == View(b, broker)
    ensures View(Apply(a, w), broker) == View(Apply(b, w), broker)
  {
    var va, vb := View(Apply(a, w), broker), View(Apply(b, w), broker);
    forall k ensures k in va <==> k in vb {
      assert k in View(a, broker) <==> k in View(b, broker);
    }
    forall k | k in va ensures va[k] == vb[k] {
      if k in View(a, broker) {
        assert View(a, broker)[k] == View(b, broker)[k];
      }
    }
  }

  /** Non-interference: whatever the interleaving, one broker's rows are those its own writes
      alone would have left, up to the stale flag. */
  lemma {:induction false} NonInterference(rows: Rows, ws: seq<Write>, broker: string)
    requires forall w | w in ws :: WellFormedWrite(w)
    ensures View(Run(rows, ws), broker) == View(Run(rows, Own(ws, broker)), broker)
  {
    if ws != [] {
      var n := |ws| - 1;
      assert forall w | w in ws[..n] :: w in ws;
      NonInterference(rows, ws[..n], broker);
      if OwnedBy(ws[n], broker) {
        var own := Own(ws[..n], broker);
        assert (own + [ws[n]])[..|own|] == own;
        OwnWritesReadView(Run(rows, ws[..n]), Run(rows, own), ws[n], broker);
      } else {
        OthersLeaveView(Run(rows, ws[..n]), ws[n], broker);
      }
    }
  }

  lemma RefreshSetsRows(rows: Rows, broker: string, ps: seq<Position>)
    requires WellFormedWrite(Refresh(broker, ps))
    ensures RowsOf(ReplaceBroker(rows, broker, ps), broker) == ByKey(ps)
  {
    RefreshKeys(broker, ps);
  }

  /** A write of others after the fetch: nothing, or a mark on every row. */
  lemma OthersAfterFetch(rows: Rows, w: Write, broker: string, fetched: Rows, marked: bool)
    requires WellFormedWrite(w) && !OwnedBy(w, broker)
    requires RowsOf(rows, broker) == if marked then MarkStale(fetched) else fetched
    ensures RowsOf(Apply(rows, w), broker) == if marked || w.GatewayLost? then MarkStale(fetched) else fetched
  {
    if w.GatewayLost? {
      assert RowsOf(MarkStale(rows), broker) == MarkStale(RowsOf(rows, broker));
      assert MarkStale(MarkStale(fetched)) == MarkStale(fetched);
    } else {
      OthersLeaveView(rows, w, broker);
    }
  }

  /** For a polling broker, whose only writes are refreshes, the rows are the last-wins map of
      its last successful fetch, every row but cash marked stale if the IBKR gateway was lost
      since. */
  lemma {:induction false} PollingRowsAreLastFetch(rows: Rows, ws: seq<Write>, last: nat)
    requires last < |ws| && ws[last].Refresh?
    requires forall w | w in ws :: WellFormedWrite(w)
    requires forall i | last < i < |ws| :: !OwnedBy(ws[i], ws[last].broker)
    ensures RowsOf(Run(rows, ws), ws[last].broker)
         == if GatewayLost in ws[last..] then MarkStale(ByKey(ws[last].ps)) else ByKey(ws[last].ps)
    decreases |ws|
  {
    var n := |ws| - 1;
    assert ws[last] in ws && ws[n] in ws;
    if last == n {
      RefreshSetsRows(Run(rows, ws[..n]), ws[last].broker, ws[last].ps);
      assert ws[last..] == [ws[last]];
    } else {
      assert forall w | w in ws[..n] :: w in ws;
      PollingRowsAreLastFetch(rows, ws[..n], last);
      LaterLosses(ws, last);
      OthersAfterFetch(Run(rows, ws[..n]), ws[n], ws[last].broker, ByKey(ws[last].ps), GatewayLost in ws[..n][last..]);
    }
  }

  lemma LaterLosses(ws: seq<Write>, last: nat)
    requires last < |ws| - 1
    ensures var n := |ws| - 1; GatewayLost in ws[last..] <==> GatewayLost in ws[..n][last..] || ws[n] == GatewayLost
  {
    assert ws[last..] == ws[..|ws| - 1][last..] + [ws[|ws| - 1]];
  }

  /** So another broker's fresh row shows as stale once the IBKR gateway is lost. */
  lemma MarksReachOtherBrokers(p: Position)
    requires p.id.broker != "IBKR" && p.id.assetClass == Stk && !p.isStale
    ensures var t := Run(map[], [Refresh(p.id.broker, [p]), GatewayLost]);
      Key(p) in t && t[Key(p)] == p.(isStale := true)
  {
    assert [Refresh(p.id.broker, [p]), GatewayLost][..1] == [Refresh(p.id.broker, [p])];
    assert [Refresh(p.id.broker, [p])][..0] == [] && [p][..0] == [];
    assert Run(map[], [Refresh(p.id.broker, [p])]) == ReplaceBroker(map[], p.id.broker, [p]);
    assert ByKey([p]) == map[Key(p) := p];
  }

  /** When the exact rows survive a gateway loss: only if there was nothing to mark. */
  lemma StaleMarkShows(rows: Rows)
    ensures MarkStale(rows) == rows <==> forall k | k in rows :: SkipsMarking(rows[k])
  {
    if MarkStale(rows) == rows {
      forall k | k in rows ensures SkipsMarking(rows[k]) {
        assert MarkStale(rows)[k] == rows[k];
      }
    }
  }
}
