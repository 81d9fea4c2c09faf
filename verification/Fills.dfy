/**
 The fills pipeline: build_fill_row (app/core/fills.py), insert_fill (app/db/store.py), the
 live writes and their drain (app/adapters/ibkr.py) and reconcile_fills
 (app/jobs/fills_reconcile.py).
 */
module Fills {
  import opened Broker
  import Fx

  datatype Fill = Fill(
    executionId: string, accountId: string, side: string, symbol: string, exchange: string,
    conid: string, secType: string, currency: string,
    shares: real, price: real, commission: real, time: int)

  datatype Row = Row(
    broker: string, accountId: string, executionId: string, canonicalSymbol: string, nativeKey: string,
    assetClass: string, side: string, quantity: real, price: real, currency: string,
    fxRate: Option<real>, feesNative: real, feesUsd: Option<real>, filledAt: int)

  /** What building a row looks up at that moment: canonical_symbol (None where it raises) and
      the FX service, if there is one, with its supported currencies and current rates. */
  datatype Lookups = Lookups(
    canonical: (string, string) -> Option<string>, hasFx: bool, supported: set<string>, rates: map<string, real>)

  /** A row, a fill that is dropped, or the ValueError of an unsupported currency. */
  datatype Built = Ready(row: Row) | Dropped | Raised

  function SideOf(side: string): Option<string> {
    if side == "BOT" then Some("BUY") else if side == "SLD" then Some("SELL") else None
  }

  function CurrencyOf(f: Fill): string { if f.currency == "" then "USD" else f.currency }

  /** The rate at fill time; get_rate_sync raises outside USD and the supported currencies. */
  function FxAtFill(currency: string, l: Lookups): Option<real> {
    if currency == "USD" || !l.hasFx || currency !in l.rates then None else Some(l.rates[currency])
  }

  function InUsd(amount: real, rate: real): real { amount * rate }

  lemma InUsdMultiplies(amount: real, rate: real)
    ensures InUsd(amount, rate) == amount * rate
  {
  }

  /** What the recorded row owes to its fill. */
  predicate DescribesFill(r: Row, broker: string, f: Fill) {
    && r.broker == broker && r.executionId == f.executionId && r.accountId == f.accountId
    && r.nativeKey == f.conid && r.assetClass == f.secType && r.filledAt == f.time
    && r.quantity == f.shares && r.price == f.price && r.feesNative == f.commission
    && (if r.side == "BUY" then f.side == "BOT" else r.side == "SELL" && f.side == "SLD")
    && (if f.currency == "" then r.currency == "USD" else r.currency == f.currency)
  }

  /** Fees are in USD exactly when the trade is, or when a rate is recorded with it; the rate
      is the one of the trade's currency at fill time, and never of USD. */
  predicate ConvertsFees(r: Row, l: Lookups) {
    match r.fxRate
    case Some(rate) => r.currency != "USD" && l.hasFx && r.currency in l.rates && l.rates[r.currency] == rate
                       && r.feesUsd == Some(InUsd(r.feesNative, rate))
    case None => (r.currency != "USD" && l.hasFx ==> r.currency !in l.rates)
                 && r.feesUsd == if r.currency == "USD" then Some(r.feesNative) else None
  }

  function BuildFillRow(broker: string, f: Fill, l: Lookups): (b: Built)
    ensures b.Raised? <==> (SideOf(f.side).Some? && l.canonical(f.symbol, f.exchange).Some?
                            && CurrencyOf(f) != "USD" && l.hasFx && CurrencyOf(f) !in l.supported)
    ensures b.Dropped? <==> f.side !in ["BOT", "SLD"] || l.canonical(f.symbol, f.exchange).None?
    ensures b.Ready? ==> DescribesFill(b.row, broker, f) && ConvertsFees(b.row, l)
                         && l.canonical(f.symbol, f.exchange) == Some(b.row.canonicalSymbol)
  {
    var currency := CurrencyOf(f);
    match SideOf(f.side)
    case None => Dropped
    case Some(side) =>
      match l.canonical(f.symbol, f.exchange)
      case None => Dropped
      case Some(canonical) =>
        if currency != "USD" && l.hasFx && currency !in l.supported then Raised
        else
          var rate := FxAtFill(currency, l);
          var feesUsd := if currency == "USD" then Some(f.commission)
                         else if rate.Some? then Some(InUsd(f.commission, rate.value)) else None;
          Ready(Row(broker, f.accountId, f.executionId, canonical, f.conid, f.secType, side,
                    f.shares, f.price, currency, rate, f.commission, feesUsd, f.time))
  }

  /** Recorded fees are the native ones times the recorded rate of the trade's currency. */
  lemma FeesAreConverted(broker: string, f: Fill, l: Lookups, rate: real)
    requires var b := BuildFillRow(broker, f, l); b.Ready? && b.row.fxRate == Some(rate)
    ensures var r := BuildFillRow(broker, f, l).row;
      r.currency in l.rates && l.rates[r.currency] == rate && r.feesUsd == Some(f.commission * rate)
  {
    InUsdMultiplies(f.commission, rate);
    var r := BuildFillRow(broker, f, l).row;
    assert r.feesUsd == Some(InUsd(f.commission, rate));
  }

  // ---- the table ----------------------------------------------------------------------

  datatype FillKey = FillKey(broker: string, executionId: string)

  type Table = map<FillKey, Row>

  function KeyOf(r: Row): FillKey { FillKey(r.broker, r.executionId) }

  function InsertOrIgnore(t: Table, r: Row): Table {
    if KeyOf(r) in t then t else t[KeyOf(r) := r]
  }

  // ---- live writes, reconciles and the drain, interleaved -----------------------------

  /** Who inserted a row. */
  datatype Agent = LiveWrite(task: nat) | Reconcile(id: nat)

  /** A reconcile between awaits: fills still to handle, the insert it awaits, its count. */
  datatype Reconciling = Reconciling(todo: seq<Fill>, inflight: Option<Row>, count: nat)

  datatype Ended = Completed(count: nat) | Aborted

  /** disconnect(): the set it gathered and the number of writes scheduled before it began. */
  datatype Drain = NoDrain | Awaiting(tasks: set<nat>, scheduled: nat)

  /** `writes` are the unfinished insert tasks, `held` is _pending_writes, which a finished
      task leaves only in a later callback. `inserted` counts the inserts that returned True
      and `owner` remembers who made them. */
  datatype Ledger = Ledger(
    table: Table, writes: map<nat, Row>, held: set<nat>, reconciles: map<nat, Reconciling>,
    ended: map<nat, Ended>, nextId: nat, drain: Drain, inserted: nat, owner: map<FillKey, Agent>)

  datatype Event =
    | ExecDetails(fill: Fill, lookups: Lookups)
    | WriteEnded(task: nat, ok: bool)
    | WriteForgotten(task: nat)
    | ReconcileBegun(fills: seq<Fill>)
    | ReconcileResumed(id: nat, lookups: Lookups, ok: bool)
    | DrainBegun
    | DrainReturned

  function Insert(s: Ledger, r: Row, who: Agent): Ledger {
    if KeyOf(r) in s.table then s
    else s.(table := InsertOrIgnore(s.table, r), inserted := s.inserted + 1, owner := s.owner[KeyOf(r) := who])
  }

  function RowOf(b: Built): Option<Row> {
    if b.Ready? then Some(b.row) else None
  }

  /** A reconcile handles fills, or ends. */
  datatype Progress = Continue(r: Reconciling) | Stop(how: Ended)

  /** The stretch of reconcile_fills from one await to the next, when no insert is awaited. */
  function NextFill(broker: string, r: Reconciling, l: Lookups): (p: Progress)
    requires r.inflight.None?
    ensures p.Continue? ==> p.r.count == r.count && r.todo != [] && p.r.todo == r.todo[1..]
    ensures p.Continue? ==> p.r.inflight == RowOf(BuildFillRow(broker, r.todo[0], l))
                            && !BuildFillRow(broker, r.todo[0], l).Raised?
    ensures p.Stop? && p.how.Completed? ==> p.how.count == r.count && r.todo == []
    ensures p.Stop? && p.how.Aborted? ==> r.todo != [] && BuildFillRow(broker, r.todo[0], l).Raised?
  {
    if r.todo == [] then Stop(Completed(r.count))
    else
      match BuildFillRow(broker, r.todo[0], l)
      case Raised => Stop(Aborted)
      case Dropped => Continue(Reconciling(r.todo[1..], None, r.count))
      case Ready(row) => Continue(Reconciling(r.todo[1..], Some(row), r.count))
  }

  function Progressed(s: Ledger, id: nat, p: Progress): Ledger {
    match p
    case Continue(r) => s.(reconciles := s.reconciles[id := r])
    case Stop(how) => s.(reconciles := s.reconciles - {id}, ended := s.ended[id := how])
  }

  /** The awaited insert comes back, or raised and was logged. */
  function InsertReturned(s: Ledger, id: nat, row: Row, ok: bool): Ledger
    requires id in s.reconciles
  {
    var r := s.reconciles[id];
    var added := ok && KeyOf(row) !in s.table;
    var t := if ok then Insert(s, row, Reconcile(id)) else s;
    t.(reconciles := s.reconciles[id := Reconciling(r.todo, None, r.count + if added then 1 else 0)])
  }

  function ResumeReconcile(broker: string, s: Ledger, id: nat, l: Lookups, ok: bool): Ledger
    requires id in s.reconciles
  {
    match s.reconciles[id].inflight
    case Some(row) => InsertReturned(s, id, row, ok)
    case None => Progressed(s, id, NextFill(broker, s.reconciles[id], l))
  }

  predicate Enabled(s: Ledger, e: Event) {
    match e
    case WriteEnded(task, _) => task in s.writes
    case WriteForgotten(task) => task in s.held && task !in s.writes
    case ReconcileResumed(id, _, _) => id in s.reconciles
    case DrainBegun => s.drain.NoDrain?
    case DrainReturned => s.drain.Awaiting? && s.drain.tasks !! s.writes.Keys
    case _ => true
  }

  function Step(broker: string, s: Ledger, e: Event): Ledger {
    if !Enabled(s, e) then s
    else
      match e
      case ExecDetails(fill, l) =>
        (match BuildFillRow(broker, fill, l)
         case Ready(row) => s.(writes := s.writes[s.nextId := row], held := s.held + {s.nextId}, nextId := s.nextId + 1)
         case _ => s)
      case WriteEnded(task, ok) =>
        var t := s.(writes := s.writes - {task});
        if ok then Insert(t, s.writes[task], LiveWrite(task)) else t
      case WriteForgotten(task) => s.(held := s.held - {task})
      case ReconcileBegun(fills) =>
        s.(reconciles := s.reconciles[s.nextId := Reconciling(fills, None, 0)], nextId := s.nextId + 1)
      case ReconcileResumed(id, l, ok) => ResumeReconcile(broker, s, id, l, ok)
      case DrainBegun => s.(drain := Awaiting(s.held, s.nextId))
      case DrainReturned => s.(drain := NoDrain)
  }

  function Exec(broker: string, s: Ledger, es: seq<Event>): Ledger
    decreases |es|
  {
    if es == [] then s else Exec(broker, Step(broker, s, es[0]), es[1..])
  }

  /** An empty pipeline over a table left by earlier runs. */
  function Opened(table: Table): Ledger {
    Ledger(table, map[], {}, map[], map[], 0, NoDrain, 0, map[])
  }

  // ---- what every step keeps ----------------------------------------------------------

  ghost function RowsBy(owner: map<FillKey, Agent>, who: Agent): set<FillKey> {
    set k | k in owner && owner[k] == who
  }

  ghost predicate Accounts(s: Ledger) {
    && (forall id | id in s.reconciles :: id < s.nextId && id !in s.ended
                    && |RowsBy(s.owner, Reconcile(id))| == s.reconciles[id].count)
    && (forall id | id in s.ended :: id < s.nextId
                    && (s.ended[id].Completed? ==> |RowsBy(s.owner, Reconcile(id))| == s.ended[id].count))
    && (forall k | k in s.owner && s.owner[k].Reconcile? :: s.owner[k].id < s.nextId)
  }

  lemma InsertOwns(owner: map<FillKey, Agent>, k: FillKey, who: Agent, agent: Agent)
    requires k !in owner
    ensures |RowsBy(owner[k := who], agent)| == |RowsBy(owner, agent)| + if agent == who then 1 else 0
  {
    assert RowsBy(owner[k := who], agent) == RowsBy(owner, agent) + if agent == who then {k} else {};
  }

  /** `later` extends `earlier`, each new row under its own key. */
  predicate Extends(later: Table, earlier: Table) {
    && (forall k | k in earlier :: k in later && later[k] == earlier[k])
    && (forall k | k in later && k !in earlier :: KeyOf(later[k]) == k)
  }

  lemma InsertExtends(t: Table, r: Row, earlier: Table)
    requires Extends(t, earlier)
    ensures Extends(InsertOrIgnore(t, r), earlier) && Extends(InsertOrIgnore(t, r), t)
    ensures |InsertOrIgnore(t, r)| == |t| + if KeyOf(r) in t then 0 else 1
  {
    assert InsertOrIgnore(t, r).Keys == t.Keys + {KeyOf(r)};
    assert |InsertOrIgnore(t, r)| == |InsertOrIgnore(t, r).Keys|;
  }

  ghost predicate TableOk(initial: Table, s: Ledger) {
    && Extends(s.table, initial)
    && (forall k :: k in s.owner <==> k in s.table && k !in initial)
    && |s.table| == |initial| + s.inserted
  }

  lemma InsertKeepsTable(initial: Table, s: Ledger, r: Row, who: Agent)
    requires TableOk(initial, s)
    ensures TableOk(initial, Insert(s, r, who)) && Extends(Insert(s, r, who).table, s.table)
  {
    InsertExtends(s.table, r, initial);
  }

  /** A row a live write adds is on nobody's count. */
  lemma LiveInsertKeepsAccounts(s: Ledger, r: Row, task: nat)
    requires Accounts(s) && (forall k | k in s.owner :: k in s.table)
    ensures Accounts(Insert(s, r, LiveWrite(task)))
  {
    if KeyOf(r) !in s.table {
      forall id: nat
        ensures |RowsBy(s.owner[KeyOf(r) := LiveWrite(task)], Reconcile(id))| == |RowsBy(s.owner, Reconcile(id))|
      {
        InsertOwns(s.owner, KeyOf(r), LiveWrite(task), Reconcile(id));
      }
    }
  }

  /** A row a reconcile adds is on its count alone. */
  lemma ReconcileInsertKeepsAccounts(s: Ledger, id: nat, row: Row, ok: bool)
    requires Accounts(s) && (forall k | k in s.owner :: k in s.table) && id in s.reconciles
    ensures Accounts(InsertReturned(s, id, row, ok))
  {
    if ok && KeyOf(row) !in s.table {
      forall i: nat
        ensures |RowsBy(s.owner[KeyOf(row) := Reconcile(id)], Reconcile(i))|
             == |RowsBy(s.owner, Reconcile(i))| + if i == id then 1 else 0
      {
        InsertOwns(s.owner, KeyOf(row), Reconcile(id), Reconcile(i));
      }
    }
  }

  /** Handling a fill, or ending, carries the count over. */
  lemma ProgressKeepsAccounts(s: Ledger, id: nat, p: Progress)
    requires Accounts(s) && id in s.reconciles
    requires p.Continue? ==> p.r.count == s.reconciles[id].count
    requires p.Stop? && p.how.Completed? ==> p.how.count == s.reconciles[id].count
    ensures Accounts(Progressed(s, id, p))
  {
  }

  ghost predicate WritesOk(s: Ledger) {
    && s.writes.Keys <= s.held
    && (forall i | i in s.held :: i < s.nextId)
    && (s.drain.Awaiting? ==> s.drain.scheduled <= s.nextId
                              && forall i | i in s.writes && i < s.drain.scheduled :: i in s.drain.tasks)
  }

  ghost predicate Inv(initial: Table, s: Ledger) {
    TableOk(initial, s) && Accounts(s) && WritesOk(s)
  }

  lemma ProgressKeepsTable(initial: Table, s: Ledger, id: nat, p: Progress)
    requires TableOk(initial, s)
    ensures TableOk(initial, Progressed(s, id, p)) && Extends(Progressed(s, id, p).table, s.table)
  {
  }

  lemma ResumeKeepsTable(broker: string, initial: Table, s: Ledger, id: nat, l: Lookups, ok: bool)
    requires TableOk(initial, s) && id in s.reconciles
    ensures TableOk(initial, ResumeReconcile(broker, s, id, l, ok))
    ensures Extends(ResumeReconcile(broker, s, id, l, ok).table, s.table)
  {
    match s.reconciles[id].inflight
    case Some(row) => InsertKeepsTable(initial, s, row, Reconcile(id));
    case None => ProgressKeepsTable(initial, s, id, NextFill(broker, s.reconciles[id], l));
  }

  /** Every step leaves every row as it is. */
  lemma StepKeepsTable(broker: string, initial: Table, s: Ledger, e: Event)
    requires TableOk(initial, s)
    ensures TableOk(initial, Step(broker, s, e)) && Extends(Step(broker, s, e).table, s.table)
  {
    if Enabled(s, e) && e.WriteEnded? {
      InsertKeepsTable(initial, s.(writes := s.writes - {e.task}), s.writes[e.task], LiveWrite(e.task));
    } else if Enabled(s, e) && e.ReconcileResumed? {
      ResumeKeepsTable(broker, initial, s, e.id, e.lookups, e.ok);
    }
  }

  lemma ResumeKeepsAccounts(broker: string, s: Ledger, id: nat, l: Lookups, ok: bool)
    requires Accounts(s) && (forall k | k in s.owner :: k in s.table) && id in s.reconciles
    ensures Accounts(ResumeReconcile(broker, s, id, l, ok))
  {
    match s.reconciles[id].inflight
    case Some(row) => ReconcileInsertKeepsAccounts(s, id, row, ok);
    case None => ProgressKeepsAccounts(s, id, NextFill(broker, s.reconciles[id], l));
  }

  /** Only the reconcile that is resumed, or the live writes, touch the counts. */
  lemma StepKeepsAccounts(broker: string, s: Ledger, e: Event)
    requires Accounts(s) && (forall k | k in s.owner :: k in s.table)
    ensures Accounts(Step(broker, s, e))
  {
    if Enabled(s, e) {
      match e
      case WriteEnded(task, ok) => LiveInsertKeepsAccounts(s.(writes := s.writes - {task}), s.writes[task], task);
      case ReconcileResumed(id, l, ok) => ResumeKeepsAccounts(broker, s, id, l, ok);
      case ReconcileBegun(_) => assert RowsBy(s.owner, Reconcile(s.nextId)) == {};
      case _ =>
    }
  }

  lemma StepKeepsWrites(broker: string, s: Ledger, e: Event)
    requires WritesOk(s)
    ensures WritesOk(Step(broker, s, e))
  {
  }

  // ---- whole runs ---------------------------------------------------------------------

  lemma {:induction false} RunKeepsInv(broker: string, initial: Table, s: Ledger, es: seq<Event>)
    requires Inv(initial, s)
    ensures Inv(initial, Exec(broker, s, es))
    decreases |es|
  {
    if es != [] {
      StepKeepsInv(broker, initial, s, es[0]);
      RunKeepsInv(broker, initial, Step(broker, s, es[0]), es[1..]);
    }
  }

  lemma OpenedIsOk(initial: Table)
    ensures Inv(initial, Opened(initial))
  {
  }

  /** Exactly once, for every interleaving of live events, their writes and any number of
      reconciles: the table has grown by the inserts that returned True, no earlier row was
      touched, new rows sit under their own keys, and each completed reconcile counted exactly
      the new rows it inserted. */
  lemma FillsExactlyOnce(broker: string, initial: Table, es: seq<Event>)
    ensures var t := Exec(broker, Opened(initial), es);
      && |t.table| == |initial| + t.inserted
      && Extends(t.table, initial)
      && (forall k :: k in t.owner <==> k in t.table && k !in initial)
      && (forall id | id in t.ended && t.ended[id].Completed? :: t.ended[id].count == |RowsBy(t.owner, Reconcile(id))|)
  {
    OpenedIsOk(initial);
    RunKeepsInv(broker, initial, Opened(initial), es);
  }

  // At least once: what becomes of each fill.

  /** A live fill whose row can be built becomes a new unfinished write of that row, held. */
  lemma LiveFillIsScheduled(broker: string, initial: Table, s: Ledger, fill: Fill, l: Lookups)
    requires Inv(initial, s)
    ensures var t := Step(broker, s, ExecDetails(fill, l));
      match BuildFillRow(broker, fill, l)
      case Ready(row) =>
        && s.nextId !in s.writes && s.nextId !in s.held
        && t == s.(writes := s.writes[s.nextId := row], held := s.held + {s.nextId}, nextId := s.nextId + 1)
      case _ => t == s
  {
  }

  /** A write that ends well leaves its row's key in the table, under its own row if the key
      is new; one that fails leaves the table. */
  lemma WriteEnds(broker: string, s: Ledger, task: nat, ok: bool)
    requires task in s.writes
    ensures var t := Step(broker, s, WriteEnded(task, ok)); var key := KeyOf(s.writes[task]);
      && task !in t.writes
      && if ok then key in t.table && (key !in s.table ==> t.table[key] == s.writes[task]) else t.table == s.table
  {
  }

  /** So does an insert a reconcile awaits, which then counts as new exactly if it was. */
  lemma InsertReturns(s: Ledger, id: nat, row: Row, ok: bool)
    requires id in s.reconciles
    ensures var t := InsertReturned(s, id, row, ok); var r := s.reconciles[id]; var key := KeyOf(row);
      && t.reconciles == s.reconciles[id := Reconciling(r.todo, None, r.count + |t.table| - |s.table|)]
      && if ok then key in t.table && (key !in s.table ==> t.table[key] == row) else t.table == s.table
  {
    InsertExtends(s.table, row, s.table);
  }

  /** Where the row of a scheduled write is. */
  predicate Accounted(s: Ledger, task: nat, row: Row) {
    (task in s.writes && s.writes[task] == row) || KeyOf(row) in s.table
  }

  lemma StepKeepsAccounted(broker: string, initial: Table, s: Ledger, e: Event, task: nat, row: Row)
    requires Inv(initial, s) && Accounted(s, task, row) && task < s.nextId && e != WriteEnded(task, false)
    ensures Accounted(Step(broker, s, e), task, row) && task < Step(broker, s, e).nextId
  {
    if KeyOf(row) in s.table {
      StepKeepsTable(broker, initial, s, e);
    }
    if Enabled(s, e) && e.ReconcileResumed? {
      ResumeKeepsWrites(broker, s, e.id, e.lookups, e.ok);
    } else {
      OthersKeepWrite(broker, s, e, task);
    }
  }

  lemma OthersKeepWrite(broker: string, s: Ledger, e: Event, task: nat)
    requires task < s.nextId && !(Enabled(s, e) && e.ReconcileResumed?) && e != WriteEnded(task, false)
    ensures var t := Step(broker, s, e);
      && task < t.nextId
      && (task in s.writes ==> if e == WriteEnded(task, true) then KeyOf(s.writes[task]) in t.table
                               else task in t.writes && t.writes[task] == s.writes[task])
  {
  }

  lemma ResumeKeepsWrites(broker: string, s: Ledger, id: nat, l: Lookups, ok: bool)
    requires id in s.reconciles
    ensures var t := ResumeReconcile(broker, s, id, l, ok);
      t.writes == s.writes && t.held == s.held && t.nextId == s.nextId && t.drain == s.drain
  {
    if s.reconciles[id].inflight.None? {
      ProgressKeepsWrites(s, id, NextFill(broker, s.reconciles[id], l));
    }
  }

  lemma ProgressKeepsWrites(s: Ledger, id: nat, p: Progress)
    ensures var t := Progressed(s, id, p);
      t.writes == s.writes && t.held == s.held && t.nextId == s.nextId && t.drain == s.drain
  {
  }

  lemma {:induction false} RunKeepsAccounted(broker: string, initial: Table, s: Ledger, es: seq<Event>,
                                             task: nat, row: Row)
    requires Inv(initial, s) && Accounted(s, task, row) && task < s.nextId
    ensures Accounted(Exec(broker, s, es), task, row) || WriteEnded(task, false) in es
    decreases |es|
  {
    if es != [] {
      StepKeepsInv(broker, initial, s, es[0]);
      if es[0] != WriteEnded(task, false) {
        StepKeepsAccounted(broker, initial, s, es[0], task, row);
        RunKeepsAccounted(broker, initial, Step(broker, s, es[0]), es[1..], task, row);
      }
    }
  }

  lemma StepKeepsInv(broker: string, initial: Table, s: Ledger, e: Event)
    requires Inv(initial, s)
    ensures Inv(initial, Step(broker, s, e))
  {
    StepKeepsTable(broker, initial, s, e);
    StepKeepsAccounts(broker, s, e);
    StepKeepsWrites(broker, s, e);
  }

  /** At least once, for every interleaving: a live fill whose row could be built is in the
      table at the end of any run, or its write is unfinished, or its write failed. */
  lemma LiveFillsArrive(broker: string, initial: Table, before: seq<Event>, fill: Fill, l: Lookups, after: seq<Event>)
    requires BuildFillRow(broker, fill, l).Ready?
    ensures var s := Exec(broker, Opened(initial), before); var row := BuildFillRow(broker, fill, l).row;
      var t := Exec(broker, Step(broker, s, ExecDetails(fill, l)), after);
      || KeyOf(row) in t.table
      || (s.nextId in t.writes && t.writes[s.nextId] == row)
      || WriteEnded(s.nextId, false) in after
  {
    OpenedIsOk(initial);
    RunKeepsInv(broker, initial, Opened(initial), before);
    var s := Exec(broker, Opened(initial), before);
    LiveFillIsScheduled(broker, initial, s, fill, l);
    StepKeepsInv(broker, initial, s, ExecDetails(fill, l));
    RunKeepsAccounted(broker, initial, Step(broker, s, ExecDetails(fill, l)), after,
                      s.nextId, BuildFillRow(broker, fill, l).row);
  }

  /** The insert a reconcile awaits for this row comes back as a failure somewhere in the run. */
  predicate InsertFails(broker: string, s: Ledger, es: seq<Event>, id: nat, row: Row)
    decreases |es|
  {
    es != [] &&
    ((es[0].ReconcileResumed? && es[0].id == id && !es[0].ok
      && id in s.reconciles && s.reconciles[id].inflight == Some(row))
     || InsertFails(broker, Step(broker, s, es[0]), es[1..], id, row))
  }

  /** The run leaves the row's key in the table, unless that insert fails. */
  predicate Settled(broker: string, s: Ledger, es: seq<Event>, id: nat, row: Row) {
    KeyOf(row) in Exec(broker, s, es).table || InsertFails(broker, s, es, id, row)
  }

  /** Somewhere in the run the reconcile takes up the fill, with the lookups of that moment, and
      does not raise; and the row it builds, if it builds one, is settled. */
  predicate Handled(broker: string, s: Ledger, es: seq<Event>, id: nat, fill: Fill)
    decreases |es|
  {
    es != [] &&
    (HandledNow(broker, s, es, id, fill) || Handled(broker, Step(broker, s, es[0]), es[1..], id, fill))
  }

  predicate HandledNow(broker: string, s: Ledger, es: seq<Event>, id: nat, fill: Fill)
    requires es != []
  {
    && es[0].ReconcileResumed? && es[0].id == id && id in s.reconciles
    && s.reconciles[id].inflight.None? && s.reconciles[id].todo != [] && s.reconciles[id].todo[0] == fill
    && match BuildFillRow(broker, fill, es[0].lookups)
       case Ready(row) => Settled(broker, Step(broker, s, es[0]), es[1..], id, row)
       case Dropped => true
       case Raised => false
  }

  predicate Completes(broker: string, s: Ledger, es: seq<Event>, id: nat) {
    var t := Exec(broker, s, es); id in t.ended && t.ended[id].Completed?
  }

  /** Only its own resumptions move a reconcile. */
  lemma OthersLeaveReconcile(broker: string, initial: Table, s: Ledger, e: Event, id: nat)
    requires Inv(initial, s) && id in s.reconciles && !(e.ReconcileResumed? && e.id == id)
    ensures var t := Step(broker, s, e);
      id in t.reconciles && t.reconciles[id] == s.reconciles[id] && (id in t.ended <==> id in s.ended)
  {
    if Enabled(s, e) && e.ReconcileResumed? {
      OtherReconcileLeaves(broker, s, e.id, e.lookups, e.ok, id);
    }
  }

  lemma OtherReconcileLeaves(broker: string, s: Ledger, other: nat, l: Lookups, ok: bool, id: nat)
    requires other in s.reconciles && id in s.reconciles && other != id
    ensures var t := ResumeReconcile(broker, s, other, l, ok);
      id in t.reconciles && t.reconciles[id] == s.reconciles[id] && (id in t.ended <==> id in s.ended)
  {
    if s.reconciles[other].inflight.None? {
      OtherProgressLeaves(s, other, NextFill(broker, s.reconciles[other], l), id);
    }
  }

  lemma OtherProgressLeaves(s: Ledger, other: nat, p: Progress, id: nat)
    requires other in s.reconciles && id in s.reconciles && other != id
    ensures var t := Progressed(s, other, p);
      id in t.reconciles && t.reconciles[id] == s.reconciles[id] && (id in t.ended <==> id in s.ended)
  {
  }

  /** An ended reconcile stays as it ended. */
  lemma {:induction false} EndedStays(broker: string, initial: Table, s: Ledger, es: seq<Event>, id: nat)
    requires Inv(initial, s) && id in s.ended
    ensures var t := Exec(broker, s, es); id in t.ended && t.ended[id] == s.ended[id]
    decreases |es|
  {
    if es != [] {
      StepKeepsInv(broker, initial, s, es[0]);
      EndedStaysStep(broker, s, es[0], id);
      EndedStays(broker, initial, Step(broker, s, es[0]), es[1..], id);
    }
  }

  lemma EndedStaysStep(broker: string, s: Ledger, e: Event, id: nat)
    requires Accounts(s) && id in s.ended
    ensures var t := Step(broker, s, e); id in t.ended && t.ended[id] == s.ended[id]
  {
    if Enabled(s, e) && e.ReconcileResumed? && s.reconciles[e.id].inflight.None? {
      var p := NextFill(broker, s.reconciles[e.id], e.lookups);
      assert e.id != id;
    }
  }

  /** A row awaited by a reconcile that completes is settled, and so is every fill it still has. */
  lemma {:induction false} ReconcileSettles(broker: string, initial: Table, s: Ledger, es: seq<Event>, id: nat)
    requires Inv(initial, s) && id in s.reconciles && Completes(broker, s, es, id)
    ensures s.reconciles[id].inflight.Some? ==> Settled(broker, s, es, id, s.reconciles[id].inflight.value)
    ensures forall fill | fill in s.reconciles[id].todo :: Handled(broker, s, es, id, fill)
    decreases |es|
  {
    if es != [] {
      var e := es[0];
      var t := Step(broker, s, e);
      StepKeepsInv(broker, initial, s, e);
      if !(e.ReconcileResumed? && e.id == id) {
        OthersLeaveReconcile(broker, initial, s, e, id);
        ReconcileSettles(broker, initial, t, es[1..], id);
      } else if s.reconciles[id].inflight.Some? {
        InsertSettles(broker, initial, s, es, id, s.reconciles[id].inflight.value);
      } else {
        NextFillSettles(broker, initial, s, es, id);
      }
    }
  }

  lemma InsertSettles(broker: string, initial: Table, s: Ledger, es: seq<Event>, id: nat, row: Row)
    requires Inv(initial, s) && id in s.reconciles && Completes(broker, s, es, id) && es != []
    requires es[0].ReconcileResumed? && es[0].id == id && s.reconciles[id].inflight == Some(row)
    ensures Settled(broker, s, es, id, row)
    ensures forall fill | fill in s.reconciles[id].todo :: Handled(broker, s, es, id, fill)
    decreases |es|, 0
  {
    var t := Step(broker, s, es[0]);
    StepKeepsInv(broker, initial, s, es[0]);
    assert t == InsertReturned(s, id, row, es[0].ok);
    InsertReturns(s, id, row, es[0].ok);
    assert id in t.reconciles && t.reconciles[id].todo == s.reconciles[id].todo;
    ReconcileSettles(broker, initial, t, es[1..], id);
    if es[0].ok {
      RunKeepsRows(broker, initial, t, es[1..]);
    }
  }

  lemma {:induction false} RunKeepsRows(broker: string, initial: Table, s: Ledger, es: seq<Event>)
    requires Inv(initial, s)
    ensures forall k | k in s.table :: k in Exec(broker, s, es).table && Exec(broker, s, es).table[k] == s.table[k]
    decreases |es|
  {
    if es != [] {
      StepKeepsTable(broker, initial, s, es[0]);
      StepKeepsInv(broker, initial, s, es[0]);
      RunKeepsRows(broker, initial, Step(broker, s, es[0]), es[1..]);
    }
  }

  lemma NextFillSettles(broker: string, initial: Table, s: Ledger, es: seq<Event>, id: nat)
    requires Inv(initial, s) && id in s.reconciles && Completes(broker, s, es, id) && es != []
    requires es[0].ReconcileResumed? && es[0].id == id && s.reconciles[id].inflight.None?
    ensures forall fill | fill in s.reconciles[id].todo :: Handled(broker, s, es, id, fill)
    decreases |es|, 0
  {
    var r := s.reconciles[id];
    var t := Step(broker, s, es[0]);
    var p := NextFill(broker, r, es[0].lookups);
    StepKeepsInv(broker, initial, s, es[0]);
    assert t == Progressed(s, id, p);
    match p
    case Stop(how) =>
      EndedStays(broker, initial, t, es[1..], id);
    case Continue(next) =>
      assert t.reconciles[id] == next;
      ReconcileSettles(broker, initial, t, es[1..], id);
      assert HandledNow(broker, s, es, id, r.todo[0]);
      forall fill | fill in r.todo ensures Handled(broker, s, es, id, fill) {
        assert fill == r.todo[0] || fill in r.todo[1..];
      }
  }

  /** At least once again: every fill of a reconcile that completes was taken up without
      raising, and a row built of it is in the table unless its insert failed. */
  lemma ReconciledFillsArrive(broker: string, initial: Table, before: seq<Event>, fills: seq<Fill>, after: seq<Event>)
    requires var s := Exec(broker, Opened(initial), before);
      Completes(broker, Step(broker, s, ReconcileBegun(fills)), after, s.nextId)
    ensures var s := Exec(broker, Opened(initial), before);
      forall fill | fill in fills :: Handled(broker, Step(broker, s, ReconcileBegun(fills)), after, s.nextId, fill)
  {
    OpenedIsOk(initial);
    RunKeepsInv(broker, initial, Opened(initial), before);
    var s := Exec(broker, Opened(initial), before);
    StepKeepsInv(broker, initial, s, ReconcileBegun(fills));
    ReconcileSettles(broker, initial, Step(broker, s, ReconcileBegun(fills)), after, s.nextId);
  }

  /** When disconnect()'s drain returns, every write scheduled before it began has finished. */
  lemma DrainFinishesScheduledWrites(broker: string, initial: Table, es: seq<Event>)
    requires Enabled(Exec(broker, Opened(initial), es), DrainReturned)
    ensures var t := Exec(broker, Opened(initial), es);
      forall task | task in t.writes :: task >= t.drain.scheduled
  {
    OpenedIsOk(initial);
    RunKeepsInv(broker, initial, Opened(initial), es);
  }

  // ---- reconcile_fills on its own -----------------------------------------------------

  /** The table after the first n fills, for a reconcile nobody interrupts. */
  function Reconciled(broker: string, t: Table, fills: seq<Fill>, l: Lookups, failing: set<nat>, n: nat): Table
    requires n <= |fills|
  {
    if n == 0 then t
    else
      var before := Reconciled(broker, t, fills, l, failing, n - 1);
      match BuildFillRow(broker, fills[n - 1], l)
      case Ready(row) => if n - 1 in failing then before else InsertOrIgnore(before, row)
      case _ => before
  }

  /** A failed fetch is logged and reads as no fills. */
  function Fetched(fetched: Option<seq<Fill>>): seq<Fill> {
    if fetched.Some? then fetched.value else []
  }

  predicate Unsupported(broker: string, f: Fill, l: Lookups) {
    BuildFillRow(broker, f, l).Raised?
  }

  predicate FirstUnsupported(broker: string, fills: seq<Fill>, l: Lookups, i: nat)
    requires i < |fills|
  {
    Unsupported(broker, fills[i], l) && forall j | 0 <= j < i :: !Unsupported(broker, fills[j], l)
  }

  /** A purchase in CNY aborts the whole batch, whatever comes with it. */
  lemma YuanFillAborts(broker: string, fills: seq<Fill>, l: Lookups, i: nat)
    requires i < |fills| && l.hasFx && l.supported == Fx.SUPPORTED
    requires fills[i].side == "BOT" && fills[i].currency == "CNY"
    requires l.canonical(fills[i].symbol, fills[i].exchange).Some?
    ensures Unsupported(broker, fills[i], l) && exists j :: 0 <= j <= i && FirstUnsupported(broker, fills, l, j)
  {
    FirstOfUnsupported(broker, fills, l, i);
  }

  lemma {:induction false} FirstOfUnsupported(broker: string, fills: seq<Fill>, l: Lookups, i: nat)
    requires i < |fills| && Unsupported(broker, fills[i], l)
    ensures exists j :: 0 <= j <= i && FirstUnsupported(broker, fills, l, j)
    decreases i
  {
    if j :| 0 <= j < i && Unsupported(broker, fills[j], l) {
      FirstOfUnsupported(broker, fills, l, j);
    } else {
      assert FirstUnsupported(broker, fills, l, i);
    }
  }

  class FillStore {
    var rows: Table

    constructor ()
      ensures rows == map[]
    {
      rows := map[];
    }

    method InsertFill(r: Row) returns (inserted: bool)
      modifies this
      ensures rows == InsertOrIgnore(old(rows), r)
      ensures |rows| == |old(rows)| + if inserted then 1 else 0
    {
      inserted := KeyOf(r) !in rows;
      if inserted {
        ghost var before := rows;
        rows := rows[KeyOf(r) := r];
        assert rows.Keys == before.Keys + {KeyOf(r)};
        assert |rows.Keys| == |before.Keys| + 1;
      }
    }

    /** reconcile_fills, given what its fetch brought back, if it did. Its documentation says
        it never raises; it does, exactly when some fill has a known side and venue and an
        unsupported currency, and then the fills before that one are in the table and the
        count is lost. */
    method ReconcileFills(broker: string, fetched: Option<seq<Fill>>, l: Lookups, failing: set<nat>) returns (r: Ended)
      modifies this
      ensures fetched.None? ==> r == Completed(0) && rows == old(rows)
      ensures var fills := Fetched(fetched);
        r.Aborted? <==> exists i :: 0 <= i < |fills| && Unsupported(broker, fills[i], l)
      ensures var fills := Fetched(fetched);
        r.Completed? ==>
          r.count == |rows| - |old(rows)| && rows == Reconciled(broker, old(rows), fills, l, failing, |fills|)
      ensures var fills := Fetched(fetched);
        r.Aborted? ==> exists i :: 0 <= i < |fills| && FirstUnsupported(broker, fills, l, i)
                                         && rows == Reconciled(broker, old(rows), fills, l, failing, i)
    {
      if fetched.None? {
        return Completed(0);
      }
      ghost var handled;
      r, handled := ReconcileEach(broker, fetched.value, l, failing);
      assert r.Aborted? ==> FirstUnsupported(broker, Fetched(fetched), l, handled);
    }

    /** `handled` fills went by before it ended. */
    method ReconcileEach(broker: string, fills: seq<Fill>, l: Lookups, failing: set<nat>)
      returns (r: Ended, ghost handled: nat)
      modifies this
      ensures handled <= |fills| && forall i | 0 <= i < handled :: !Unsupported(broker, fills[i], l)
      ensures rows == Reconciled(broker, old(rows), fills, l, failing, handled)
      ensures r.Completed? ==> handled == |fills| && r.count == |rows| - |old(rows)|
      ensures r.Aborted? ==> handled < |fills| && Unsupported(broker, fills[handled], l)
    {
      var newCount := 0;
      var i := 0;
      while i < |fills|
        invariant i <= |fills|
        invariant rows == Reconciled(broker, old(rows), fills, l, failing, i)
        invariant |rows| == |old(rows)| + newCount
        invariant forall j | 0 <= j < i :: !Unsupported(broker, fills[j], l)
      {
        var built := BuildFillRow(broker, fills[i], l);
        if built.Raised? {
          return Aborted, i;
        }
        if built.Ready? && i !in failing {
          var inserted := InsertFill(built.row);
          if inserted {
            newCount := newCount + 1;
          }
        }
        i := i + 1;
      }
      return Completed(newCount), i;
    }
  }
}
