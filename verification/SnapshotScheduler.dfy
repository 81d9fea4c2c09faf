/**
 The equity-snapshot loop (app/jobs/snapshot.py): sleep until the soonest close of a held
 exchange, capture one row per account, repeat; back off while nothing is held.
 */
module SnapshotScheduler {
  import opened Broker
  import opened MarketHours

  const SECOND := 1_000_000
  const RECHECK_CAP := 3600.0

  // ---- the soonest close --------------------------------------------------------------

  function HeldExchanges(ps: seq<Position>): set<string> {
    set p | p in ps && p.id.assetClass == Stk && p.id.exchange != "" :: p.id.exchange
  }

  lemma HeldAreStocks(ps: seq<Position>, exchange: string)
    ensures exchange in HeldExchanges(ps)
       <==> exchange != "" && exists p | p in ps :: p.id.assetClass != Cash && p.id.exchange == exchange
  {
  }

  datatype Target = Target(exchange: string, at: int)

  /** Exchanges whose next_close_at finds a close, each at its own clock reading. */
  ghost predicate Closing(hours: map<string, Calendar>, clocks: map<string, int>, exchange: string) {
    exchange in hours && exchange in clocks && ClosesInWindow(hours[exchange], clocks[exchange])
  }

  /** `r` is the soonest close: no held exchange closes between its clock reading and it. */
  ghost predicate Soonest(hours: map<string, Calendar>, clocks: map<string, int>, held: set<string>,
                          r: Option<Target>) {
    match r
    case None => forall e | e in held :: !Closing(hours, clocks, e)
    case Some(t) =>
      && t.exchange in held && Closing(hours, clocks, t.exchange)
      && ClosesAt(hours[t.exchange], t.at) && t.at > clocks[t.exchange]
      && forall e, x | e in held && Closing(hours, clocks, e) && ClosesAt(hours[e], x) && x > clocks[e] :: x >= t.at
  }

  ghost predicate Calendars(hours: map<string, Calendar>) {
    forall e | e in hours :: WellFormed(hours[e])
  }

  /** The sooner of two closes. */
  function Sooner(soonest: Option<Target>, e: string, close: Option<int>): Option<Target> {
    if close.Some? && (soonest.None? || close.value < soonest.value.at) then Some(Target(e, close.value)) else soonest
  }

  /** What next_close_at promises of one exchange; None for one without a calendar. */
  ghost predicate NextCloseOf(hours: map<string, Calendar>, clocks: map<string, int>, e: string, close: Option<int>) {
    match close
    case None => !Closing(hours, clocks, e)
    case Some(x) =>
      && Closing(hours, clocks, e) && ClosesAt(hours[e], x) && x > clocks[e]
      && forall y | ClosesAt(hours[e], y) && y > clocks[e] :: y >= x
  }

  lemma SoonerIsSoonest(hours: map<string, Calendar>, clocks: map<string, int>, held: set<string>, r: Option<Target>,
                        e: string, close: Option<int>)
    requires Soonest(hours, clocks, held, r) && NextCloseOf(hours, clocks, e, close)
    ensures Soonest(hours, clocks, held + {e}, Sooner(r, e, close))
  {
  }

  /** _next_close_across_held_exchanges; exchanges without a calendar are skipped. */
  method NextCloseAcrossHeld(ps: seq<Position>, hours: map<string, Calendar>, clocks: map<string, int>)
    returns (soonest: Option<Target>)
    requires Calendars(hours) && HeldExchanges(ps) <= clocks.Keys
    ensures Soonest(hours, clocks, HeldExchanges(ps), soonest)
  {
    soonest := None;
    var held := HeldExchanges(ps);
    var todo := held;
    while todo != {}
      invariant todo <= held
      invariant Soonest(hours, clocks, held - todo, soonest)
    {
      var e :| e in todo;
      assert held - (todo - {e}) == (held - todo) + {e};
      todo := todo - {e};
      var close := NextCloseOn(hours, clocks, e);
      SoonerIsSoonest(hours, clocks, held - (todo + {e}), soonest, e, close);
      soonest := Sooner(soonest, e, close);
    }
    assert held - todo == held;
  }

  method NextCloseOn(hours: map<string, Calendar>, clocks: map<string, int>, e: string) returns (close: Option<int>)
    requires Calendars(hours) && e in clocks
    ensures NextCloseOf(hours, clocks, e, close)
  {
    close := None;
    if e in hours {
      close := NextCloseAt(hours[e], clocks[e]);
    }
  }

  // ---- the loop -----------------------------------------------------------------------

  /** What the environment supplies to one round: the positions (None when get_positions
      failed), the clock at the round's start and at each read, and when its last sleep ended. */
  datatype Round = Round(
    positions: Option<seq<Position>>, start: int, clocks: map<string, int>, current: int, woke: int)

  function PositionsOf(r: Round): seq<Position> {
    if r.positions.Some? then r.positions.value else []
  }

  function Held(r: Round): set<string> { HeldExchanges(PositionsOf(r)) }

  datatype Action = Rechecked(delay: real) | Captured(target: Target, slept: int)

  function Max0(x: int): int { if x > 0 then x else 0 }

  function MinReal(x: real, y: real): real { if x < y then x else y }

  function Power2(k: nat): real { if k == 0 then 1.0 else 2.0 * Power2(k - 1) }

  /** The sleep of an empty round that follows k empty rounds since the last capture: for a
      base within the cap that is min(base * 2^k, cap) for every k. */
  function RecheckDelay(base: real, k: nat): real {
    if k == 0 then base else MinReal(base * Power2(k), RECHECK_CAP)
  }

  lemma {:induction false} PowersArePositive(k: nat)
    ensures Power2(k) >= 1.0
  {
    if k > 0 { PowersArePositive(k - 1); }
  }

  /** For a base within the cap the delay is base·2^k up to the cap and the cap from there on. */
  lemma BackoffIsCapped(base: real, k: nat)
    requires 0.0 < base <= RECHECK_CAP
    ensures base <= RecheckDelay(base, k) <= RECHECK_CAP
    ensures RecheckDelay(base, k) == if base * Power2(k) <= RECHECK_CAP then base * Power2(k) else RECHECK_CAP
  {
    PowersArePositive(k);
    assert base * Power2(k) >= base;
    if k == 0 {
      assert base * Power2(0) == base;
    }
  }

  /** Empty rounds since the last capture. */
  function EmptyStreak(log: seq<Action>): nat {
    if log == [] || log[|log| - 1].Captured? then 0 else 1 + EmptyStreak(log[..|log| - 1])
  }

  ghost predicate RoundDone(hours: map<string, Calendar>, base: real, r: Round, streak: nat, a: Action) {
    match a
    case Rechecked(delay) => Soonest(hours, r.clocks, Held(r), None) && delay == RecheckDelay(base, streak)
    case Captured(target, slept) =>
      Soonest(hours, r.clocks, Held(r), Some(target)) && slept == Max0(target.at - r.current)
  }

  lemma DoublingCapped(base: real, k: nat)
    requires base >= 0.0
    ensures MinReal(RecheckDelay(base, k) * 2.0, RECHECK_CAP) == RecheckDelay(base, k + 1)
  {
    assert Power2(k + 1) == 2.0 * Power2(k);
    assert base * Power2(k + 1) == (base * Power2(k)) * 2.0;
    if k == 0 {
      assert base * Power2(0) == base;
    }
  }

  /** One round, with the recheck delay it leaves for the next. */
  method RunRound(hours: map<string, Calendar>, base: real, r: Round, ghost streak: nat, emptyDelay: real)
    returns (a: Action, nextDelay: real)
    requires Calendars(hours) && base >= 0.0 && Held(r) <= r.clocks.Keys
    requires emptyDelay == RecheckDelay(base, streak)
    ensures RoundDone(hours, base, r, streak, a)
    ensures nextDelay == RecheckDelay(base, if a.Captured? then 0 else streak + 1)
  {
    var target := NextCloseAcrossHeld(PositionsOf(r), hours, r.clocks);
    if target.None? {
      a := Rechecked(emptyDelay);
      DoublingCapped(base, streak);
      nextDelay := MinReal(emptyDelay * 2.0, RECHECK_CAP);
    } else {
      a := Captured(target.value, Max0(target.value.at - r.current));
      nextDelay := base;
    }
  }

  /** Each round did what its inputs and the rounds before it call for. */
  ghost predicate RunDone(hours: map<string, Calendar>, base: real, rounds: seq<Round>, log: seq<Action>) {
    |log| == |rounds| &&
    (log == [] ||
      var n := |log| - 1;
      RunDone(hours, base, rounds[..n], log[..n]) && RoundDone(hours, base, rounds[n], EmptyStreak(log[..n]), log[n]))
  }

  lemma {:induction false} RunDoneAt(hours: map<string, Calendar>, base: real, rounds: seq<Round>, log: seq<Action>,
                                     k: nat)
    requires RunDone(hours, base, rounds, log) && k < |log|
    ensures RoundDone(hours, base, rounds[k], EmptyStreak(log[..k]), log[k])
  {
    var n := |log| - 1;
    if k < n {
      RunDoneAt(hours, base, rounds[..n], log[..n], k);
      assert log[..n][..k] == log[..k];
    }
  }

  /** scheduled_snapshot_loop over any number of rounds. */
  method ScheduledSnapshotLoop(hours: map<string, Calendar>, base: real, rounds: seq<Round>) returns (log: seq<Action>)
    requires Calendars(hours) && base >= 0.0
    requires forall r | r in rounds :: Held(r) <= r.clocks.Keys
    ensures RunDone(hours, base, rounds, log)
  {
    log := [];
    var emptyDelay := base;
    while |log| < |rounds|
      invariant |log| <= |rounds|
      invariant emptyDelay == RecheckDelay(base, EmptyStreak(log))
      invariant RunDone(hours, base, rounds[..|log|], log)
    {
      var a, next := RunRound(hours, base, rounds[|log|], EmptyStreak(log), emptyDelay);
      assert (log + [a])[..|log|] == log && rounds[..|log| + 1][..|log|] == rounds[..|log|];
      log := log + [a];
      emptyDelay := next;
    }
    assert rounds[..|log|] == rounds;
  }

  // ---- what the schedule guarantees ---------------------------------------------------

  /** The clock is monotone and no sleep returns early. */
  ghost predicate Timely(rounds: seq<Round>, log: seq<Action>)
    requires |log| == |rounds|
  {
    && (forall k | 0 <= k < |rounds| ::
          && (forall e | e in rounds[k].clocks :: rounds[k].start <= rounds[k].clocks[e] <= rounds[k].current)
          && rounds[k].start <= rounds[k].current <= rounds[k].woke
          && (log[k].Captured? ==> rounds[k].woke >= rounds[k].current + log[k].slept + SECOND))
    && (forall k | 0 < k < |rounds| :: rounds[k - 1].woke <= rounds[k].start)
  }

  lemma {:induction false} TimePasses(rounds: seq<Round>, log: seq<Action>, i: nat, j: nat)
    requires |log| == |rounds| && Timely(rounds, log) && i < j < |rounds|
    ensures rounds[i].woke <= rounds[j].start
  {
    if i + 1 < j {
      TimePasses(rounds, log, i, j - 1);
      assert rounds[j - 1].woke <= rounds[j].start;
    } else {
      assert rounds[j - 1].woke <= rounds[j].start;
    }
  }

  /** Captured instants strictly increase over the whole run, and no exchange a round held
      closes between the clock reading made for it and the instant the round chose. */
  lemma CapturesIncrease(hours: map<string, Calendar>, base: real, rounds: seq<Round>, log: seq<Action>, i: nat, j: nat)
    requires RunDone(hours, base, rounds, log) && Timely(rounds, log) && i < j < |rounds|
    requires log[i].Captured? && log[j].Captured?
    ensures log[i].target.at < log[j].target.at
    ensures forall e, x | e in Held(rounds[j]) && Closing(hours, rounds[j].clocks, e) && ClosesAt(hours[e], x) ::
      !(rounds[j].clocks[e] < x < log[j].target.at)
  {
    TimePasses(rounds, log, i, j);
    RunDoneAt(hours, base, rounds, log, i);
    RunDoneAt(hours, base, rounds, log, j);
    assert rounds[i].woke >= rounds[i].current + log[i].slept + SECOND;
    assert rounds[j].start <= rounds[j].clocks[log[j].target.exchange];
  }

  /** So it is in every round, the first included. */
  lemma NoHeldCloseIsPassedOver(hours: map<string, Calendar>, base: real, rounds: seq<Round>, log: seq<Action>,
                                j: nat, e: string)
    requires RunDone(hours, base, rounds, log) && j < |log| && e in Held(rounds[j])
    requires Closing(hours, rounds[j].clocks, e)
    ensures log[j].Captured?
    ensures forall x | ClosesAt(hours[e], x) :: !(rounds[j].clocks[e] < x < log[j].target.at)
  {
    RunDoneAt(hours, base, rounds, log, j);
  }

  // ---- the captured rows --------------------------------------------------------------

  /** The primary key; the session is the exchange's "_CLOSE" tag. */
  datatype SnapshotKey = SnapshotKey(at: int, session: string, broker: string, accountId: string)

  datatype Account = Account(broker: string, accountId: string, nlv: real)

  function SnapshotKeyOf(t: Target, a: Account): SnapshotKey {
    SnapshotKey(t.at, t.exchange + "_CLOSE", a.broker, a.accountId)
  }

  function InsertOrIgnore(rows: map<SnapshotKey, real>, key: SnapshotKey, nlv: real): map<SnapshotKey, real> {
    if key in rows then rows else rows[key := nlv]
  }

  /** Rows a capture offers; accounts whose row could not be built or written are left out. */
  function Offered(t: Target, accounts: seq<Account>, failed: set<nat>, n: nat): map<SnapshotKey, real>
    requires n <= |accounts|
  {
    if n == 0 then map[]
    else if n - 1 in failed then Offered(t, accounts, failed, n - 1)
    else InsertOrIgnore(Offered(t, accounts, failed, n - 1), SnapshotKeyOf(t, accounts[n - 1]), accounts[n - 1].nlv)
  }

  lemma InsertBehind(offered: map<SnapshotKey, real>, rows: map<SnapshotKey, real>, key: SnapshotKey, nlv: real)
    ensures InsertOrIgnore(offered + rows, key, nlv) == InsertOrIgnore(offered, key, nlv) + rows
  {
  }

  class EquitySnapshots {
    var rows: map<SnapshotKey, real>

    constructor ()
      ensures rows == map[]
    {
      rows := map[];
    }

    /** INSERT OR IGNORE. */
    method Insert(key: SnapshotKey, nlv: real) returns (inserted: bool)
      modifies this
      ensures rows == InsertOrIgnore(old(rows), key, nlv)
      ensures |rows| == |old(rows)| + if inserted then 1 else 0
    {
      inserted := key !in rows;
      if inserted {
        ghost var before := rows;
        rows := rows[key := nlv];
        assert rows.Keys == before.Keys + {key};
        assert |rows.Keys| == |before.Keys| + 1;
      }
    }

    /** _capture_snapshot: every row already there stays as it is, the rest is added, and the
        count returned is the number of rows added. */
    method Capture(t: Target, accounts: seq<Account>, failed: set<nat>) returns (inserted: nat)
      modifies this
      ensures rows == Offered(t, accounts, failed, |accounts|) + old(rows)
      ensures inserted == |rows| - |old(rows)|
    {
      inserted := 0;
      ghost var before := rows;
      for i := 0 to |accounts|
        invariant rows == Offered(t, accounts, failed, i) + before
        invariant |rows| == |before| + inserted
      {
        if i !in failed {
          var key := SnapshotKeyOf(t, accounts[i]);
          InsertBehind(Offered(t, accounts, failed, i), before, key, accounts[i].nlv);
          var added := Insert(key, accounts[i].nlv);
          if added {
            inserted := inserted + 1;
          }
        }
      }
    }
  }

  /** A capture offers one row per account whose row could be built and written, under the
      closing instant, the exchange's session tag, its broker and its account id, with the
      value of the first such account. */
  lemma {:induction false} OfferedRows(t: Target, accounts: seq<Account>, failed: set<nat>, n: nat, i: nat)
    requires i < n <= |accounts| && i !in failed
    requires forall j | 0 <= j < i && j !in failed ::
      accounts[j].broker != accounts[i].broker || accounts[j].accountId != accounts[i].accountId
    ensures var key := SnapshotKey(t.at, t.exchange + "_CLOSE", accounts[i].broker, accounts[i].accountId);
      key in Offered(t, accounts, failed, n) && Offered(t, accounts, failed, n)[key] == accounts[i].nlv
  {
    if i < n - 1 {
      OfferedRows(t, accounts, failed, n - 1, i);
    } else {
      NotOfferedYet(t, accounts, failed, i, accounts[i]);
    }
  }

  lemma {:induction false} NotOfferedYet(t: Target, accounts: seq<Account>, failed: set<nat>, n: nat, a: Account)
    requires n <= |accounts|
    requires forall j | 0 <= j < n && j !in failed ::
      accounts[j].broker != a.broker || accounts[j].accountId != a.accountId
    ensures SnapshotKeyOf(t, a) !in Offered(t, accounts, failed, n)
  {
    if n > 0 { NotOfferedYet(t, accounts, failed, n - 1, a); }
  }

  /** Two captures of one run offer disjoint keys, whatever their accounts. */
  lemma CapturesNeverCollide(hours: map<string, Calendar>, base: real, rounds: seq<Round>, log: seq<Action>,
                             i: nat, j: nat,
                             as1: seq<Account>, f1: set<nat>, as2: seq<Account>, f2: set<nat>)
    requires RunDone(hours, base, rounds, log) && Timely(rounds, log) && i < j < |rounds|
    requires log[i].Captured? && log[j].Captured?
    ensures Offered(log[i].target, as1, f1, |as1|).Keys !! Offered(log[j].target, as2, f2, |as2|).Keys
  {
    CapturesIncrease(hours, base, rounds, log, i, j);
    OfferedAt(log[i].target, as1, f1, |as1|);
    OfferedAt(log[j].target, as2, f2, |as2|);
  }

  lemma {:induction false} OfferedAt(t: Target, accounts: seq<Account>, failed: set<nat>, n: nat)
    requires n <= |accounts|
    ensures forall k | k in Offered(t, accounts, failed, n) :: k.at == t.at
  {
    if n > 0 {
      OfferedAt(t, accounts, failed, n - 1);
    }
  }
}
