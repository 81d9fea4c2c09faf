/**
 stream_events (app/core/live_positions.py): one SSE client over one LivePositions store,
 as atomic steps cut at every await and yield, with any store writes in between.
 */
module EventStream {
  import opened Broker
  import opened LivePositions

  /** `hash` stands for hash_position, a function of the row about which nothing is assumed. */
  datatype Config = Config(hash: Position -> int, minInterval: real)

  type Hashes = map<PositionKey, int>

  function HashRows(c: Config, rows: Rows): Hashes {
    map k | k in rows :: c.hash(rows[k])
  }

  /** Suspended at a yield of rows with these hashes, at a heartbeat yield, in
      wait_for_change, or in the throttle's sleep. */
  datatype Pc = Unconnected | Yielded(hashes: Hashes) | Beating | Waiting | Throttled(until: real)

  /** A snapshot or positions event, with the hashes of the rows it rendered. */
  datatype Payload = Payload(at: real, hashes: Hashes)

  datatype Stream = Stream(
    rows: Rows, changed: bool, now: real,
    pc: Pc, lastHashes: Hashes, lastEmit: real,
    log: seq<Payload>)

  datatype Event =
    | StoreWritten(rows: Rows)
    | TimePassed(seconds: real)
    | ClientJoined
    | Resumed
    | HeartbeatDue
    | Woken
    | SleepOver

  function Emit(s: Stream, hashes: Hashes): Stream {
    s.(pc := Yielded(hashes), log := s.log + [Payload(s.now, hashes)])
  }

  /** Read the store and emit only what differs from the last rendered hashes. */
  function Compare(c: Config, s: Stream): Stream {
    var hashes := HashRows(c, s.rows);
    if hashes != s.lastHashes then Emit(s, hashes) else s.(pc := Waiting)
  }

  predicate Enabled(s: Stream, e: Event) {
    match e
    case StoreWritten(_) => true
    case TimePassed(d) => d >= 0.0
    case ClientJoined => s.pc.Unconnected?
    case Resumed => s.pc.Yielded? || s.pc.Beating?
    case HeartbeatDue => s.pc.Waiting?
    case Woken => s.pc.Waiting? && s.changed
    case SleepOver => s.pc.Throttled? && s.now >= s.pc.until
  }

  function Step(c: Config, s: Stream, e: Event): Stream {
    if !Enabled(s, e) then s
    else
      match e
      case StoreWritten(rows) => s.(rows := rows, changed := s.changed || rows != s.rows)
      case TimePassed(d) => s.(now := s.now + d)
      case ClientJoined => Emit(s, HashRows(c, s.rows))
      case Resumed =>
        if s.pc.Beating? then s.(pc := Waiting)
        else s.(pc := Waiting, lastHashes := s.pc.hashes, lastEmit := s.now)
      case HeartbeatDue => s.(pc := Beating)
      case Woken =>
        var t := s.(changed := false);
        if s.now - s.lastEmit < c.minInterval
        then t.(pc := Throttled(s.now + (c.minInterval - (s.now - s.lastEmit))))
        else Compare(c, t)
      case SleepOver => Compare(c, s)
  }

  function Exec(c: Config, s: Stream, es: seq<Event>): Stream
    decreases |es|
  {
    if es == [] then s else Exec(c, Step(c, s, es[0]), es[1..])
  }

  predicate Fresh(s: Stream) {
    s.pc.Unconnected? && s.log == []
  }

  // ---- what every step keeps --------------------------------------------------------

  /** The hashes the client is (or is about to be) comparing with. */
  function Rendered(s: Stream): Hashes {
    if s.pc.Yielded? then s.pc.hashes else s.lastHashes
  }

  /** Each positions event differs from the payload before it and comes minInterval after it. */
  ghost predicate Spaced(c: Config, log: seq<Payload>) {
    forall i | 0 < i < |log| ::
      log[i].hashes != log[i - 1].hashes && log[i].at >= log[i - 1].at + c.minInterval
  }

  ghost predicate Inv(c: Config, s: Stream) {
    && Spaced(c, s.log)
    && (s.pc.Unconnected? <==> s.log == [])
    && (s.log != [] ==>
          var last := s.log[|s.log| - 1];
          last.hashes == Rendered(s) && last.at <= s.now && (!s.pc.Yielded? ==> last.at <= s.lastEmit <= s.now))
    && (s.pc.Throttled? ==> s.pc.until == s.lastEmit + c.minInterval)
    && (!s.changed && !s.pc.Unconnected? && !s.pc.Throttled? ==> HashRows(c, s.rows) == Rendered(s))
  }

  /** Comparing keeps the spacing, because the throttle has passed. */
  lemma CompareKeepsInv(c: Config, s: Stream)
    requires Spaced(c, s.log) && s.log != [] && !s.pc.Yielded? && s.now >= s.lastEmit + c.minInterval
    requires var last := s.log[|s.log| - 1]; last.hashes == s.lastHashes && last.at <= s.lastEmit <= s.now
    ensures Inv(c, Compare(c, s)) && s.log <= Compare(c, s).log
  {
  }

  /** Joining and comparing are the only steps that emit; the others keep the log. */
  lemma QuietStepKeepsInv(c: Config, s: Stream, e: Event)
    requires Inv(c, s) && !e.ClientJoined? && !e.Woken? && !e.SleepOver?
    ensures Inv(c, Step(c, s, e)) && s.log == Step(c, s, e).log
  {
  }

  lemma StepKeepsInv(c: Config, s: Stream, e: Event)
    requires Inv(c, s)
    ensures Inv(c, Step(c, s, e))
    ensures s.log <= Step(c, s, e).log
  {
    if e.ClientJoined? || !Enabled(s, e) {
    } else if e.Woken? && s.now - s.lastEmit >= c.minInterval {
      CompareKeepsInv(c, s.(changed := false));
    } else if e.SleepOver? {
      CompareKeepsInv(c, s);
    } else if !e.Woken? {
      QuietStepKeepsInv(c, s, e);
    }
  }

  lemma {:induction false} RunKeepsInv(c: Config, s: Stream, es: seq<Event>)
    requires Inv(c, s)
    ensures Inv(c, Exec(c, s, es))
    decreases |es|
  {
    if es != [] {
      StepKeepsInv(c, s, es[0]);
      RunKeepsInv(c, Step(c, s, es[0]), es[1..]);
    }
  }

  /** Over every run of writes and client steps: a client that waits with the change event
      clear has rendered the store as it is, and its payloads are distinct and spaced. */
  lemma NoUpdateLost(c: Config, s: Stream, es: seq<Event>)
    requires Fresh(s)
    ensures var t := Exec(c, s, es);
      && (t.pc.Waiting? && !t.changed ==>
            t.log != [] && t.log[|t.log| - 1].hashes == HashRows(c, t.rows))
      && (forall i | 0 < i < |t.log| ::
            t.log[i].hashes != t.log[i - 1].hashes && t.log[i].at >= t.log[i - 1].at + c.minInterval)
  {
    RunKeepsInv(c, s, es);
  }

  /** The throttle never holds a change back longer than minInterval after the last payload was
      taken, and not at all later than that. */
  lemma ThrottleIsExact(c: Config, s: Stream, es: seq<Event>)
    requires Fresh(s)
    ensures var t := Exec(c, s, es);
      && (t.pc.Throttled? ==> t.pc.until == t.lastEmit + c.minInterval)
      && (t.pc.Waiting? && t.changed ==>
            (Step(c, t, Woken).pc.Throttled? <==> t.now < t.lastEmit + c.minInterval))
  {
    RunKeepsInv(c, s, es);
  }

  // ---- a quiet store is always caught up with ------------------------------------------

  predicate CaughtUp(s: Stream) { !s.changed && (s.pc.Waiting? || s.pc.Beating?) }

  /** A step of the client other than a heartbeat: waking, ending the throttle's sleep, or
      coming back from a yield of rows. */
  predicate Productive(s: Stream, e: Event) {
    Enabled(s, e) && (e.Woken? || e.SleepOver? || (e.Resumed? && s.pc.Yielded?))
  }

  /** Productive steps left before the client has caught up. */
  function Behind(s: Stream): nat {
    (if s.changed then 3 else 0) + if s.pc.Throttled? then 2 else if s.pc.Yielded? then 1 else 0
  }

  function ProductiveSteps(c: Config, s: Stream, es: seq<Event>): nat
    decreases |es|
  {
    if es == [] then 0
    else (if Productive(s, es[0]) then 1 else 0) + ProductiveSteps(c, Step(c, s, es[0]), es[1..])
  }

  predicate WriteFree(es: seq<Event>) { forall e | e in es :: !e.StoreWritten? }

  lemma QuietStepCatchesUp(c: Config, s: Stream, e: Event)
    requires !s.pc.Unconnected? && !e.StoreWritten?
    ensures var t := Step(c, s, e);
      !t.pc.Unconnected? && t.rows == s.rows && Behind(t) + (if Productive(s, e) then 1 else 0) <= Behind(s)
  {
  }

  lemma {:induction false} QuietRunCatchesUp(c: Config, s: Stream, es: seq<Event>)
    requires !s.pc.Unconnected? && WriteFree(es)
    ensures var t := Exec(c, s, es);
      !t.pc.Unconnected? && t.rows == s.rows && Behind(t) + ProductiveSteps(c, s, es) <= Behind(s)
    decreases |es|
  {
    if es != [] {
      assert es[0] in es && forall e | e in es[1..] :: e in es;
      QuietStepCatchesUp(c, s, es[0]);
      QuietRunCatchesUp(c, Step(c, s, es[0]), es[1..]);
    }
  }

  /** Once writes stop, whatever the client does and however many heartbeats come between, it
      takes at most five productive steps, and after as many as it is behind its last payload
      equals the store. */
  lemma QuietStoreIsCaughtUp(c: Config, s: Stream, es: seq<Event>)
    requires Inv(c, s) && !s.pc.Unconnected? && WriteFree(es)
    ensures ProductiveSteps(c, s, es) <= Behind(s) <= 5
    ensures var t := Exec(c, s, es);
      ProductiveSteps(c, s, es) == Behind(s) || CaughtUp(t) ==>
        CaughtUp(t) && t.log != [] && t.log[|t.log| - 1].hashes == HashRows(c, s.rows)
  {
    QuietRunCatchesUp(c, s, es);
    RunKeepsInv(c, s, es);
  }

  /** And it is never stuck before: a productive step is there to take at once, after the
      heartbeat it is yielding, or after the rest of its sleep. */
  lemma BehindCanProceed(c: Config, s: Stream) returns (es: seq<Event>)
    requires !s.pc.Unconnected? && !CaughtUp(s)
    ensures WriteFree(es) && |es| <= 2 && ProductiveSteps(c, s, es) >= 1
  {
    match s.pc
    case Throttled(until) =>
      if s.now < until {
        es := [TimePassed(until - s.now), SleepOver];
        SecondIsProductive(c, s, es[0], es[1]);
      } else {
        es := [SleepOver];
      }
    case Beating =>
      es := [Resumed, Woken];
      SecondIsProductive(c, s, es[0], es[1]);
    case Waiting => es := [Woken];
    case Yielded(_) => es := [Resumed];
  }

  lemma SecondIsProductive(c: Config, s: Stream, e: Event, f: Event)
    requires Productive(Step(c, s, e), f)
    ensures ProductiveSteps(c, s, [e, f]) >= 1
  {
    assert [e, f][1..] == [f];
    assert ProductiveSteps(c, Step(c, s, e), [f]) >= 1;
  }

  // ---- the generator object -----------------------------------------------------------

  /** One client's generator, over the store it shares with the writers. `now` is what
      time.monotonic() returns in the step. */
  class EventStream {
    const config: Config
    const live: LivePositions
    var pc: Pc
    var lastHashes: Hashes
    var lastEmit: real
    ghost var log: seq<Payload>

    ghost function State(now: real): Stream
      reads this, live
    {
      Stream(live.positions, live.changed, now, pc, lastHashes, lastEmit, log)
    }

    constructor (config: Config, live: LivePositions)
      ensures this.config == config && this.live == live
      ensures forall now :: Fresh(State(now)) && Inv(config, State(now))
    {
      this.config, this.live := config, live;
      pc, lastHashes, lastEmit, log := Unconnected, map[], 0.0, [];
    }

    method EmitRows(now: real, hashes: Hashes)
      modifies this`pc, this`log
      ensures State(now) == Emit(old(State(now)), hashes)
    {
      pc := Yielded(hashes);
      log := log + [Payload(now, hashes)];
    }

    method Connect(now: real)
      requires pc.Unconnected? && Inv(config, State(now))
      modifies this
      ensures State(now) == Step(config, old(State(now)), ClientJoined) && Inv(config, State(now))
    {
      StepKeepsInv(config, State(now), ClientJoined);
      var positions := live.positions;
      EmitRows(now, HashRows(config, positions));
    }

    /** The consumer asks for the next event. */
    method Resume(now: real)
      requires (pc.Yielded? || pc.Beating?) && Inv(config, State(now))
      modifies this
      ensures State(now) == Step(config, old(State(now)), Resumed) && Inv(config, State(now))
    {
      StepKeepsInv(config, State(now), Resumed);
      if pc.Yielded? {
        lastEmit := now;
        lastHashes := pc.hashes;
      }
      pc := Waiting;
    }

    method Heartbeat(now: real)
      requires pc.Waiting? && Inv(config, State(now))
      modifies this
      ensures State(now) == Step(config, old(State(now)), HeartbeatDue) && Inv(config, State(now))
    {
      StepKeepsInv(config, State(now), HeartbeatDue);
      pc := Beating;
    }

    method CompareAndEmit(now: real)
      modifies this
      ensures State(now) == Compare(config, old(State(now)))
    {
      var hashes := HashRows(config, live.positions);
      if hashes != lastHashes {
        EmitRows(now, hashes);
      } else {
        pc := Waiting;
      }
    }

    method Wake(now: real)
      requires pc.Waiting? && live.changed && Inv(config, State(now))
      modifies this, live`changed
      ensures State(now) == Step(config, old(State(now)), Woken) && Inv(config, State(now))
    {
      StepKeepsInv(config, State(now), Woken);
      live.TakeChange();
      var elapsed := now - lastEmit;
      if elapsed < config.minInterval {
        pc := Throttled(now + (config.minInterval - elapsed));
      } else {
        CompareAndEmit(now);
      }
    }

    method FinishSleep(now: real)
      requires pc.Throttled? && now >= pc.until && Inv(config, State(now))
      modifies this
      ensures State(now) == Step(config, old(State(now)), SleepOver) && Inv(config, State(now))
    {
      StepKeepsInv(config, State(now), SleepOver);
      CompareAndEmit(now);
    }
  }
}
