/**
 The session protocol of the IBKR adapter (app/adapters/ibkr.py): start, retry_now,
 the disconnect handler, disconnect() and the bounded reconnect loop, as atomic steps
 cut at every await. A run is any sequence of events; an event whose task is not there
 to take it changes nothing, so every interleaving is a run.
 */
module IbkrSession {
  import opened Broker

  /** What is fixed for one adapter: the backoff schedule, and whether connect() also
      starts streaming (it does when a live_positions store was given). */
  datatype Config = Config(delays: seq<real>, streams: bool)

  /** Where a reconnect-loop task is suspended. The number is the count of connect()
      attempts it has begun. */
  datatype Pc = Unstarted | Waiting(tried: nat) | Dialing(tried: nat) | Streaming(tried: nat)

  datatype Loop = Loop(pc: Pc, cancelled: bool)

  datatype Ending = Reconnected | FoundConnected | Exhausted | Cancelled

  /** _reconnect_wakeup: absent, or an event that is set or clear. */
  datatype Wakeup = NoEvent | Event(isSet: bool)

  /** disconnect(): not running (so _disconnecting is false), awaiting the task it
      cancelled, or draining fill writes before the teardown. */
  datatype Teardown = Idle | Joining(task: nat) | Draining

  /** `loops` are the live tasks; a handle whose task is not in `loops` is done().
      `tried`, `endings` and `hooks` are history: attempts begun by each loop, how each
      finished loop ended, and how often the reconnect hooks fired. */
  datatype Session = Session(
    conn: ConnectionState,
    ib: bool,
    loops: map<nat, Loop>,
    handle: Option<nat>,
    nextTask: nat,
    wakeup: Wakeup,
    backoff: Option<real>,
    teardown: Teardown,
    dialing: nat,
    streaming: nat,
    tried: map<nat, nat>,
    endings: map<nat, Ending>,
    hooks: nat)

  datatype Event =
    | StartCalled
    | StartDialed(ok: bool, handled: bool)
    | StartStreamed(ok: bool, handled: bool)
    | SessionDropped
    | RetryNow
    | LoopResumed(task: nat, ok: bool)
    | DisconnectCalled
    | DisconnectJoined
    | DisconnectDrained(raises: bool)

  const INITIAL := Session(Disconnected, false, map[], None, 0, NoEvent, None, Idle, 0, 0, map[], map[], 0)

  // ---- the synchronous pieces --------------------------------------------------------

  function Spawn(s: Session): Session {
    s.(loops := s.loops[s.nextTask := Loop(Unstarted, false)],
       handle := Some(s.nextTask),
       nextTask := s.nextTask + 1,
       tried := s.tried[s.nextTask := 0])
  }

  predicate HandleDone(s: Session) {
    s.handle.None? || s.handle.value !in s.loops
  }

  function HandleDisconnect(s: Session): Session {
    if !s.teardown.Idle? || s.conn == Reconnecting then s
    else
      var t := s.(conn := Reconnecting);
      if HandleDone(t) then Spawn(t) else t
  }

  function Retry(s: Session): Session {
    if !s.teardown.Idle? || s.conn == Connected then s
    else
      var t := s.(wakeup := Event(true));
      if t.conn == Disconnected then HandleDisconnect(t)
      else if HandleDone(t) then Spawn(t)
      else t
  }

  /** What a resumed loop does up to its next await. */
  datatype Next = Waits(tried: nat) | Dials(tried: nat) | Streams(tried: nat) | Ends(how: Ending)

  function AfterWait(conn: ConnectionState, tried: nat): Next {
    if conn == Connected then Ends(FoundConnected) else Dials(tried + 1)
  }

  /** Top of the for-loop: out of delays, a wait that a set wake-up event ends at once, or a wait. */
  function BeginDelay(c: Config, conn: ConnectionState, isSet: bool, tried: nat): Next {
    if tried >= |c.delays| then Ends(Exhausted)
    else if isSet then AfterWait(conn, tried)
    else Waits(tried)
  }

  function Decide(c: Config, l: Loop, conn: ConnectionState, isSet: bool, ok: bool): Next {
    if l.cancelled then Ends(Cancelled)
    else
      match l.pc
      case Unstarted => BeginDelay(c, conn, isSet, 0)
      case Waiting(k) => AfterWait(conn, k)
      case Dialing(k) =>
        if !ok then BeginDelay(c, conn, isSet, k) else if c.streams then Streams(k) else Ends(Reconnected)
      case Streaming(k) =>
        if ok then Ends(Reconnected) else BeginDelay(c, conn, isSet, k)
  }

  /** self._ib when the awaited call returns: set by a dial, dropped by failed streaming. */
  function Attached(l: Loop, ib: bool, ok: bool): bool {
    if l.cancelled then ib
    else if l.pc.Dialing? then ib || ok
    else if l.pc.Streaming? then ib && ok
    else ib
  }

  function Suspend(s: Session, task: nat, pc: Pc): Session {
    s.(loops := s.loops[task := Loop(pc, false)])
  }

  function Continue(c: Config, s: Session, task: nat, next: Next): Session {
    match next
    case Waits(k) =>
      Suspend(s.(wakeup := Event(false), backoff := if k < |c.delays| then Some(c.delays[k]) else None),
              task, Waiting(k))
    case Dials(k) =>
      Suspend(s.(ib := false, wakeup := Event(false), tried := s.tried[task := k],
                 backoff := if 1 <= k <= |c.delays| then Some(c.delays[k - 1]) else None), task, Dialing(k))
    case Streams(k) =>
      Suspend(s, task, Streaming(k))
    case Ends(how) =>
      s.(loops := s.loops - {task}, wakeup := NoEvent, backoff := None, endings := s.endings[task := how],
         conn := if how == Reconnected then Connected else if how == Exhausted then Disconnected else s.conn,
         hooks := if how == Reconnected then s.hooks + 1 else s.hooks)
  }

  function Resume(c: Config, s: Session, task: nat, ok: bool): Session
    requires task in s.loops
  {
    var l := s.loops[task];
    Continue(c, s.(ib := Attached(l, s.ib, ok)), task, Decide(c, l, s.conn, s.wakeup == Event(true), ok))
  }

  /** How a start() or a bare connect() call outside the loop ends: only start() turns a
      failure into a synthetic disconnect. */
  function StartFailed(s: Session, handled: bool): Session {
    if handled then HandleDisconnect(s) else s
  }

  function BeginDisconnect(s: Session): Session {
    var t := s.(handle := None, wakeup := NoEvent);
    if HandleDone(s) then t.(teardown := Draining)
    else
      var task := s.handle.value;
      t.(loops := t.loops[task := t.loops[task].(cancelled := true)], teardown := Joining(task))
  }

  function EndDisconnect(s: Session, raises: bool): Session {
    var t := if s.ib && raises then s else s.(ib := false, conn := Disconnected);
    t.(wakeup := NoEvent, teardown := Idle)
  }

  predicate Enabled(s: Session, e: Event) {
    match e
    case StartDialed(_, _) => s.dialing > 0
    case StartStreamed(_, _) => s.streaming > 0
    case LoopResumed(task, _) => task in s.loops
    case DisconnectCalled => s.teardown.Idle?
    case DisconnectJoined => s.teardown.Joining? && s.teardown.task !in s.loops
    case DisconnectDrained(_) => s.teardown.Draining?
    case _ => true
  }

  function Step(c: Config, s: Session, e: Event): Session {
    if !Enabled(s, e) then s
    else
      match e
      case StartCalled => s.(dialing := s.dialing + 1)
      case StartDialed(ok, handled) =>
        var t := s.(dialing := s.dialing - 1);
        if !ok then StartFailed(t, handled)
        else if c.streams then t.(ib := true, streaming := t.streaming + 1)
        else t.(ib := true, conn := Connected)
      case StartStreamed(ok, handled) =>
        var t := s.(streaming := s.streaming - 1);
        if ok then t.(conn := Connected) else StartFailed(t.(ib := false), handled)
      case SessionDropped => HandleDisconnect(s)
      case RetryNow => Retry(s)
      case LoopResumed(task, ok) => Resume(c, s, task, ok)
      case DisconnectCalled => BeginDisconnect(s)
      case DisconnectJoined => s.(wakeup := NoEvent, teardown := Draining)
      case DisconnectDrained(raises) => EndDisconnect(s, raises)
  }

  function Exec(c: Config, s: Session, es: seq<Event>): Session
    decreases |es|
  {
    if es == [] then s else Exec(c, Step(c, s, es[0]), es[1..])
  }

  // ---- what every step keeps --------------------------------------------------------

  /** Which task may be alive, for each stage of disconnect(). */
  ghost predicate Ownership(s: Session) {
    match s.teardown
    case Idle => forall i | i in s.loops :: s.handle == Some(i) && !s.loops[i].cancelled
    case Joining(t) => s.handle.None? && forall i | i in s.loops :: i == t && s.loops[i].cancelled
    case Draining => s.handle.None? && s.loops == map[]
  }

  predicate Alive(s: Session) { s.loops != map[] }

  /** The wake-up event and the badge's backoff value exist only for a live loop. */
  ghost predicate LoopResources(c: Config, s: Session) {
    && (s.wakeup.Event? ==> s.teardown.Idle? && Alive(s))
    && (s.backoff.Some? ==> Alive(s))
    && forall i | i in s.loops ::
        match s.loops[i].pc
        case Unstarted => s.backoff.None?
        case Waiting(k) => k < |c.delays| && s.backoff == Some(c.delays[k]) && (s.loops[i].cancelled || s.wakeup.Event?)
        case Dialing(k) => 1 <= k <= |c.delays| && s.backoff == Some(c.delays[k - 1])
        case Streaming(k) => c.streams && 1 <= k <= |c.delays| && s.backoff == Some(c.delays[k - 1])
  }

  function Tried(pc: Pc): nat { if pc.Unstarted? then 0 else pc.tried }

  ghost function ReconnectedLoops(endings: map<nat, Ending>): set<nat> {
    set i | i in endings && endings[i] == Reconnected
  }

  ghost predicate History(c: Config, s: Session) {
    && (forall i | i in s.loops :: i in s.tried && s.tried[i] == Tried(s.loops[i].pc) && i !in s.endings)
    && (forall i :: i in s.tried <==> 0 <= i < s.nextTask)
    && (forall i | i in s.tried :: s.tried[i] <= |c.delays| && (i in s.loops || i in s.endings))
    && (forall i | i in s.endings :: i in s.tried && (s.endings[i] == Exhausted ==> s.tried[i] == |c.delays|))
    && s.hooks == |ReconnectedLoops(s.endings)|
  }

  ghost predicate Inv(c: Config, s: Session) {
    && Ownership(s)
    && (s.conn == Disconnected ==> !Alive(s))
    && LoopResources(c, s)
    && History(c, s)
  }

  /** RECONNECTING with nobody reconnecting. */
  predicate Orphaned(s: Session) {
    s.teardown.Idle? && s.conn == Reconnecting && !Alive(s)
  }

  lemma SpawnKeepsInv(c: Config, s: Session)
    requires History(c, s) && s.teardown.Idle? && !Alive(s) && s.conn != Disconnected && s.backoff.None?
    ensures Inv(c, Spawn(s)) && Alive(Spawn(s))
  {
    assert s.nextTask in Spawn(s).loops;
  }

  /** A drop outside disconnect() leaves RECONNECTING, with the live loop it found or one more;
      inside, and on an orphaned adapter, it changes nothing. */
  lemma HandleDisconnectKeepsInv(c: Config, s: Session)
    requires Inv(c, s)
    ensures Inv(c, HandleDisconnect(s))
    ensures !Orphaned(s) ==> !Orphaned(HandleDisconnect(s))
    ensures var t := HandleDisconnect(s);
      if s.teardown.Idle? && !Orphaned(s) then t.conn == Reconnecting && Alive(t) && (Alive(s) ==> t.loops == s.loops)
      else t == s
  {
    var t := s.(conn := Reconnecting);
    if s.teardown.Idle? && s.conn != Reconnecting {
      if HandleDone(t) {
        assert t.loops == map[];
        SpawnKeepsInv(c, t);
      } else {
        assert t.handle.value in t.loops;
      }
    }
  }

  /** retry_now() leaves a live loop and a set wake-up event, whatever it found, unless it
      found CONNECTED or a disconnect() in progress; it changes no loop that was alive. */
  lemma RetryKeepsInv(c: Config, s: Session)
    requires Inv(c, s)
    ensures Inv(c, Retry(s))
    ensures !Orphaned(Retry(s))
    ensures s.teardown.Idle? && s.conn != Connected ==> Alive(Retry(s)) && Retry(s).wakeup == Event(true)
    ensures Alive(s) ==> Retry(s) == s.(wakeup := Retry(s).wakeup)
  {
    if s.teardown.Idle? && s.conn != Connected {
      var t := s.(wakeup := Event(true), conn := Reconnecting);
      if HandleDone(s) {
        assert t.loops == map[];
        SpawnKeepsInv(c, t);
        assert Retry(s) == Spawn(t);
      } else {
        assert s.handle.value in s.loops;
      }
    }
  }

  lemma DecideInBounds(c: Config, s: Session, task: nat, ok: bool)
    requires Inv(c, s) && task in s.loops
    ensures var next := Decide(c, s.loops[task], s.conn, s.wakeup == Event(true), ok);
      match next
      case Waits(k) => k < |c.delays| && k == s.tried[task]
      case Dials(k) => 1 <= k <= |c.delays| && k == s.tried[task] + 1
      case Streams(k) => 1 <= k <= |c.delays| && k == s.tried[task] && s.loops[task].pc == Dialing(k)
      case Ends(how) =>
        (how == Exhausted ==> s.tried[task] == |c.delays|) && (how == Cancelled <==> s.loops[task].cancelled)
  {
  }

  lemma OneMoreEnding(endings: map<nat, Ending>, task: nat, how: Ending)
    requires task !in endings
    ensures |ReconnectedLoops(endings[task := how])|
         == |ReconnectedLoops(endings)| + if how == Reconnected then 1 else 0
  {
    assert ReconnectedLoops(endings[task := how])
        == ReconnectedLoops(endings) + if how == Reconnected then {task} else {};
  }

  lemma EndingKeepsHistory(c: Config, s: Session, task: nat, ok: bool)
    requires Inv(c, s) && task in s.loops
    requires Decide(c, s.loops[task], s.conn, s.wakeup == Event(true), ok).Ends?
    ensures History(c, Resume(c, s, task, ok)) && Resume(c, s, task, ok).loops == map[]
  {
    DecideInBounds(c, s, task, ok);
    var t := Resume(c, s, task, ok);
    assert forall i | i in s.loops :: i == task;
    assert t.loops == map[];
    OneMoreEnding(s.endings, task, Decide(c, s.loops[task], s.conn, s.wakeup == Event(true), ok).how);
  }

  lemma EndingKeepsInv(c: Config, s: Session, task: nat, ok: bool)
    requires Inv(c, s) && task in s.loops
    requires Decide(c, s.loops[task], s.conn, s.wakeup == Event(true), ok).Ends?
    ensures Inv(c, Resume(c, s, task, ok))
    ensures !Orphaned(Resume(c, s, task, ok))
  {
    EndingKeepsHistory(c, s, task, ok);
    DecideInBounds(c, s, task, ok);
  }

  lemma SuspendingKeepsInv(c: Config, s: Session, task: nat, ok: bool)
    requires Inv(c, s) && task in s.loops
    requires !Decide(c, s.loops[task], s.conn, s.wakeup == Event(true), ok).Ends?
    ensures Inv(c, Resume(c, s, task, ok))
    ensures !Orphaned(Resume(c, s, task, ok))
  {
    DecideInBounds(c, s, task, ok);
    var t := Resume(c, s, task, ok);
    assert forall i | i in t.loops :: i == task;
    assert task in t.loops;
  }

  lemma ResumeKeepsInv(c: Config, s: Session, task: nat, ok: bool)
    requires Inv(c, s) && task in s.loops
    ensures Inv(c, Resume(c, s, task, ok))
    ensures !Orphaned(Resume(c, s, task, ok))
  {
    if Decide(c, s.loops[task], s.conn, s.wakeup == Event(true), ok).Ends? {
      EndingKeepsInv(c, s, task, ok);
    } else {
      SuspendingKeepsInv(c, s, task, ok);
    }
  }

  /** One step keeps the invariant, and orphans a RECONNECTING adapter exactly when the
      vendor's disconnect() raises while tearing a still-attached session down. */
  lemma StepKeepsInv(c: Config, s: Session, e: Event)
    requires Inv(c, s)
    ensures Inv(c, Step(c, s, e))
    ensures !Orphaned(s) ==>
      (Orphaned(Step(c, s, e))
       <==> s.teardown.Draining? && e == DisconnectDrained(true) && s.ib && s.conn == Reconnecting)
  {
    var t := Step(c, s, e);
    if Enabled(s, e) {
      match e
      case LoopResumed(task, ok) => ResumeKeepsInv(c, s, task, ok);
      case RetryNow => RetryKeepsInv(c, s);
      case SessionDropped => HandleDisconnectKeepsInv(c, s);
      case StartDialed(ok, handled) => StartStepKeepsInv(c, s, e);
      case StartStreamed(ok, handled) => StartStepKeepsInv(c, s, e);
      case StartCalled =>
      case _ => TeardownKeepsInv(c, s, e);
    }
  }

  /** The three steps of disconnect(). */
  lemma TeardownKeepsInv(c: Config, s: Session, e: Event)
    requires Inv(c, s) && Enabled(s, e) && (e.DisconnectCalled? || e.DisconnectJoined? || e.DisconnectDrained?)
    ensures Inv(c, Step(c, s, e))
    ensures !Orphaned(s) ==>
      (Orphaned(Step(c, s, e))
       <==> s.teardown.Draining? && e == DisconnectDrained(true) && s.ib && s.conn == Reconnecting)
  {
    match e
    case DisconnectCalled => BeginDisconnectKeepsInv(c, s);
    case DisconnectDrained(raises) => EndDisconnectKeepsInv(c, s, raises);
    case _ =>
  }

  lemma BeginDisconnectKeepsInv(c: Config, s: Session)
    requires Inv(c, s) && s.teardown.Idle?
    ensures Inv(c, BeginDisconnect(s)) && !Orphaned(BeginDisconnect(s))
  {
  }

  lemma EndDisconnectKeepsInv(c: Config, s: Session, raises: bool)
    requires Inv(c, s) && s.teardown.Draining?
    ensures Inv(c, EndDisconnect(s, raises))
    ensures Orphaned(EndDisconnect(s, raises)) <==> raises && s.ib && s.conn == Reconnecting
  {
  }

  /** The invariant does not look at the calls in flight or the session object. */
  lemma InvIgnoresCalls(c: Config, s: Session, dialing: nat, streaming: nat, ib: bool)
    requires Inv(c, s)
    ensures var t := s.(dialing := dialing, streaming := streaming, ib := ib);
      Inv(c, t) && (Orphaned(t) <==> Orphaned(s))
  {
  }

  lemma ConnectedKeepsInv(c: Config, s: Session)
    requires Inv(c, s)
    ensures Inv(c, s.(conn := Connected))
  {
  }

  lemma StartKeepsInv(c: Config, s: Session, dialing: nat, streaming: nat, ib: bool)
    requires Inv(c, s)
    ensures var t := s.(dialing := dialing, streaming := streaming, ib := ib);
      Inv(c, t) && Inv(c, t.(conn := Connected)) && Inv(c, HandleDisconnect(t))
      && (!Orphaned(s) ==> !Orphaned(t) && !Orphaned(HandleDisconnect(t)))
  {
    InvIgnoresCalls(c, s, dialing, streaming, ib);
    var t := s.(dialing := dialing, streaming := streaming, ib := ib);
    ConnectedKeepsInv(c, t);
    HandleDisconnectKeepsInv(c, t);
  }

  lemma StartStepKeepsInv(c: Config, s: Session, e: Event)
    requires Inv(c, s) && Enabled(s, e) && (e.StartDialed? || e.StartStreamed?)
    ensures Inv(c, Step(c, s, e))
    ensures !Orphaned(s) ==> !Orphaned(Step(c, s, e))
  {
    var dialing := if e.StartDialed? then s.dialing - 1 else s.dialing;
    var streaming := if e.StartStreamed? then s.streaming - 1
                     else if e.ok && c.streams then s.streaming + 1 else s.streaming;
    var ib := if e.StartDialed? then s.ib || e.ok else s.ib && e.ok;
    var t := s.(dialing := dialing, streaming := streaming, ib := ib);
    StartKeepsInv(c, s, dialing, streaming, ib);
    assert Step(c, s, e) in {t, t.(conn := Connected), HandleDisconnect(t)};
  }

  // ---- whole runs --------------------------------------------------------------------

  lemma {:induction false} RunKeepsInv(c: Config, s: Session, es: seq<Event>)
    requires Inv(c, s)
    ensures Inv(c, Exec(c, s, es))
    ensures !Orphaned(s) && DisconnectDrained(true) !in es ==> !Orphaned(Exec(c, s, es))
    decreases |es|
  {
    if es != [] {
      StepKeepsInv(c, s, es[0]);
      RunKeepsInv(c, Step(c, s, es[0]), es[1..]);
    }
  }

  /** Safety over every interleaving from a fresh adapter. */
  lemma ReconnectSafety(c: Config, es: seq<Event>)
    ensures var s := Exec(c, INITIAL, es);
      && (forall i, j | i in s.loops && j in s.loops :: i == j)
      && (s.conn == Disconnected ==> !Alive(s))
      && (s.teardown.Idle? && s.conn == Reconnecting && DisconnectDrained(true) !in es ==> Alive(s))
      && (s.backoff.Some? || s.wakeup.Event? ==> Alive(s))
      && (forall i | i in s.tried :: s.tried[i] <= |c.delays|)
      && s.hooks == |ReconnectedLoops(s.endings)|
  {
    RunKeepsInv(c, INITIAL, es);
  }

  lemma RaisingTeardown(c: Config, s: Session, task: nat)
    requires s.teardown.Idle? && s.conn == Reconnecting && s.ib && s.handle == Some(task) && s.wakeup.NoEvent?
    requires s.loops == map[task := Loop(Unstarted, false)]
    ensures Exec(c, s, [DisconnectCalled, LoopResumed(task, false), DisconnectJoined, DisconnectDrained(true)])
         == s.(loops := map[], handle := None, endings := s.endings[task := Cancelled], backoff := None)
  {
    var s1 := Step(c, s, DisconnectCalled);
    assert s1.loops == map[task := Loop(Unstarted, true)] && s1.teardown == Joining(task);
    var s2 := Step(c, s1, LoopResumed(task, false));
    assert s2 == s1.(loops := map[], endings := s.endings[task := Cancelled], backoff := None);
    assert Exec(c, s2, [DisconnectJoined, DisconnectDrained(true)]) == s2.(teardown := Idle);
    assert Exec(c, s1, [LoopResumed(task, false), DisconnectJoined, DisconnectDrained(true)]) == s2.(teardown := Idle);
  }

  lemma Boot(c: Config) returns (es: seq<Event>)
    ensures Exec(c, INITIAL, es) == INITIAL.(ib := true, conn := Connected)
  {
    var dialing := INITIAL.(dialing := 1);
    if c.streams {
      es := [StartCalled, StartDialed(true, true), StartStreamed(true, true)];
      assert Exec(c, dialing, [StartDialed(true, true), StartStreamed(true, true)])
          == INITIAL.(ib := true, conn := Connected);
    } else {
      es := [StartCalled, StartDialed(true, true)];
      assert Exec(c, dialing, [StartDialed(true, true)]) == INITIAL.(ib := true, conn := Connected);
    }
  }

  /** The hypothesis on the vendor's disconnect() is needed: every adapter has a run in which
      one raise leaves RECONNECTING with no loop. */
  lemma RaisingTeardownOrphans(c: Config)
    ensures exists es :: Orphaned(Exec(c, INITIAL, es))
  {
    var boot := Boot(c);
    var lost := Step(c, INITIAL.(ib := true, conn := Connected), SessionDropped);
    assert lost.loops == map[0 := Loop(Unstarted, false)];
    var down := [DisconnectCalled, LoopResumed(0, false), DisconnectJoined, DisconnectDrained(true)];
    ExecAppend(c, INITIAL, boot, [SessionDropped]);
    ExecAppend(c, INITIAL, boot + [SessionDropped], down);
    var es := boot + [SessionDropped] + down;
    assert Exec(c, INITIAL, es) == Exec(c, lost, down);
    RaisingTeardown(c, lost, 0);
  }

  /** A further drop does not repair an orphaned adapter; retry_now() always does. */
  lemma OnlyRetryRepairs(c: Config, s: Session)
    requires Inv(c, s) && Orphaned(s)
    ensures Step(c, s, SessionDropped) == s
    ensures Inv(c, Step(c, s, RetryNow)) && Alive(Step(c, s, RetryNow))
  {
    RetryKeepsInv(c, s);
  }

  lemma {:induction false} ExecAppend(c: Config, s: Session, es: seq<Event>, fs: seq<Event>)
    ensures Exec(c, s, es + fs) == Exec(c, Exec(c, s, es), fs)
    decreases |es|
  {
    if es == [] {
      assert es + fs == fs;
    } else {
      assert (es + fs)[1..] == es[1..] + fs;
      ExecAppend(c, Step(c, s, es[0]), es[1..], fs);
    }
  }

  // ---- termination of each loop ------------------------------------------------------

  /** How many more times a loop can be resumed before it ends. */
  function Budget(c: Config, pc: Pc): int {
    var n := |c.delays|;
    match pc
    case Unstarted => 3 * n + 1
    case Waiting(k) => 3 * (n - k)
    case Dialing(k) => 3 * (n - k) + 2
    case Streaming(k) => 3 * (n - k) + 1
  }

  function StepsOf(c: Config, s: Session, es: seq<Event>, task: nat): nat
    decreases |es|
  {
    if es == [] then 0
    else (if es[0].LoopResumed? && es[0].task == task && task in s.loops then 1 else 0)
         + StepsOf(c, Step(c, s, es[0]), es[1..], task)
  }

  /** A resumed loop ends or comes nearer its end. */
  lemma ResumeSpendsBudget(c: Config, s: Session, task: nat, ok: bool)
    requires Inv(c, s) && task in s.loops
    ensures var t := Resume(c, s, task, ok);
      t.nextTask == s.nextTask && t.loops.Keys <= s.loops.Keys
      && Budget(c, s.loops[task].pc) >= 1
      && (task in t.loops ==> Budget(c, t.loops[task].pc) < Budget(c, s.loops[task].pc))
  {
    DecideInBounds(c, s, task, ok);
  }

  lemma HandlersMoveNoLoop(s: Session, task: nat)
    requires task < s.nextTask
    ensures forall t | t in {HandleDisconnect(s), Retry(s)} ::
      task < t.nextTask && (task in t.loops <==> task in s.loops)
      && (task in s.loops ==> t.loops[task] == s.loops[task])
  {
  }

  /** No other event, retry_now() included, moves a loop, and a loop that ended never comes back. */
  lemma OthersSpendNothing(c: Config, s: Session, e: Event, task: nat)
    requires Inv(c, s) && task < s.nextTask && !e.LoopResumed?
    ensures var t := Step(c, s, e);
      task < t.nextTask && (task in t.loops <==> task in s.loops)
      && (task in s.loops ==> t.loops[task].pc == s.loops[task].pc)
  {
    match e
    case SessionDropped => HandlersMoveNoLoop(s, task);
    case RetryNow => HandlersMoveNoLoop(s, task);
    case StartDialed(_, _) => StartsMoveNoLoop(c, s, e, task);
    case StartStreamed(_, _) => StartsMoveNoLoop(c, s, e, task);
    case _ =>
  }

  lemma StartsMoveNoLoop(c: Config, s: Session, e: Event, task: nat)
    requires task < s.nextTask && (e.StartDialed? || e.StartStreamed?)
    ensures var t := Step(c, s, e);
      task < t.nextTask && (task in t.loops <==> task in s.loops)
      && (task in s.loops ==> t.loops[task] == s.loops[task])
  {
    if e.StartDialed? && s.dialing > 0 {
      HandlersMoveNoLoop(s.(dialing := s.dialing - 1), task);
    } else if e.StartStreamed? && s.streaming > 0 {
      HandlersMoveNoLoop(s.(streaming := s.streaming - 1, ib := false), task);
    }
  }

  lemma {:induction false} LoopStepsBounded(c: Config, s: Session, es: seq<Event>, task: nat)
    requires Inv(c, s) && task < s.nextTask
    ensures task in s.loops ==> StepsOf(c, s, es, task) <= Budget(c, s.loops[task].pc)
    ensures task in s.loops && task in Exec(c, s, es).loops ==> StepsOf(c, s, es, task) < Budget(c, s.loops[task].pc)
    ensures task !in s.loops ==> StepsOf(c, s, es, task) == 0 && task !in Exec(c, s, es).loops
    decreases |es|
  {
    if task in s.loops {
      ResumeSpendsBudget(c, s, task, false);
    }
    if es != [] {
      var e := es[0];
      StepKeepsInv(c, s, e);
      if e.LoopResumed? && e.task in s.loops {
        ResumeSpendsBudget(c, s, e.task, e.ok);
      } else if !e.LoopResumed? {
        OthersSpendNothing(c, s, e, task);
      }
      LoopStepsBounded(c, Step(c, s, e), es[1..], task);
    }
  }

  /** How a loop may end, and the state it leaves. */
  predicate EndsAs(c: Config, s: Session, t: Session, task: nat, ok: bool)
    requires task in s.loops && task in t.endings && task in t.tried
  {
    match t.endings[task]
    case Reconnected =>
      && ok && t.conn == Connected && t.hooks == s.hooks + 1
      && (if c.streams then s.loops[task].pc.Streaming? else s.loops[task].pc.Dialing? && t.ib)
    case FoundConnected => s.conn == t.conn == Connected && t.hooks == s.hooks
    case Exhausted => t.conn == Disconnected && t.tried[task] == |c.delays| && t.hooks == s.hooks
    case Cancelled => s.teardown == Joining(task) && t.conn == s.conn && t.hooks == s.hooks
  }

  lemma EndingStep(c: Config, s: Session, task: nat, ok: bool)
    requires Inv(c, s) && task in s.loops && task in Resume(c, s, task, ok).endings
    ensures var t := Resume(c, s, task, ok);
      task !in t.loops && task in t.tried && EndsAs(c, s, t, task, ok)
  {
    DecideInBounds(c, s, task, ok);
  }

  /** An ending is written once, by the loop's own last step. */
  lemma StepKeepsEndings(c: Config, s: Session, e: Event, task: nat)
    requires Inv(c, s) && task < s.nextTask && !(e.LoopResumed? && e.task == task)
    ensures var t := Step(c, s, e);
      && (task in t.endings <==> task in s.endings)
      && (task in s.endings ==> t.endings[task] == s.endings[task]) && (task in t.loops <==> task in s.loops)
  {
    if e.LoopResumed? && e.task in s.loops {
      OtherLoopKeepsEndings(c, s, e.task, e.ok, task);
    } else if !e.LoopResumed? {
      OthersSpendNothing(c, s, e, task);
      HandlersKeepHistory(c, s, e);
    }
  }

  lemma OtherLoopKeepsEndings(c: Config, s: Session, other: nat, ok: bool, task: nat)
    requires other in s.loops && other != task
    ensures var t := Resume(c, s, other, ok);
      && (task in t.endings <==> task in s.endings)
      && (task in s.endings ==> t.endings[task] == s.endings[task]) && (task in t.loops <==> task in s.loops)
  {
  }

  lemma HandlersKeepHistory(c: Config, s: Session, e: Event)
    requires !e.LoopResumed?
    ensures Step(c, s, e).endings == s.endings
  {
  }

  predicate EndedAt(c: Config, es: seq<Event>, task: nat, k: nat)
    requires k < |es|
  {
    var s, t := Exec(c, INITIAL, es[..k]), Exec(c, INITIAL, es[..k + 1]);
    && es[k].LoopResumed? && es[k].task == task
    && task in s.loops && task !in t.loops && task in t.endings && task in t.tried
    && EndsAs(c, s, t, task, es[k].ok)
    && Exec(c, INITIAL, es).endings.Keys >= {task} && Exec(c, INITIAL, es).endings[task] == t.endings[task]
  }

  lemma ExecOneMore(c: Config, es: seq<Event>)
    requires es != []
    ensures Exec(c, INITIAL, es) == Step(c, Exec(c, INITIAL, es[..|es| - 1]), es[|es| - 1])
  {
    var n := |es| - 1;
    assert es == es[..n] + [es[n]];
    ExecAppend(c, INITIAL, es[..n], [es[n]]);
  }

  lemma LiveOrEnded(c: Config, s: Session, task: nat)
    requires Inv(c, s) && task < s.nextTask
    ensures task in s.loops <==> task !in s.endings
  {
  }

  /** The life of every loop, over every run: each loop ever born is either live or has ended,
      and it ended once, by one of its own steps, leaving the state its ending calls for. */
  lemma {:induction false} LoopEnding(c: Config, es: seq<Event>, task: nat)
    requires task < Exec(c, INITIAL, es).nextTask
    ensures var t := Exec(c, INITIAL, es); task in t.loops <==> task !in t.endings
    ensures task in Exec(c, INITIAL, es).endings ==> exists k :: 0 <= k < |es| && EndedAt(c, es, task, k)
    decreases |es|, 1
  {
    RunKeepsInv(c, INITIAL, es);
    LiveOrEnded(c, Exec(c, INITIAL, es), task);
    if task in Exec(c, INITIAL, es).endings && es != [] {
      var n := |es| - 1;
      if es[n].LoopResumed? && es[n].task == task && task in Exec(c, INITIAL, es[..n]).loops {
        LastEnding(c, es, task);
      } else {
        EarlierEnding(c, es, task);
      }
    }
  }

  lemma LastEnding(c: Config, es: seq<Event>, task: nat)
    requires es != [] && task in Exec(c, INITIAL, es).endings
    requires var e := es[|es| - 1]; e.LoopResumed? && e.task == task && task in Exec(c, INITIAL, es[..|es| - 1]).loops
    ensures EndedAt(c, es, task, |es| - 1)
  {
    var n := |es| - 1;
    RunKeepsInv(c, INITIAL, es[..n]);
    ExecOneMore(c, es);
    EndingStep(c, Exec(c, INITIAL, es[..n]), task, es[n].ok);
    assert es[..n + 1] == es;
  }

  lemma {:induction false} EarlierEnding(c: Config, es: seq<Event>, task: nat)
    requires es != [] && task in Exec(c, INITIAL, es).endings
    requires var e := es[|es| - 1];
      !(e.LoopResumed? && e.task == task && task in Exec(c, INITIAL, es[..|es| - 1]).loops)
    ensures exists k :: 0 <= k < |es| && EndedAt(c, es, task, k)
    decreases |es|, 0
  {
    var n := |es| - 1;
    var before := es[..n];
    RunKeepsInv(c, INITIAL, before);
    ExecOneMore(c, es);
    EndingWasThere(c, Exec(c, INITIAL, before), es[n], task);
    LoopEnding(c, before, task);
    var k :| 0 <= k < n && EndedAt(c, before, task, k);
    StillEndedAt(c, es, task, k);
  }

  lemma StillEndedAt(c: Config, es: seq<Event>, task: nat, k: nat)
    requires k < |es| - 1 && EndedAt(c, es[..|es| - 1], task, k) && task in Exec(c, INITIAL, es).endings
    requires Exec(c, INITIAL, es).endings[task] == Exec(c, INITIAL, es[..|es| - 1]).endings[task]
    ensures EndedAt(c, es, task, k)
  {
    var before := es[..|es| - 1];
    assert before[..k] == es[..k] && before[..k + 1] == es[..k + 1] && before[k] == es[k];
  }

  lemma EndingWasThere(c: Config, s: Session, e: Event, task: nat)
    requires Inv(c, s) && task in Step(c, s, e).endings
    requires !(e.LoopResumed? && e.task == task && task in s.loops)
    ensures task < s.nextTask && task in s.endings && Step(c, s, e).endings[task] == s.endings[task]
  {
    if task >= s.nextTask {
      NewbornHasNoEnding(c, s, e, task);
    } else if !(e.LoopResumed? && e.task == task) {
      StepKeepsEndings(c, s, e, task);
    }
  }

  lemma NewbornHasNoEnding(c: Config, s: Session, e: Event, task: nat)
    requires Inv(c, s) && task >= s.nextTask
    ensures task !in Step(c, s, e).endings
  {
    if e.LoopResumed? && e.task in s.loops {
      assert e.task != task;
    } else if !e.LoopResumed? {
      HandlersKeepHistory(c, s, e);
    }
  }

  /** An attempt begins only out of the wait for its own delay, except when a retry_now() is
      pending; and it begins by dropping the old session. */
  lemma AttemptEndsItsWait(c: Config, s: Session, task: nat, ok: bool)
    requires Inv(c, s) && task in s.loops && task in Resume(c, s, task, ok).loops
    requires Resume(c, s, task, ok).loops[task].pc.Dialing?
    ensures var t := Resume(c, s, task, ok); var k := t.loops[task].pc.tried;
      && 1 <= k <= |c.delays| && s.tried[task] == k - 1 && t.tried[task] == k && !t.ib
      && t.backoff == Some(c.delays[k - 1]) && t.wakeup == Event(false) && t.conn == s.conn != Connected
      && (s.loops[task].pc == Waiting(k - 1) || s.wakeup == Event(true))
  {
    DecideInBounds(c, s, task, ok);
  }

  /** With no retry_now() pending, a loop that starts, or whose attempt fails, goes on to wait
      for the next delay, while there is one. */
  lemma NextDelayIsWaitedFor(c: Config, s: Session, task: nat)
    requires Inv(c, s) && task in s.loops && !s.loops[task].cancelled && !s.loops[task].pc.Waiting?
    requires s.wakeup != Event(true)
    ensures var t := Resume(c, s, task, false); var k := s.tried[task];
      if k < |c.delays|
      then WaitsFor(c, t, task, k) && t.backoff == Some(c.delays[k]) && t.conn == s.conn
      else task in t.endings && t.endings[task] == Exhausted
  {
    DecideInBounds(c, s, task, false);
  }

  /** Step j of a run takes a loop from another place into its k-th attempt. */
  predicate BeginsAttempt(c: Config, es: seq<Event>, task: nat, k: nat, j: nat)
    requires j < |es|
  {
    var s, t := Exec(c, INITIAL, es[..j]), Exec(c, INITIAL, es[..j + 1]);
    && es[j].LoopResumed? && es[j].task == task
    && task in s.loops && task in t.loops && t.loops[task].pc == Dialing(k)
  }

  predicate WaitsFor(c: Config, s: Session, task: nat, k: nat) {
    task in s.loops && s.loops[task].pc == Waiting(k)
  }

  /** From after step i to before step j the loop waits for its k-th delay. */
  ghost predicate WaitedFrom(c: Config, es: seq<Event>, task: nat, k: nat, i: nat, j: nat)
    requires i < j <= |es|
  {
    && es[i].LoopResumed? && es[i].task == task && !WaitsFor(c, Exec(c, INITIAL, es[..i]), task, k)
    && k < |c.delays| && Exec(c, INITIAL, es[..i + 1]).backoff == Some(c.delays[k])
    && forall l | i < l <= j :: WaitsFor(c, Exec(c, INITIAL, es[..l]), task, k)
  }

  /** The wait before the k-th attempt. */
  ghost predicate OwnWait(c: Config, es: seq<Event>, task: nat, k: nat, i: nat, j: nat)
    requires i < j <= |es|
  {
    k >= 1 && WaitedFrom(c, es, task, k - 1, i, j)
  }

  lemma ExecPrefix(c: Config, es: seq<Event>, j: nat)
    requires j < |es|
    ensures Exec(c, INITIAL, es[..j + 1]) == Step(c, Exec(c, INITIAL, es[..j]), es[j])
  {
    ExecOneMore(c, es[..j + 1]);
    assert es[..j + 1][..j] == es[..j];
  }

  /** Only a loop's own step makes it wait. */
  lemma WaitIsOwnStep(c: Config, s: Session, e: Event, task: nat, k: nat)
    requires Inv(c, s) && WaitsFor(c, Step(c, s, e), task, k)
    ensures WaitsFor(c, s, task, k) || (e.LoopResumed? && e.task == task && task in s.loops)
  {
    if e.LoopResumed? {
      if e.task in s.loops && e.task != task {
        OnlyOneLoop(c, s, e.task, task);
        OtherLoopIsAlone(c, s, e.task, e.ok, task);
      }
    } else if task < s.nextTask {
      OthersSpendNothing(c, s, e, task);
    } else {
      NewbornIsUnstarted(c, s, e, task);
    }
  }

  lemma OtherLoopIsAlone(c: Config, s: Session, other: nat, ok: bool, task: nat)
    requires other in s.loops && task !in s.loops
    ensures task !in Resume(c, s, other, ok).loops
  {
  }

  lemma OnlyOneLoop(c: Config, s: Session, one: nat, other: nat)
    requires Inv(c, s) && one in s.loops && other != one
    ensures other !in s.loops
  {
  }

  lemma NewbornIsUnstarted(c: Config, s: Session, e: Event, task: nat)
    requires Inv(c, s) && !e.LoopResumed? && task >= s.nextTask && task in Step(c, s, e).loops
    ensures Step(c, s, e).loops[task].pc == Unstarted
  {
    assert task !in s.loops;
    HandlersSpawnUnstarted(c, s, e);
  }

  lemma HandlersSpawnUnstarted(c: Config, s: Session, e: Event)
    requires !e.LoopResumed?
    ensures forall i | i in Step(c, s, e).loops && i !in s.loops :: Step(c, s, e).loops[i].pc == Unstarted
  {
    match e
    case StartDialed(_, _) =>
      if s.dialing > 0 { SpawnsUnstarted(s.(dialing := s.dialing - 1)); }
    case StartStreamed(_, _) =>
      if s.streaming > 0 { SpawnsUnstarted(s.(streaming := s.streaming - 1, ib := false)); }
    case SessionDropped => SpawnsUnstarted(s);
    case RetryNow => SpawnsUnstarted(s);
    case _ =>
  }

  lemma SpawnsUnstarted(s: Session)
    ensures forall i | i in HandleDisconnect(s).loops && i !in s.loops :: HandleDisconnect(s).loops[i].pc == Unstarted
    ensures forall i | i in Retry(s).loops && i !in s.loops :: Retry(s).loops[i].pc == Unstarted
  {
  }

  lemma {:induction false} WaitBegan(c: Config, es: seq<Event>, task: nat, k: nat, j: nat) returns (i: nat)
    requires j <= |es| && WaitsFor(c, Exec(c, INITIAL, es[..j]), task, k)
    ensures i < j && WaitedFrom(c, es, task, k, i, j)
  {
    if j == 0 {
      assert false;
    } else {
      var s := Exec(c, INITIAL, es[..j - 1]);
      RunKeepsInv(c, INITIAL, es[..j - 1]);
      RunKeepsInv(c, INITIAL, es[..j]);
      WaitingKnowsItsDelay(c, Exec(c, INITIAL, es[..j]), task);
      ExecPrefix(c, es, j - 1);
      WaitIsOwnStep(c, s, es[j - 1], task, k);
      if WaitsFor(c, s, task, k) {
        i := WaitBegan(c, es, task, k, j - 1);
      } else {
        i := j - 1;
      }
    }
  }

  /** Backoff, over every run: unless a retry_now() is pending, the k-th attempt of a loop
      comes straight out of a wait of its own for the k-th delay. */
  lemma AttemptsAreWaitedFor(c: Config, es: seq<Event>, task: nat, k: nat, j: nat)
    requires j < |es| && BeginsAttempt(c, es, task, k, j)
    ensures 1 <= k <= |c.delays|
    ensures Exec(c, INITIAL, es[..j]).wakeup == Event(true) || exists i :: 0 <= i < j && OwnWait(c, es, task, k, i, j)
  {
    var s := Exec(c, INITIAL, es[..j]);
    RunKeepsInv(c, INITIAL, es[..j]);
    ExecPrefix(c, es, j);
    AttemptEndsItsWait(c, s, task, es[j].ok);
    if s.wakeup != Event(true) {
      var i := WaitBegan(c, es, task, k - 1, j);
      assert OwnWait(c, es, task, k, i, j);
    }
  }

  /** What a start() or connect() outside the loop makes of its dial. */
  lemma StartDials(c: Config, s: Session, ok: bool, handled: bool)
    requires Inv(c, s) && s.dialing > 0
    ensures var t := Step(c, s, StartDialed(ok, handled));
      && t.dialing == s.dialing - 1
      && (ok ==> t.ib && t.loops == s.loops
                 && if c.streams then t.streaming == s.streaming + 1 && t.conn == s.conn else t.conn == Connected)
      && (!ok && handled && s.teardown.Idle? && !Orphaned(s) ==> t.conn == Reconnecting && Alive(t))
      && (!ok && !handled ==> t == s.(dialing := t.dialing))
  {
    InvIgnoresCalls(c, s, s.dialing - 1, s.streaming, s.ib);
    if !ok && handled {
      HandleDisconnectKeepsInv(c, s.(dialing := s.dialing - 1));
    }
  }

  /** And of its streaming setup: CONNECTED, or the session dropped, and after start() a
      reconnect loop. */
  lemma StartStreams(c: Config, s: Session, ok: bool, handled: bool)
    requires Inv(c, s) && s.streaming > 0
    ensures var t := Step(c, s, StartStreamed(ok, handled));
      && t.streaming == s.streaming - 1
      && (ok ==> t == s.(streaming := t.streaming, conn := Connected))
      && (!ok ==> !t.ib)
      && (!ok && handled && s.teardown.Idle? && !Orphaned(s) ==> t.conn == Reconnecting && Alive(t))
      && (!ok && !handled ==> t.conn == s.conn && t.loops == s.loops)
  {
    if !ok && handled {
      InvIgnoresCalls(c, s, s.dialing, s.streaming - 1, false);
      FailedStreamingRecovers(c, s.(streaming := s.streaming - 1, ib := false));
    }
  }

  lemma FailedStreamingRecovers(c: Config, s: Session)
    requires Inv(c, s)
    ensures var t := HandleDisconnect(s); t.ib == s.ib && t.streaming == s.streaming
    ensures s.teardown.Idle? && !Orphaned(s) ==> HandleDisconnect(s).conn == Reconnecting && Alive(HandleDisconnect(s))
  {
    HandleDisconnectKeepsInv(c, s);
  }

  /** disconnect() ends DISCONNECTED, with no session and no loop; if the vendor's own raises,
      with no loop and the state and session it had. */
  lemma DisconnectCompletes(c: Config, s: Session, raises: bool)
    requires Inv(c, s) && s.teardown.Draining?
    ensures var t := Step(c, s, DisconnectDrained(raises));
      && t.teardown.Idle? && t.loops == map[] && t.wakeup.NoEvent? && t.backoff.None?
      && if raises && s.ib then t.conn == s.conn && t.ib else t.conn == Disconnected && !t.ib
  {
  }

  /** A failed attempt never makes the adapter CONNECTED and never fires the hooks. */
  lemma FailedAttempt(c: Config, s: Session, task: nat)
    requires Inv(c, s) && task in s.loops && (s.loops[task].pc.Dialing? || s.loops[task].pc.Streaming?)
    ensures var t := Resume(c, s, task, false);
      (t.conn == Connected ==> s.conn == Connected) && t.hooks == s.hooks
  {
    DecideInBounds(c, s, task, false);
  }

  /** How many steps of the live loop a pending retry_now() can outlast. */
  function Outlasts(s: Session, task: nat): nat {
    if s.wakeup != Event(true) || task !in s.loops then 0
    else if s.loops[task].pc.Dialing? then 2 else 1
  }

  /** A loop step takes the wake-up event, except from dialing to streaming in one attempt. */
  lemma LoopTakesWakeup(c: Config, s: Session, task: nat, ok: bool)
    requires Inv(c, s) && task in s.loops
    ensures var t := Resume(c, s, task, ok);
      t.wakeup == Event(true) ==> Outlasts(t, task) < Outlasts(s, task)
  {
    DecideInBounds(c, s, task, ok);
  }

  /** Nothing but retry_now() sets the event. */
  lemma OthersSetNoWakeup(c: Config, s: Session, e: Event, task: nat)
    requires Inv(c, s) && !e.LoopResumed? && !e.RetryNow? && task < s.nextTask
    ensures Step(c, s, e).wakeup == Event(true) ==> s.wakeup == Event(true)
    ensures Outlasts(Step(c, s, e), task) <= Outlasts(s, task)
  {
    OthersSpendNothing(c, s, e, task);
    OthersKeepWakeup(c, s, e);
  }

  lemma OthersKeepWakeup(c: Config, s: Session, e: Event)
    requires !e.LoopResumed? && !e.RetryNow?
    ensures Step(c, s, e).wakeup in {s.wakeup, NoEvent}
  {
  }

  /** A pending retry_now() is consumed: over any run without another one, it is gone once the
      live loop took one step, or two when it was dialing, whatever else happens. */
  lemma {:induction false} RetryIsConsumed(c: Config, s: Session, es: seq<Event>, task: nat)
    requires Inv(c, s) && task < s.nextTask && (s.wakeup == Event(true) ==> task in s.loops)
    requires RetryNow !in es && StepsOf(c, s, es, task) >= Outlasts(s, task)
    ensures Exec(c, s, es).wakeup != Event(true)
    decreases |es|
  {
    if es != [] {
      var e := es[0];
      var t := Step(c, s, e);
      StepKeepsInv(c, s, e);
      if e.LoopResumed? {
        if e.task in s.loops {
          LoopTakesWakeup(c, s, e.task, e.ok);
          ResumeSpendsBudget(c, s, e.task, e.ok);
          assert task in s.loops ==> e.task == task;
          assert t.wakeup == Event(true) ==> task in t.loops;
        }
      } else {
        OthersSetNoWakeup(c, s, e, task);
        OthersSpendNothing(c, s, e, task);
      }
      RetryIsConsumed(c, t, es[1..], task);
    }
  }

  /** A retry_now() during an attempt makes the attempt after a failure start at once. */
  lemma RetryDuringAttemptSkipsDelay(c: Config, s: Session, task: nat)
    requires Inv(c, s) && task in s.loops && s.conn == Reconnecting && s.teardown.Idle?
    requires s.loops[task].pc.Dialing? || s.loops[task].pc.Streaming?
    requires s.loops[task].pc.tried < |c.delays|
    ensures var t := Resume(c, Retry(s), task, false);
      task in t.loops && t.loops[task].pc == Dialing(s.loops[task].pc.tried + 1) && t.wakeup == Event(false)
  {
    assert s.handle == Some(task);
  }

  lemma WaitingKnowsItsDelay(c: Config, s: Session, task: nat)
    requires Inv(c, s) && task in s.loops && s.loops[task].pc.Waiting?
    ensures s.loops[task].pc.tried < |c.delays| && s.backoff == Some(c.delays[s.loops[task].pc.tried])
  {
  }

  // ---- the adapter object ------------------------------------------------------------

  /** The adapter's fields, updated in place by its callbacks and tasks. `loops` stands for
      the event loop's live tasks; `tried`, `endings` and `hooks` are history. Every method
      is one atomic step and takes the whole state where Step takes it. */
  class IbkrAdapter {
    const config: Config
    var conn: ConnectionState
    var ib: bool
    var loops: map<nat, Loop>
    var handle: Option<nat>
    var nextTask: nat
    var wakeup: Wakeup
    var backoff: Option<real>
    var teardown: Teardown
    var dialing: nat
    var streaming: nat
    ghost var tried: map<nat, nat>
    ghost var endings: map<nat, Ending>
    ghost var hooks: nat

    ghost function State(): Session
      reads this
    {
      Session(conn, ib, loops, handle, nextTask, wakeup, backoff, teardown, dialing, streaming, tried, endings, hooks)
    }

    ghost predicate Valid()
      reads this
    {
      Inv(config, State())
    }

    constructor (config: Config)
      ensures Valid() && this.config == config && State() == INITIAL
    {
      this.config := config;
      conn, ib, loops, handle, nextTask := Disconnected, false, map[], None, 0;
      wakeup, backoff, teardown, dialing, streaming := NoEvent, None, Idle, 0, 0;
      tried, endings, hooks := map[], map[], 0;
    }

    method CreateLoop()
      modifies this
      ensures State() == Spawn(old(State()))
    {
      loops := loops[nextTask := Loop(Unstarted, false)];
      handle := Some(nextTask);
      tried := tried[nextTask := 0];
      nextTask := nextTask + 1;
    }

    /** _handle_disconnect */
    method OnDisconnected()
      requires Valid()
      modifies this
      ensures Valid() && State() == Step(config, old(State()), SessionDropped)
    {
      StepKeepsInv(config, State(), SessionDropped);
      if !teardown.Idle? || conn == Reconnecting {
        return;
      }
      conn := Reconnecting;
      if handle.None? || handle.value !in loops {
        CreateLoop();
      }
    }

    method RetryNow()
      requires Valid()
      modifies this
      ensures Valid() && State() == Step(config, old(State()), Event.RetryNow)
    {
      StepKeepsInv(config, State(), Event.RetryNow);
      Nudge();
    }

    method Nudge()
      modifies this
      ensures State() == Step(config, old(State()), Event.RetryNow)
    {
      if !teardown.Idle? || conn == Connected {
        return;
      }
      wakeup := Event(true);
      if conn == Disconnected {
        conn := Reconnecting;
        if handle.None? || handle.value !in loops {
          CreateLoop();
        }
      } else if handle.None? || handle.value !in loops {
        CreateLoop();
      }
    }

    method ResumeLoop(task: nat, ok: bool)
      requires Valid() && task in loops
      modifies this
      ensures Valid() && State() == Step(config, old(State()), LoopResumed(task, ok))
    {
      StepKeepsInv(config, State(), LoopResumed(task, ok));
      if loops[task].pc.Waiting? { WaitingKnowsItsDelay(config, State(), task); }
      AdvanceLoop(task, ok);
    }

    /** _reconnect_loop, from where the task was suspended to its next await or its end. */
    method AdvanceLoop(task: nat, ok: bool)
      requires task in loops
      requires loops[task].pc.Waiting? ==>
        loops[task].pc.tried < |config.delays| && backoff == Some(config.delays[loops[task].pc.tried])
      modifies this
      ensures State() == Resume(config, old(State()), task, ok)
    {
      var l := loops[task];
      if l.cancelled {
        EndLoop(task, Cancelled);
        return;
      }
      match l.pc
      case Unstarted =>
        NextDelay(task, 0);
      case Waiting(k) =>
        Attempt(task, k);
      case Dialing(k) =>
        if !ok {
          NextDelay(task, k);
        } else {
          ib := true;
          if config.streams {
            loops := loops[task := Loop(Streaming(k), false)];
          } else {
            EndLoop(task, Reconnected);
          }
        }
      case Streaming(k) =>
        if ok {
          EndLoop(task, Reconnected);
        } else {
          ib := false;
          NextDelay(task, k);
        }
    }

    /** One turn of the for-loop up to the end of its wait. */
    method NextDelay(task: nat, k: nat)
      modifies this
      ensures State()
           == Continue(config, old(State()), task, BeginDelay(config, old(conn), old(wakeup) == Event(true), k))
    {
      if k >= |config.delays| {
        EndLoop(task, Exhausted);
        return;
      }
      backoff := Some(config.delays[k]);
      if wakeup == Event(true) {
        Attempt(task, k);
      } else {
        wakeup := Event(false);
        loops := loops[task := Loop(Waiting(k), false)];
      }
    }

    /** The wait is over: clear the event and dial, unless something else connected. */
    method Attempt(task: nat, k: nat)
      requires k < |config.delays| && backoff == Some(config.delays[k])
      modifies this
      ensures State() == Continue(config, old(State()), task, AfterWait(old(conn), k))
    {
      wakeup := Event(false);
      if conn == Connected {
        EndLoop(task, FoundConnected);
        return;
      }
      ib := false;
      tried := tried[task := k + 1];
      loops := loops[task := Loop(Dialing(k + 1), false)];
    }

    /** What the loop does on its way out, through its finally block. */
    method EndLoop(task: nat, how: Ending)
      modifies this
      ensures State() == Continue(config, old(State()), task, Ends(how))
    {
      if how == Reconnected {
        conn, hooks := Connected, hooks + 1;
      } else if how == Exhausted {
        conn := Disconnected;
      }
      loops := loops - {task};
      backoff, wakeup := None, NoEvent;
      endings := endings[task := how];
    }

    /** disconnect(), up to the await of the cancelled loop or of the fill writes. */
    method Disconnect()
      requires Valid() && teardown.Idle?
      modifies this
      ensures Valid() && State() == Step(config, old(State()), DisconnectCalled)
    {
      StepKeepsInv(config, State(), DisconnectCalled);
      StopReconnecting();
    }

    method StopReconnecting()
      requires teardown.Idle?
      modifies this
      ensures State() == Step(config, old(State()), DisconnectCalled)
    {
      var task := handle;
      handle, wakeup := None, NoEvent;
      if task.Some? && task.value in loops {
        loops := loops[task.value := loops[task.value].(cancelled := true)];
        teardown := Joining(task.value);
      } else {
        teardown := Draining;
      }
    }

    /** disconnect(), after the fill writes are drained. */
    method FinishDisconnect(raises: bool)
      requires Valid() && teardown.Draining?
      modifies this
      ensures Valid() && State() == Step(config, old(State()), DisconnectDrained(raises))
    {
      StepKeepsInv(config, State(), DisconnectDrained(raises));
      if !ib {
        conn := Disconnected;
      } else if !raises {
        ib := false;
        conn := Disconnected;
      }
      wakeup := NoEvent;
      teardown := Idle;
    }
  }
}
