/**
 The lifecycle shared by the polling adapters (app/adapters/tiger.py, longbridge.py,
 futu.py): start / connect / disconnect, the poll loop and the bounded reconnect loop, as
 atomic steps cut at every await. The three adapters are three values of Config.
 */
module PollingAdapter {
  import opened Broker

  /** `early`: Futu sets CONNECTED before its first refresh, inside the guarded block; Tiger
      and Longbridge set it after the first fetch. `publishes`: a live_positions store was
      given. `polls`: and the poll interval is positive. */
  datatype Config = Config(delays: seq<real>, early: bool, publishes: bool, polls: bool)

  datatype Vendor = Tiger | Longbridge | Futu

  /** Each adapter with a store and a positive poll interval. */
  function ConfigOf(v: Vendor, delays: seq<real>): Config { Config(delays, v.Futu?, true, true) }

  /** How an awaited vendor call comes back. Misconfigured is the error class that stops
      retrying (TigerConfigError, LongbridgeConfigError, ValueError). */
  datatype Outcome = Ok | Failed | Misconfigured

  /** Where connect() is suspended: awaiting the poll task it cancelled; closing the old
      clients; loading accounts and positions; Futu's first refresh; closing after a failure. */
  datatype Stage = JoiningPoll(task: nat) | Closing | Fetching | Refreshing | Abandoning(why: Outcome)

  datatype Poll = Poll(fetching: bool, cancelled: bool)

  datatype Pc = Unstarted | Sleeping(tried: nat) | Connecting(tried: nat, stage: Stage)

  datatype Loop = Loop(pc: Pc, cancelled: bool)

  /** A start() or connect() call from outside the loop. */
  datatype Call =
    NoCall | JoiningLoop(task: nat, isStart: bool) | InConnect(stage: Stage, isStart: bool) | Tidying(why: Outcome)

  /** A disconnect() call. */
  datatype Drop = NoDrop | DropsLoop(task: nat) | DropsPoll(task: nat) | DropsClients

  datatype Adapter = Adapter(
    conn: ConnectionState,
    clients: bool,
    polls: map<nat, Poll>,
    loops: map<nat, Loop>,
    pollHandle: Option<nat>,
    loopHandle: Option<nat>,
    nextTask: nat,
    backoff: Option<real>,
    call: Call,
    drop: Drop)

  const INITIAL := Adapter(Disconnected, false, map[], map[], None, None, 0, None, NoCall, NoDrop)

  datatype Event =
    | CallBegun(isStart: bool)
    | CallResumed(outcome: Outcome)
    | DisconnectCalled
    | DisconnectResumed
    | LoopResumed(task: nat, outcome: Outcome)
    | PollResumed(task: nat, outcome: Outcome)

  // ---- shared pieces -----------------------------------------------------------------

  function EnterReconnecting(c: Config, s: Adapter): Adapter {
    if s.conn == Reconnecting then s
    else if c.delays == [] then s.(conn := Disconnected)
    else if s.loopHandle.None? || s.loopHandle.value !in s.loops then
      s.(conn := Reconnecting, loops := s.loops[s.nextTask := Loop(Unstarted, false)],
         loopHandle := Some(s.nextTask), nextTask := s.nextTask + 1)
    else s.(conn := Reconnecting)
  }

  function StartPolling(c: Config, s: Adapter): Adapter {
    if !c.polls then s
    else
      s.(polls := s.polls[s.nextTask := Poll(false, false)], pollHandle := Some(s.nextTask), nextTask := s.nextTask + 1)
  }

  /** _stop_polling and _close_clients, up to the first await: the cancelled task, or the closes. */
  function BeginConnect(s: Adapter): (Adapter, Stage) {
    if s.pollHandle.Some? && s.pollHandle.value in s.polls then
      var task := s.pollHandle.value;
      (s.(pollHandle := None, polls := s.polls[task := s.polls[task].(cancelled := true)]), JoiningPoll(task))
    else (s.(pollHandle := None, clients := false), Closing)
  }

  datatype Progress = Pending(stage: Stage) | Raised(why: Outcome) | Returned

  /** connect() from one await to the next. */
  function ContinueConnect(c: Config, s: Adapter, stage: Stage, o: Outcome): (Adapter, Progress) {
    match stage
    case JoiningPoll(_) => (s.(clients := false), Pending(Closing))
    case Closing =>
      if o == Ok then (s.(clients := true), Pending(Fetching)) else (s, Raised(o))
    case Fetching =>
      if o != Ok then (s.(clients := false, conn := if c.early then Disconnected else s.conn), Pending(Abandoning(o)))
      else
        var t := s.(conn := Connected, backoff := None);
        if c.early && c.publishes then (t, Pending(Refreshing)) else (StartPolling(c, t), Returned)
    case Refreshing =>
      if o == Ok then (StartPolling(c, s), Returned)
      else (EnterReconnecting(c, s).(conn := Disconnected, clients := false), Pending(Abandoning(o)))
    case Abandoning(why) => (s.(conn := Disconnected), Raised(why))
  }

  // ---- steps -------------------------------------------------------------------------

  function BeginCall(s: Adapter, isStart: bool): Adapter {
    var t := s.(loopHandle := None, backoff := None);
    if s.loopHandle.Some? && s.loopHandle.value in s.loops then
      var task := s.loopHandle.value;
      t.(loops := s.loops[task := s.loops[task].(cancelled := true)], call := JoiningLoop(task, isStart))
    else
      var (u, stage) := BeginConnect(t);
      u.(call := InConnect(stage, isStart))
  }

  function ResumeCall(c: Config, s: Adapter, o: Outcome): Adapter {
    match s.call
    case NoCall => s
    case JoiningLoop(_, isStart) =>
      var (t, stage) := BeginConnect(s);
      t.(call := InConnect(stage, isStart))
    case InConnect(stage, isStart) =>
      var (t, p) := ContinueConnect(c, s, stage, o);
      (match p
       case Pending(next) => t.(call := InConnect(next, isStart))
       case Returned => t.(call := NoCall)
       case Raised(why) => if isStart then t.(call := Tidying(why), clients := false) else t.(call := NoCall))
    case Tidying(why) =>
      if why == Misconfigured then s.(conn := Disconnected, backoff := None, call := NoCall)
      else EnterReconnecting(c, s).(call := NoCall)
  }

  function BeginDrop(s: Adapter): Adapter {
    var t := s.(loopHandle := None, backoff := None);
    if s.loopHandle.Some? && s.loopHandle.value in s.loops then
      var task := s.loopHandle.value;
      t.(loops := s.loops[task := s.loops[task].(cancelled := true)], drop := DropsLoop(task))
    else DropPoll(t)
  }

  function DropPoll(s: Adapter): Adapter {
    var (t, stage) := BeginConnect(s);
    t.(drop := if stage.JoiningPoll? then DropsPoll(stage.task) else DropsClients)
  }

  function ResumeDrop(s: Adapter): Adapter {
    match s.drop
    case NoDrop => s
    case DropsLoop(_) => DropPoll(s)
    case DropsPoll(_) => s.(clients := false, drop := DropsClients)
    case DropsClients => s.(conn := Disconnected, drop := NoDrop)
  }

  function EndLoop(s: Adapter, task: nat): Adapter {
    s.(loops := s.loops - {task}, backoff := None)
  }

  function SuspendLoop(s: Adapter, task: nat, pc: Pc): Adapter {
    s.(loops := s.loops[task := Loop(pc, false)])
  }

  function Retry(c: Config, s: Adapter, task: nat, tried: nat): Adapter {
    if tried >= |c.delays| then EndLoop(s.(conn := Disconnected), task)
    else SuspendLoop(s.(backoff := Some(c.delays[tried])), task, Sleeping(tried))
  }

  function ResumeLoop(c: Config, s: Adapter, task: nat, o: Outcome): Adapter
    requires task in s.loops
  {
    if s.loops[task].cancelled then EndLoop(s, task)
    else
      match s.loops[task].pc
      case Unstarted => Retry(c, s, task, 0)
      case Sleeping(k) =>
        if s.conn == Connected then s.(loops := s.loops - {task})
        else
          var (t, stage) := BeginConnect(s);
          SuspendLoop(t, task, Connecting(k + 1, stage))
      case Connecting(k, stage) =>
        var (t, p) := ContinueConnect(c, s, stage, o);
        match p
        case Pending(next) => SuspendLoop(t, task, Connecting(k, next))
        case Returned => EndLoop(t, task)
        case Raised(why) =>
          if why == Misconfigured then EndLoop(t.(conn := Disconnected), task)
          else Retry(c, t.(conn := Reconnecting), task, k)
  }

  function ResumePoll(c: Config, s: Adapter, task: nat, o: Outcome): Adapter
    requires task in s.polls
  {
    if s.polls[task].cancelled then s.(polls := s.polls - {task})
    else if !s.polls[task].fetching then
      if c.early && s.conn != Connected then s else s.(polls := s.polls[task := Poll(true, false)])
    else if o == Ok then s.(polls := s.polls[task := Poll(false, false)])
    else EnterReconnecting(c, s.(polls := s.polls - {task}))
  }

  /** connect() calls do not overlap: a second call, or a loop's next attempt, waits for the first. */
  predicate Enabled(s: Adapter, e: Event) {
    match e
    case CallBegun(_) => s.call.NoCall?
    case CallResumed(_) =>
      (match s.call
       case NoCall => false
       case JoiningLoop(task, _) => task !in s.loops
       case InConnect(stage, _) => stage.JoiningPoll? ==> stage.task !in s.polls
       case Tidying(_) => true)
    case DisconnectCalled => s.drop.NoDrop?
    case DisconnectResumed =>
      (match s.drop
       case NoDrop => false
       case DropsLoop(task) => task !in s.loops
       case DropsPoll(task) => task !in s.polls
       case DropsClients => true)
    case LoopResumed(task, _) =>
      task in s.loops &&
      (s.loops[task].cancelled ||
       match s.loops[task].pc
       case Unstarted => true
       case Sleeping(_) => s.call.NoCall?
       case Connecting(_, stage) => stage.JoiningPoll? ==> stage.task !in s.polls)
    case PollResumed(task, _) => task in s.polls
  }

  function Step(c: Config, s: Adapter, e: Event): Adapter {
    if !Enabled(s, e) then s
    else
      match e
      case CallBegun(isStart) => BeginCall(s, isStart)
      case CallResumed(o) => ResumeCall(c, s, o)
      case DisconnectCalled => BeginDrop(s)
      case DisconnectResumed => ResumeDrop(s)
      case LoopResumed(task, o) => ResumeLoop(c, s, task, o)
      case PollResumed(task, o) => ResumePoll(c, s, task, o)
  }

  function Exec(c: Config, s: Adapter, es: seq<Event>): Adapter
    decreases |es|
  {
    if es == [] then s else Exec(c, Step(c, s, es[0]), es[1..])
  }

  // ---- what every step keeps ---------------------------------------------------------

  // A task runs while nobody has cancelled it; its handle then names it.

  predicate LoopRuns(s: Adapter) { s.loopHandle.Some? && s.loopHandle.value in s.loops }

  predicate PollRuns(s: Adapter) { s.pollHandle.Some? && s.pollHandle.value in s.polls }

  predicate AtRest(s: Adapter) { s.call.NoCall? && s.drop.NoDrop? }

  /** A call from outside that has not failed so far. */
  predicate Succeeding(s: Adapter) {
    s.call.JoiningLoop? || (s.call.InConnect? && !s.call.stage.Abandoning?)
  }

  predicate StageOk(c: Config, s: Adapter, stage: Stage) {
    match stage
    case JoiningPoll(_) => true
    case Closing => !s.clients
    case Fetching => true
    case Refreshing => c.early && s.conn != Reconnecting
    case Abandoning(why) => why != Ok
  }

  predicate CallOk(c: Config, s: Adapter) {
    match s.call
    case InConnect(stage, _) => StageOk(c, s, stage)
    case Tidying(why) => why != Ok
    case _ => true
  }

  predicate RunningLoopOk(c: Config, s: Adapter, pc: Pc) {
    match pc
    case Unstarted => s.conn != Connected && c.delays != []
    case Sleeping(k) => s.conn != Connected && k < |c.delays|
    case Connecting(k, stage) =>
      && 1 <= k <= |c.delays| && s.call.NoCall? && !stage.JoiningPoll? && StageOk(c, s, stage)
      && (!stage.Refreshing? ==> s.conn != Connected)
  }

  ghost predicate TasksOk(s: Adapter) {
    && (forall i | i in s.loops :: i < s.nextTask && (s.loops[i].cancelled <==> s.loopHandle != Some(i)))
    && (forall i | i in s.polls :: i < s.nextTask && (s.polls[i].cancelled <==> s.pollHandle != Some(i)))
  }

  /** Kept by every step, whatever calls overlap: a running poll loop and a running reconnect
      loop exclude each other, and a call under way leaves neither running. */
  ghost predicate Sound(c: Config, s: Adapter) {
    && TasksOk(s) && CallOk(c, s)
    && !(LoopRuns(s) && PollRuns(s))
    && (PollRuns(s) ==> s.call.NoCall?)
    && (LoopRuns(s) ==> !Succeeding(s) && RunningLoopOk(c, s, s.loops[s.loopHandle.value].pc))
    && (s.backoff.Some? ==> LoopRuns(s))
  }

  /** At rest in a state nobody is working on. */
  predicate Stuck(s: Adapter) { AtRest(s) && s.conn == Reconnecting && !LoopRuns(s) }

  /** The step on which a connect() from outside that failed while it was still building its
      clients hands the state it found back, the loop or poll task it found being gone. */
  predicate SetupFailureLeavesState(s: Adapter, e: Event) {
    && Enabled(s, e) && e.CallResumed? && s.drop.NoDrop? && !LoopRuns(s)
    && if s.call.Tidying? then s.call.why == Failed && s.conn == Reconnecting
       else s.call == InConnect(Closing, false) && e.outcome != Ok && s.conn != Disconnected
  }

  /** That step, when the state it hands back is RECONNECTING. */
  predicate SetupFailureSticks(s: Adapter, e: Event) {
    SetupFailureLeavesState(s, e) && s.conn == Reconnecting
  }

  lemma BeginCallKeepsSound(c: Config, s: Adapter, isStart: bool)
    requires Sound(c, s) && s.call.NoCall?
    ensures Sound(c, BeginCall(s, isStart))
  {
  }

  lemma BeginDropKeepsSound(c: Config, s: Adapter)
    requires Sound(c, s) && s.drop.NoDrop?
    ensures Sound(c, BeginDrop(s))
  {
  }

  lemma ResumeDropKeepsSound(c: Config, s: Adapter)
    requires Sound(c, s)
    ensures Sound(c, ResumeDrop(s))
    ensures !Stuck(s) ==> !Stuck(ResumeDrop(s))
  {
    if s.drop.DropsLoop? {
      DropPollKeepsSound(c, s);
    }
  }

  lemma DropPollKeepsSound(c: Config, s: Adapter)
    requires Sound(c, s)
    ensures Sound(c, DropPoll(s)) && !DropPoll(s).drop.NoDrop?
  {
  }

  lemma EnterReconnectingOk(c: Config, s: Adapter)
    requires TasksOk(s) && s.conn != Reconnecting
    requires LoopRuns(s) ==> !s.loops[s.loopHandle.value].pc.Connecting?
    ensures var t := EnterReconnecting(c, s);
      && TasksOk(t) && t.conn != Connected
      && t == s.(conn := t.conn, loops := t.loops, loopHandle := t.loopHandle, nextTask := t.nextTask)
      && (t.conn == Reconnecting ==> LoopRuns(t))
      && (if LoopRuns(s) || c.delays == [] then t == s.(conn := t.conn)
          else LoopRuns(t) && t.loops[t.loopHandle.value].pc == Unstarted && t.loopHandle == Some(s.nextTask))
  {
  }

  lemma ResumePollKeepsSound(c: Config, s: Adapter, task: nat, o: Outcome)
    requires Sound(c, s) && task in s.polls
    ensures Sound(c, ResumePoll(c, s, task, o))
    ensures !Stuck(s) ==> !Stuck(ResumePoll(c, s, task, o))
  {
    if s.conn != Reconnecting && !LoopRuns(s) {
      EnterReconnectingOk(c, s.(polls := s.polls - {task}));
    }
  }

  lemma ResumeCallKeepsSound(c: Config, s: Adapter, o: Outcome)
    requires Sound(c, s) && Enabled(s, CallResumed(o))
    ensures Sound(c, ResumeCall(c, s, o))
    ensures Stuck(ResumeCall(c, s, o)) <==> SetupFailureSticks(s, CallResumed(o))
  {
    match s.call
    case JoiningLoop(_, _) =>
    case InConnect(stage, _) =>
      if stage.Refreshing? {
        FirstRefreshKeepsSound(c, s, o);
      } else {
        ResumeInConnectKeepsSound(c, s, o);
      }
    case Tidying(_) => TidyingKeepsSound(c, s, o);
  }

  lemma TidyingKeepsSound(c: Config, s: Adapter, o: Outcome)
    requires Sound(c, s) && s.call.Tidying?
    ensures Sound(c, ResumeCall(c, s, o))
    ensures Stuck(ResumeCall(c, s, o)) <==> SetupFailureSticks(s, CallResumed(o))
  {
    if s.call.why == Failed && s.conn != Reconnecting {
      StartRetries(c, s);
    }
  }

  /** start() hands a failure over to the reconnect loop. */
  lemma StartRetries(c: Config, s: Adapter)
    requires Sound(c, s) && s.call.Tidying? && s.conn != Reconnecting
    ensures var t := EnterReconnecting(c, s).(call := NoCall); Sound(c, t) && !Stuck(t)
  {
    EnterReconnectingOk(c, s);
  }

  lemma ResumeInConnectKeepsSound(c: Config, s: Adapter, o: Outcome)
    requires Sound(c, s) && Enabled(s, CallResumed(o)) && s.call.InConnect? && !s.call.stage.Refreshing?
    ensures Sound(c, ResumeCall(c, s, o))
    ensures Stuck(ResumeCall(c, s, o)) <==> SetupFailureSticks(s, CallResumed(o))
  {
    match s.call.stage
    case Fetching => FirstFetchKeepsSound(c, s, o);
    case Abandoning(_) => GivingUpKeepsSound(c, s, o);
    case _ => SetupKeepsSound(c, s, o);
  }

  lemma SetupKeepsSound(c: Config, s: Adapter, o: Outcome)
    requires Sound(c, s) && s.call.InConnect? && (s.call.stage.JoiningPoll? || s.call.stage.Closing?)
    ensures Sound(c, ResumeCall(c, s, o))
    ensures Enabled(s, CallResumed(o)) ==> (Stuck(ResumeCall(c, s, o)) <==> SetupFailureSticks(s, CallResumed(o)))
  {
  }

  lemma FirstFetchKeepsSound(c: Config, s: Adapter, o: Outcome)
    requires Sound(c, s) && s.call.InConnect? && s.call.stage.Fetching?
    ensures Sound(c, ResumeCall(c, s, o)) && !Stuck(ResumeCall(c, s, o))
  {
  }

  lemma GivingUpKeepsSound(c: Config, s: Adapter, o: Outcome)
    requires Sound(c, s) && s.call.InConnect? && s.call.stage.Abandoning?
    ensures Sound(c, ResumeCall(c, s, o)) && !Stuck(ResumeCall(c, s, o))
  {
  }

  lemma FirstRefreshKeepsSound(c: Config, s: Adapter, o: Outcome)
    requires Sound(c, s) && s.call.InConnect? && s.call.stage.Refreshing?
    ensures Sound(c, ResumeCall(c, s, o))
    ensures !Stuck(ResumeCall(c, s, o))
  {
    if o != Ok {
      EnterReconnectingOk(c, s);
    }
  }

  lemma RetryKeepsSound(c: Config, s: Adapter, k: nat)
    requires TasksOk(s) && CallOk(c, s) && LoopRuns(s) && !PollRuns(s) && !Succeeding(s) && s.conn != Connected
    ensures var t := Retry(c, s, s.loopHandle.value, k); Sound(c, t) && !Stuck(t)
  {
  }

  lemma ResumeAttemptKeepsSound(c: Config, s: Adapter, task: nat, o: Outcome)
    requires Sound(c, s) && task in s.loops && !s.loops[task].cancelled && s.loops[task].pc.Connecting?
    ensures Sound(c, ResumeLoop(c, s, task, o)) && !Stuck(ResumeLoop(c, s, task, o))
  {
    var stage := s.loops[task].pc.stage;
    if o == Ok && !stage.Abandoning? {
      AttemptGoesOn(c, s, task);
    } else {
      AttemptFails(c, s, task, o);
    }
  }

  lemma AttemptGoesOn(c: Config, s: Adapter, task: nat)
    requires Sound(c, s) && task in s.loops && !s.loops[task].cancelled && s.loops[task].pc.Connecting?
    requires !s.loops[task].pc.stage.Abandoning?
    ensures Sound(c, ResumeLoop(c, s, task, Ok)) && !Stuck(ResumeLoop(c, s, task, Ok))
  {
  }

  lemma AttemptFails(c: Config, s: Adapter, task: nat, o: Outcome)
    requires Sound(c, s) && task in s.loops && !s.loops[task].cancelled && s.loops[task].pc.Connecting?
    requires o != Ok || s.loops[task].pc.stage.Abandoning?
    ensures Sound(c, ResumeLoop(c, s, task, o)) && !Stuck(ResumeLoop(c, s, task, o))
  {
    var stage := s.loops[task].pc.stage;
    if stage.Closing? || stage.Abandoning? {
      AttemptRaises(c, s, task, if stage.Closing? then o else stage.why, o);
    } else {
      AttemptIsAbandoned(c, s, task, o);
    }
  }

  lemma AttemptIsAbandoned(c: Config, s: Adapter, task: nat, o: Outcome)
    requires Sound(c, s) && task in s.loops && !s.loops[task].cancelled && s.loops[task].pc.Connecting?
    requires o != Ok && (s.loops[task].pc.stage.Fetching? || s.loops[task].pc.stage.Refreshing?)
    ensures Sound(c, ResumeLoop(c, s, task, o)) && !Stuck(ResumeLoop(c, s, task, o))
  {
    var t := ResumeLoop(c, s, task, o);
    assert t.loopHandle == Some(task);
    assert t.loops == s.loops[task := Loop(Connecting(s.loops[task].pc.tried, Abandoning(o)), false)];
    assert t.polls == s.polls && t.pollHandle == s.pollHandle && t.nextTask == s.nextTask && t.call == s.call;
  }

  lemma AttemptRaises(c: Config, s: Adapter, task: nat, why: Outcome, o: Outcome)
    requires Sound(c, s) && task in s.loops && !s.loops[task].cancelled && s.loops[task].pc.Connecting?
    requires why != Ok && (s.loops[task].pc.stage == Abandoning(why) || (s.loops[task].pc.stage.Closing? && why == o))
    ensures Sound(c, ResumeLoop(c, s, task, o)) && !Stuck(ResumeLoop(c, s, task, o))
  {
    if why == Failed {
      RetryKeepsSound(c, s.(conn := Reconnecting), s.loops[task].pc.tried);
    }
  }

  lemma ResumeLoopKeepsSound(c: Config, s: Adapter, task: nat, o: Outcome)
    requires Sound(c, s) && Enabled(s, LoopResumed(task, o))
    ensures Sound(c, ResumeLoop(c, s, task, o))
    ensures !Stuck(s) ==> !Stuck(ResumeLoop(c, s, task, o))
  {
    if !s.loops[task].cancelled {
      match s.loops[task].pc
      case Unstarted => RetryKeepsSound(c, s, 0);
      case Sleeping(k) =>
      case Connecting(_, _) => ResumeAttemptKeepsSound(c, s, task, o);
    }
  }

  /** Every step keeps the invariant, and leaves RECONNECTING without a running loop exactly on
      a setup failure that found it. */
  lemma StepKeepsSound(c: Config, s: Adapter, e: Event)
    requires Sound(c, s)
    ensures Sound(c, Step(c, s, e))
    ensures !Stuck(s) ==> (Stuck(Step(c, s, e)) <==> SetupFailureSticks(s, e))
  {
    if Enabled(s, e) {
      match e
      case CallBegun(isStart) => BeginCallKeepsSound(c, s, isStart);
      case CallResumed(o) => ResumeCallKeepsSound(c, s, o);
      case DisconnectCalled => BeginDropKeepsSound(c, s);
      case DisconnectResumed => ResumeDropKeepsSound(c, s);
      case LoopResumed(task, o) => ResumeLoopKeepsSound(c, s, task, o);
      case PollResumed(task, o) => ResumePollKeepsSound(c, s, task, o);
    }
  }

  // ---- what each piece comes to --------------------------------------------------------

  /** A refresh that fails ends its poll loop and hands over to a reconnect loop at its start,
      or to DISCONNECTED without delays; one that succeeds goes back to sleep. Futu sleeps on
      while it is not CONNECTED. */
  lemma RefreshOutcome(c: Config, s: Adapter, task: nat, o: Outcome)
    requires Sound(c, s) && task in s.polls && !s.polls[task].cancelled
    ensures var t := ResumePoll(c, s, task, o);
      if !s.polls[task].fetching then
        if c.early && s.conn != Connected then t == s else t == s.(polls := s.polls[task := Poll(true, false)])
      else if o == Ok then t == s.(polls := s.polls[task := Poll(false, false)])
      else
        && task !in t.polls && !PollRuns(t) && t.clients == s.clients
        && if s.conn == Reconnecting then t.conn == Reconnecting && t.loops == s.loops
           else if c.delays == [] then t.conn == Disconnected && t.loops == s.loops
           else t.conn == Reconnecting && LoopRuns(t) && t.loops[t.loopHandle.value] == Loop(Unstarted, false)
  {
    if s.conn != Reconnecting {
      EnterReconnectingOk(c, s.(polls := s.polls - {task}));
    }
  }

  /** connect() read from its outcome. It returns only once its fetch, and Futu's first
      refresh, came back, CONNECTED and with a poll loop; it raises what failed, DISCONNECTED
      if its clients had been built; and it closes what it built before it raises. */
  lemma ConnectOutcome(c: Config, s: Adapter, stage: Stage, o: Outcome)
    requires StageOk(c, s, stage)
    ensures var (t, p) := ContinueConnect(c, s, stage, o);
      match p
      case Returned =>
        && o == Ok && t.clients == s.clients
        && (if c.early && c.publishes then stage.Refreshing? else stage.Fetching? || stage.Refreshing?)
        && (stage.Fetching? ==> t.conn == Connected && t.backoff.None?)
        && if c.polls then PollRuns(t) && t.polls == s.polls[s.nextTask := Poll(false, false)] else t.polls == s.polls
      case Raised(why) =>
        && why != Ok
        && if stage.Abandoning? then stage.why == why && t.conn == Disconnected && t.clients == s.clients
           else stage.Closing? && why == o && t == s
      case Pending(next) =>
        match next
        case JoiningPoll(_) => false
        case Closing => stage.JoiningPoll? && !t.clients && t.conn == s.conn
        case Fetching => stage.Closing? && o == Ok && t.clients && t.conn == s.conn
        case Refreshing =>
          stage.Fetching? && o == Ok && t.conn == Connected && t.clients == s.clients && t.backoff.None?
        case Abandoning(why) =>
          && (stage.Fetching? || stage.Refreshing?) && why == o != Ok && !t.clients
          && t.conn == if c.early then Disconnected else s.conn
  {
  }

  /** start() ends, after a failure, as a misconfigured adapter DISCONNECTED, otherwise in a
      reconnect loop (or DISCONNECTED without delays), unless it found RECONNECTING. */
  lemma StartOutcome(c: Config, s: Adapter, o: Outcome)
    requires Sound(c, s) && s.call.Tidying?
    ensures var t := ResumeCall(c, s, o);
      && t.call.NoCall?
      && if s.call.why == Misconfigured then t.conn == Disconnected && t.loops == s.loops
         else if s.conn == Reconnecting then t.conn == Reconnecting && t.loops == s.loops
         else if c.delays == [] then t.conn == Disconnected
         else t.conn == Reconnecting && LoopRuns(t)
  {
    if s.conn != Reconnecting {
      EnterReconnectingOk(c, s);
    }
  }

  /** What connect() from outside raises goes to start(), its clients closed, or to the caller. */
  lemma CallRaises(c: Config, s: Adapter, o: Outcome)
    requires Sound(c, s) && s.call.InConnect? && ContinueConnect(c, s, s.call.stage, o).1.Raised?
    ensures var t := ResumeCall(c, s, o); var why := ContinueConnect(c, s, s.call.stage, o).1.why;
      && (if s.call.isStart then t.call == Tidying(why) && !t.clients else t.call.NoCall?)
      && t.conn == if s.call.stage.Abandoning? then Disconnected else s.conn
  {
  }

  /** A loop sleeps for its k-th delay, counted from its start, only as its first step or after
      its k-th attempt failed, and says so in the backoff value. */
  lemma LoopSleeps(c: Config, s: Adapter, task: nat, o: Outcome)
    requires Sound(c, s) && Enabled(s, LoopResumed(task, o)) && !s.loops[task].cancelled
    requires var t := ResumeLoop(c, s, task, o); task in t.loops && t.loops[task].pc.Sleeping?
    ensures var t := ResumeLoop(c, s, task, o); var k := t.loops[task].pc.tried;
      && k < |c.delays| && t.backoff == Some(c.delays[k])
      && match s.loops[task].pc
         case Unstarted => k == 0 && t.conn == s.conn
         case Sleeping(_) => false
         case Connecting(n, stage) =>
           n == k && t.conn == Reconnecting && Failure(stage, o) == Failed && !stage.Fetching? && !stage.Refreshing?
  {
  }

  function Failure(stage: Stage, o: Outcome): Outcome { if stage.Abandoning? then stage.why else o }

  /** An attempt begins only out of its own sleep, closing the clients there were. */
  lemma AttemptEndsItsSleep(c: Config, s: Adapter, task: nat, o: Outcome)
    requires Sound(c, s) && Enabled(s, LoopResumed(task, o)) && !s.loops[task].cancelled
    requires var t := ResumeLoop(c, s, task, o); task in t.loops && t.loops[task].pc.Connecting?
    ensures var t := ResumeLoop(c, s, task, o);
      match s.loops[task].pc
      case Unstarted => false
      case Sleeping(k) => t.loops[task].pc == Connecting(k + 1, Closing) && !t.clients
      case Connecting(k, stage) =>
        t.loops[task].pc.tried == k && ContinueConnect(c, s, stage, o).1 == Pending(t.loops[task].pc.stage)
  {
    if s.loops[task].pc.Connecting? {
      AttemptKeepsLoops(c, s, s.loops[task].pc.stage, o);
    }
  }

  /** A running loop ends by its success, by a misconfiguration, or once every delay had its
      failed attempt; in the latter two DISCONNECTED. */
  lemma LoopEnds(c: Config, s: Adapter, task: nat, o: Outcome)
    requires Sound(c, s) && Enabled(s, LoopResumed(task, o)) && !s.loops[task].cancelled
    requires task !in ResumeLoop(c, s, task, o).loops
    ensures var t := ResumeLoop(c, s, task, o);
      && s.loops[task].pc.Connecting? && t.backoff.None?
      && var stage := s.loops[task].pc.stage;
         match ContinueConnect(c, s, stage, o).1
         case Returned => o == Ok && (c.polls ==> PollRuns(t)) && (stage.Fetching? ==> t.conn == Connected)
         case Raised(why) =>
           t.conn == Disconnected && (why == Misconfigured || s.loops[task].pc.tried == |c.delays|)
         case Pending(_) => false
  {
    if s.loops[task].pc.Connecting? {
      ConnectOutcome(c, s, s.loops[task].pc.stage, o);
      AttemptKeepsLoops(c, s, s.loops[task].pc.stage, o);
    }
  }

  // ---- clients closed in use ---------------------------------------------------------

  /** connect() from outside, or the reconnect loop's own, has built its clients. */
  predicate Built(s: Adapter) { s.call.InConnect? && (s.call.stage.Fetching? || s.call.stage.Refreshing?) }

  predicate LoopBuilt(s: Adapter) {
    LoopRuns(s) &&
    match s.loops[s.loopHandle.value].pc
    case Connecting(_, stage) => stage.Fetching? || stage.Refreshing?
    case _ => false
  }

  predicate InUse(s: Adapter) { Built(s) || LoopBuilt(s) || PollRuns(s) }

  predicate Builds(c: Config, s: Adapter, e: Event) { !s.clients && Step(c, s, e).clients }

  /** The step of disconnect() that closes the clients, at a time when they are in use. */
  predicate ClosesInUse(c: Config, s: Adapter, e: Event) {
    InUse(s) && !s.drop.DropsClients? && Step(c, s, e).drop.DropsClients?
  }

  /** Whether a disconnect() has closed clients in use since they were last built. */
  function Lost(c: Config, s: Adapter, e: Event, lost: bool): bool {
    if Builds(c, s, e) then false else lost || ClosesInUse(c, s, e)
  }

  function LostAfter(c: Config, s: Adapter, es: seq<Event>, lost: bool): bool
    decreases |es|
  {
    if es == [] then lost else LostAfter(c, Step(c, s, es[0]), es[1..], Lost(c, s, es[0], lost))
  }

  /** Clients in use are open unless lost. */
  predicate Accounted(s: Adapter, lost: bool) { InUse(s) ==> (s.clients <==> !lost) }

  predicate RestAccounted(s: Adapter, lost: bool) { AtRest(s) && s.conn == Connected ==> (s.clients <==> !lost) }

  lemma CallBegunAccounts(c: Config, s: Adapter, isStart: bool)
    requires Sound(c, s) && s.call.NoCall?
    ensures !InUse(BeginCall(s, isStart)) && !AtRest(BeginCall(s, isStart))
  {
  }

  /** A call that is building, or fails, has nothing in use, and is accounted for at rest but
      for a setup failure. */
  lemma CallSetupAccounts(c: Config, s: Adapter, o: Outcome)
    requires Sound(c, s) && Enabled(s, CallResumed(o))
    requires s.call.JoiningLoop? || s.call.Tidying?
          || (s.call.InConnect? && (s.call.stage.JoiningPoll? || s.call.stage.Abandoning?))
    ensures var t := ResumeCall(c, s, o);
      !InUse(t) && (AtRest(t) ==> t.conn != Connected) && !(t.clients && !s.clients)
  {
    if s.call.Tidying? && s.conn != Reconnecting {
      EnterReconnectingOk(c, s);
    }
  }

  lemma CallClosingAccounts(c: Config, s: Adapter, o: Outcome)
    requires Sound(c, s) && s.call.InConnect? && s.call.stage.Closing?
    ensures var t := ResumeCall(c, s, o);
      && (o == Ok ==> t.clients && !s.clients && !AtRest(t))
      && (o != Ok ==> !InUse(t) && !t.clients)
      && (o != Ok && AtRest(t) ==> t.conn == Disconnected || SetupFailureLeavesState(s, CallResumed(o)))
  {
  }

  lemma CallFetchAccounts(c: Config, s: Adapter, o: Outcome, lost: bool)
    requires Sound(c, s) && Accounted(s, lost) && Built(s)
    ensures var t := ResumeCall(c, s, o);
      if o == Ok then t.clients == s.clients else !t.clients && !InUse(t) && !AtRest(t)
  {
    if s.call.stage.Refreshing? && o != Ok {
      EnterReconnectingOk(c, s);
    }
  }

  lemma CallAccounts(c: Config, s: Adapter, e: Event, lost: bool)
    requires Sound(c, s) && Accounted(s, lost) && (e.CallBegun? || e.CallResumed?)
    ensures Accounted(Step(c, s, e), Lost(c, s, e, lost))
    ensures RestAccounted(s, lost) && !SetupFailureLeavesState(s, e) ==>
      RestAccounted(Step(c, s, e), Lost(c, s, e, lost))
  {
    OnlyDropsClose(c, s, e);
    if Enabled(s, e) {
      if e.CallBegun? {
        CallBegunAccounts(c, s, e.isStart);
      } else if Built(s) {
        CallFetchAccounts(c, s, e.outcome, lost);
      } else if s.call.InConnect? && s.call.stage.Closing? {
        CallClosingAccounts(c, s, e.outcome);
      } else {
        CallSetupAccounts(c, s, e.outcome);
      }
    }
  }

  lemma DropAccounts(c: Config, s: Adapter, e: Event, lost: bool)
    requires Sound(c, s) && Accounted(s, lost) && (e.DisconnectCalled? || e.DisconnectResumed?)
    ensures Accounted(Step(c, s, e), Lost(c, s, e, lost))
    ensures RestAccounted(s, lost) ==> RestAccounted(Step(c, s, e), Lost(c, s, e, lost))
  {
  }

  lemma CancelledLoopAccounts(c: Config, s: Adapter, task: nat, o: Outcome)
    requires Sound(c, s) && task in s.loops && s.loops[task].cancelled
    ensures var t := ResumeLoop(c, s, task, o);
      t == s.(loops := t.loops, backoff := None) && InUse(t) == InUse(s)
  {
  }

  /** A running loop outside its own connect(), or building or giving up in it. */
  lemma LoopSetupAccounts(c: Config, s: Adapter, task: nat, o: Outcome)
    requires Sound(c, s) && Enabled(s, LoopResumed(task, o)) && !s.loops[task].cancelled
    requires !LoopBuilt(s) && !(s.loops[task].pc.Connecting? && s.loops[task].pc.stage.Closing?)
    ensures var t := ResumeLoop(c, s, task, o); !InUse(t) && !(t.clients && !s.clients) && t.conn != Connected
  {
  }

  lemma LoopClosingAccounts(c: Config, s: Adapter, task: nat, o: Outcome)
    requires Sound(c, s) && task in s.loops && !s.loops[task].cancelled
    requires s.loops[task].pc.Connecting? && s.loops[task].pc.stage.Closing?
    ensures var t := ResumeLoop(c, s, task, o);
      t.conn != Connected && if o == Ok then t.clients && !s.clients else !InUse(t) && !t.clients
  {
  }

  lemma LoopFetchAccounts(c: Config, s: Adapter, task: nat, o: Outcome)
    requires Sound(c, s) && task in s.loops && !s.loops[task].cancelled && LoopBuilt(s)
    ensures var t := ResumeLoop(c, s, task, o);
      if o == Ok then t.clients == s.clients else !t.clients && !InUse(t) && t.conn != Connected
  {
    if s.loops[task].pc.stage.Fetching? {
      LoopFetches(c, s, task, o);
    }
  }

  lemma LoopFetches(c: Config, s: Adapter, task: nat, o: Outcome)
    requires Sound(c, s) && task in s.loops && !s.loops[task].cancelled
    requires s.loops[task].pc.Connecting? && s.loops[task].pc.stage.Fetching?
    ensures var t := ResumeLoop(c, s, task, o);
      if o == Ok then t.clients == s.clients else !t.clients && !InUse(t) && t.conn != Connected
  {
  }

  lemma LoopAccounts(c: Config, s: Adapter, e: Event, lost: bool)
    requires Sound(c, s) && Accounted(s, lost) && e.LoopResumed?
    ensures Accounted(Step(c, s, e), Lost(c, s, e, lost))
    ensures RestAccounted(s, lost) ==> RestAccounted(Step(c, s, e), Lost(c, s, e, lost))
  {
    OnlyDropsClose(c, s, e);
    if Enabled(s, e) {
      if s.loops[e.task].cancelled {
        CancelledLoopAccounts(c, s, e.task, e.outcome);
      } else if LoopBuilt(s) {
        LoopFetchAccounts(c, s, e.task, e.outcome);
      } else if s.loops[e.task].pc.Connecting? && s.loops[e.task].pc.stage.Closing? {
        LoopClosingAccounts(c, s, e.task, e.outcome);
      } else {
        LoopSetupAccounts(c, s, e.task, e.outcome);
      }
    }
  }

  lemma PollAccounts(c: Config, s: Adapter, e: Event, lost: bool)
    requires Sound(c, s) && Accounted(s, lost) && e.PollResumed?
    ensures Accounted(Step(c, s, e), Lost(c, s, e, lost))
    ensures RestAccounted(s, lost) ==> RestAccounted(Step(c, s, e), Lost(c, s, e, lost))
  {
  }

  lemma StepAccounts(c: Config, s: Adapter, e: Event, lost: bool)
    requires Sound(c, s) && Accounted(s, lost)
    ensures Accounted(Step(c, s, e), Lost(c, s, e, lost))
    ensures RestAccounted(s, lost) && !SetupFailureLeavesState(s, e) ==>
      RestAccounted(Step(c, s, e), Lost(c, s, e, lost))
  {
    match e
    case LoopResumed(_, _) => LoopAccounts(c, s, e, lost);
    case PollResumed(_, _) => PollAccounts(c, s, e, lost);
    case DisconnectCalled => DropAccounts(c, s, e, lost);
    case DisconnectResumed => DropAccounts(c, s, e, lost);
    case _ => CallAccounts(c, s, e, lost);
  }

  // ---- whole runs --------------------------------------------------------------------

  predicate SetupNeverFails(c: Config, s: Adapter, es: seq<Event>)
    decreases |es|
  {
    es == [] || (!SetupFailureLeavesState(s, es[0]) && SetupNeverFails(c, Step(c, s, es[0]), es[1..]))
  }

  lemma {:induction false} RunKeepsSound(c: Config, s: Adapter, es: seq<Event>, lost: bool)
    requires Sound(c, s) && Accounted(s, lost)
    ensures Sound(c, Exec(c, s, es)) && Accounted(Exec(c, s, es), LostAfter(c, s, es, lost))
    ensures !Stuck(s) && RestAccounted(s, lost) && SetupNeverFails(c, s, es) ==>
      !Stuck(Exec(c, s, es)) && RestAccounted(Exec(c, s, es), LostAfter(c, s, es, lost))
    decreases |es|
  {
    if es != [] {
      StepKeepsSound(c, s, es[0]);
      StepAccounts(c, s, es[0], lost);
      RunKeepsSound(c, Step(c, s, es[0]), es[1..], Lost(c, s, es[0], lost));
    }
  }

  /** Safety over every run, whatever calls overlap and however they come back. A running task
      is the one its handle names; a running poll loop and a running reconnect loop exclude each
      other; a backoff value has a running loop; a running poll loop has its clients open unless
      a disconnect() closed them in use since they were built. Without setup failures, at rest
      RECONNECTING has a running loop and CONNECTED its clients, unless so lost. */
  lemma PollingSafety(c: Config, es: seq<Event>)
    ensures var s := Exec(c, INITIAL, es); var lost := LostAfter(c, INITIAL, es, false);
      && (forall i | i in s.polls :: !s.polls[i].cancelled <==> s.pollHandle == Some(i))
      && (forall i | i in s.loops :: !s.loops[i].cancelled <==> s.loopHandle == Some(i))
      && (forall i, j | i in s.polls && j in s.loops :: s.polls[i].cancelled || s.loops[j].cancelled)
      && (s.backoff.Some? ==> exists i :: i in s.loops && !s.loops[i].cancelled)
      && (forall i | i in s.polls && !s.polls[i].cancelled :: s.clients <==> !lost)
      && (SetupNeverFails(c, INITIAL, es) && AtRest(s) ==>
            (s.conn == Reconnecting ==> exists i :: i in s.loops && !s.loops[i].cancelled)
            && (s.conn == Connected ==> (s.clients <==> !lost)))
  {
    RunKeepsSound(c, INITIAL, es, false);
    var s := Exec(c, INITIAL, es);
    assert LoopRuns(s) ==> !s.loops[s.loopHandle.value].cancelled;
  }

  /** Step k opens the clients; step k is a disconnect() closing them in use. */
  predicate BuildsAt(c: Config, s: Adapter, es: seq<Event>, k: nat)
    requires k < |es|
  {
    Builds(c, Exec(c, s, es[..k]), es[k])
  }

  predicate ClosesAt(c: Config, s: Adapter, es: seq<Event>, k: nat)
    requires k < |es|
  {
    ClosesInUse(c, Exec(c, s, es[..k]), es[k])
  }

  ghost predicate NoBuildFrom(c: Config, s: Adapter, es: seq<Event>, k: nat) {
    forall j | k <= j < |es| :: !BuildsAt(c, s, es, j)
  }

  lemma PrefixSteps(c: Config, s: Adapter, es: seq<Event>, k: nat)
    requires k < |es| - 1
    ensures ClosesAt(c, s, es, k) <==> ClosesAt(c, s, es[..|es| - 1], k)
    ensures BuildsAt(c, s, es, k) <==> BuildsAt(c, s, es[..|es| - 1], k)
  {
    assert es[..|es| - 1][..k] == es[..k];
  }

  /** Step k closed the clients in use and none after it built them. */
  ghost predicate LostAt(c: Config, s: Adapter, es: seq<Event>, k: nat) {
    k < |es| && ClosesAt(c, s, es, k) && NoBuildFrom(c, s, es, k + 1)
  }

  lemma LostAtPrefix(c: Config, s: Adapter, es: seq<Event>, k: nat)
    requires k < |es| - 1
    ensures LostAt(c, s, es, k) <==> LostAt(c, s, es[..|es| - 1], k) && !BuildsAt(c, s, es, |es| - 1)
  {
    var n := |es| - 1;
    forall j | k <= j < n
      ensures ClosesAt(c, s, es, j) <==> ClosesAt(c, s, es[..n], j)
      ensures BuildsAt(c, s, es, j) <==> BuildsAt(c, s, es[..n], j)
    {
      PrefixSteps(c, s, es, j);
    }
  }

  /** What LostAfter means. */
  lemma {:induction false} LostMeans(c: Config, s: Adapter, es: seq<Event>)
    ensures LostAfter(c, s, es, false) <==> exists k: nat :: LostAt(c, s, es, k)
    decreases |es|
  {
    if es != [] {
      LostMeans(c, s, es[..|es| - 1]);
      LostOneMore(c, s, es, false);
      LostAtOneMore(c, s, es);
    }
  }

  lemma LostAtOneMore(c: Config, s: Adapter, es: seq<Event>)
    requires es != []
    ensures var n := |es| - 1;
      (exists k: nat :: LostAt(c, s, es, k))
      <==> !BuildsAt(c, s, es, n) && (ClosesAt(c, s, es, n) || exists k: nat :: LostAt(c, s, es[..n], k))
  {
    var n := |es| - 1;
    if k: nat :| LostAt(c, s, es, k) {
      if k < n {
        LostAtPrefix(c, s, es, k);
      } else {
        ClosingBuildsNothing(c, Exec(c, s, es[..n]), es[n]);
      }
    }
    if !BuildsAt(c, s, es, n) {
      if ClosesAt(c, s, es, n) {
        assert LostAt(c, s, es, n);
      }
      if k: nat :| LostAt(c, s, es[..n], k) {
        LostAtPrefix(c, s, es, k);
        assert LostAt(c, s, es, k);
      }
    }
  }

  lemma ClosingBuildsNothing(c: Config, s: Adapter, e: Event)
    requires ClosesInUse(c, s, e)
    ensures !Builds(c, s, e)
  {
    if !e.DisconnectCalled? && !e.DisconnectResumed? {
      OnlyDropsClose(c, s, e);
    }
  }

  lemma {:induction false} LostOneMore(c: Config, s: Adapter, es: seq<Event>, lost: bool)
    requires es != []
    ensures var n := |es| - 1;
      LostAfter(c, s, es, lost) == Lost(c, Exec(c, s, es[..n]), es[n], LostAfter(c, s, es[..n], lost))
    decreases |es|
  {
    if |es| > 1 {
      var n := |es| - 1;
      LostOneMore(c, Step(c, s, es[0]), es[1..], Lost(c, s, es[0], lost));
      assert es[1..][..n - 1] == es[..n][1..];
    }
  }

  // ---- runs whose lifecycle calls do not overlap --------------------------------------

  /** The callers do not overlap a start()/connect() with a disconnect(). */
  predicate Serial(s: Adapter, e: Event) {
    (e.CallBegun? ==> s.drop.NoDrop?) && (e.DisconnectCalled? ==> s.call.NoCall?)
  }

  predicate SerialRun(c: Config, s: Adapter, es: seq<Event>)
    decreases |es|
  {
    es == [] || (Serial(s, es[0]) && SerialRun(c, Step(c, s, es[0]), es[1..]))
  }

  /** Then a disconnect() finds nothing running, somebody awaits every cancelled task, and what
      is in use is CONNECTED. */
  ghost predicate Strict(s: Adapter) {
    && (!s.drop.NoDrop? ==> s.call.NoCall? && !LoopRuns(s) && !PollRuns(s))
    && (s.drop.DropsClients? ==> !s.clients)
    && (forall i | i in s.loops && s.loops[i].cancelled ::
          (s.call.JoiningLoop? && s.call.task == i) || s.drop == DropsLoop(i))
    && (forall i | i in s.polls && s.polls[i].cancelled ::
          (s.call.InConnect? && s.call.stage == JoiningPoll(i)) || s.drop == DropsPoll(i))
    && (PollRuns(s) ==> s.conn == Connected)
    && (s.call.InConnect? && s.call.stage.Refreshing? ==> s.conn == Connected)
    && (LoopBuilt(s) && s.loops[s.loopHandle.value].pc.stage.Refreshing? ==> s.conn == Connected)
  }

  lemma StrictCall(c: Config, s: Adapter, e: Event)
    requires Sound(c, s) && Strict(s) && Serial(s, e) && (e.CallBegun? || e.CallResumed?)
    ensures Strict(Step(c, s, e))
  {
    if Enabled(s, e) && e.CallResumed? {
      StrictResume(c, s, e.outcome);
    }
  }

  lemma StrictResume(c: Config, s: Adapter, o: Outcome)
    requires Sound(c, s) && Strict(s) && Enabled(s, CallResumed(o))
    ensures Strict(ResumeCall(c, s, o))
  {
    match s.call
    case JoiningLoop(_, _) =>
    case InConnect(_, _) => StrictConnect(c, s, o);
    case Tidying(_) => StrictTidying(c, s, o);
  }

  lemma StrictTidying(c: Config, s: Adapter, o: Outcome)
    requires Sound(c, s) && Strict(s) && s.call.Tidying?
    ensures Strict(ResumeCall(c, s, o))
  {
    if s.conn != Reconnecting {
      EnterReconnectingOk(c, s);
    }
  }

  lemma StrictConnect(c: Config, s: Adapter, o: Outcome)
    requires Sound(c, s) && Strict(s) && Enabled(s, CallResumed(o)) && s.call.InConnect?
    ensures Strict(ResumeCall(c, s, o))
  {
    match s.call.stage
    case Refreshing => StrictRefresh(c, s, o);
    case Fetching => StrictFetch(c, s, o);
    case _ =>
  }

  lemma StrictRefresh(c: Config, s: Adapter, o: Outcome)
    requires Sound(c, s) && Strict(s) && s.call.InConnect? && s.call.stage.Refreshing?
    ensures Strict(ResumeCall(c, s, o))
  {
    if o != Ok {
      EnterReconnectingOk(c, s);
    }
  }

  lemma StrictFetch(c: Config, s: Adapter, o: Outcome)
    requires Sound(c, s) && Strict(s) && s.call.InConnect? && s.call.stage.Fetching?
    ensures Strict(ResumeCall(c, s, o))
  {
  }

  lemma StrictDrop(c: Config, s: Adapter, e: Event)
    requires Sound(c, s) && Strict(s) && Serial(s, e) && (e.DisconnectCalled? || e.DisconnectResumed?)
    ensures Strict(Step(c, s, e)) && !ClosesInUse(c, s, e)
  {
  }

  lemma StrictLoop(c: Config, s: Adapter, e: Event)
    requires Sound(c, s) && Strict(s) && e.LoopResumed?
    ensures Strict(Step(c, s, e))
  {
    if Enabled(s, e) && !s.loops[e.task].cancelled {
      if s.loops[e.task].pc.Connecting? {
        StrictAttempt(c, s, e.task, e.outcome);
      } else {
        StrictDelay(c, s, e.task, e.outcome);
      }
    }
  }

  lemma StrictDelay(c: Config, s: Adapter, task: nat, o: Outcome)
    requires Sound(c, s) && Strict(s) && Enabled(s, LoopResumed(task, o)) && !s.loops[task].cancelled
    requires !s.loops[task].pc.Connecting?
    ensures Strict(ResumeLoop(c, s, task, o))
  {
  }

  lemma StrictAttempt(c: Config, s: Adapter, task: nat, o: Outcome)
    requires Sound(c, s) && Strict(s) && task in s.loops && !s.loops[task].cancelled && s.loops[task].pc.Connecting?
    ensures Strict(ResumeLoop(c, s, task, o))
  {
    AttemptTouchesItself(c, s, task, o);
    ConnectKeepsDrop(c, s, s.loops[task].pc.stage, o);
  }

  lemma StrictPoll(c: Config, s: Adapter, e: Event)
    requires Sound(c, s) && Strict(s) && e.PollResumed?
    ensures Strict(Step(c, s, e))
  {
  }

  lemma OnlyDropsClose(c: Config, s: Adapter, e: Event)
    requires !e.DisconnectCalled? && !e.DisconnectResumed?
    ensures Step(c, s, e).drop == s.drop
  {
    match e
    case CallResumed(o) => CallKeepsDrop(c, s, o);
    case LoopResumed(task, o) => if task in s.loops { LoopKeepsDrop(c, s, task, o); }
    case _ =>
  }

  lemma CallKeepsDrop(c: Config, s: Adapter, o: Outcome)
    ensures ResumeCall(c, s, o).drop == s.drop
  {
    if s.call.InConnect? {
      ConnectKeepsDrop(c, s, s.call.stage, o);
    }
  }

  lemma LoopKeepsDrop(c: Config, s: Adapter, task: nat, o: Outcome)
    requires task in s.loops
    ensures ResumeLoop(c, s, task, o).drop == s.drop
  {
    if s.loops[task].pc.Connecting? {
      ConnectKeepsDrop(c, s, s.loops[task].pc.stage, o);
    }
  }

  lemma ConnectKeepsDrop(c: Config, s: Adapter, stage: Stage, o: Outcome)
    ensures ContinueConnect(c, s, stage, o).0.drop == s.drop
  {
  }

  /** One serial step keeps that, and closes no clients in use. */
  lemma SerialStep(c: Config, s: Adapter, e: Event)
    requires Sound(c, s) && Strict(s) && Serial(s, e)
    ensures Strict(Step(c, s, e)) && !ClosesInUse(c, s, e)
  {
    match e
    case LoopResumed(_, _) => StrictLoop(c, s, e); OnlyDropsClose(c, s, e);
    case PollResumed(_, _) => StrictPoll(c, s, e); OnlyDropsClose(c, s, e);
    case DisconnectCalled => StrictDrop(c, s, e);
    case DisconnectResumed => StrictDrop(c, s, e);
    case _ => StrictCall(c, s, e); OnlyDropsClose(c, s, e);
  }

  lemma {:induction false} SerialRunKeepsStrict(c: Config, s: Adapter, es: seq<Event>)
    requires Sound(c, s) && Strict(s) && SerialRun(c, s, es)
    ensures Sound(c, Exec(c, s, es)) && Strict(Exec(c, s, es)) && !LostAfter(c, s, es, false)
    decreases |es|
  {
    if es != [] {
      StepKeepsSound(c, s, es[0]);
      SerialStep(c, s, es[0]);
      SerialRunKeepsStrict(c, Step(c, s, es[0]), es[1..]);
    }
  }

  /** Then disconnect() ends DISCONNECTED, with no task and no clients left. */
  lemma DisconnectCompletes(c: Config, s: Adapter)
    requires Sound(c, s) && Strict(s) && s.drop.DropsClients?
    ensures var t := ResumeDrop(s);
      AtRest(t) && t.conn == Disconnected && t.polls == map[] && t.loops == map[] && !t.clients && t.backoff.None?
  {
  }

  /** Over every serial run clients are never lost, and the exclusions hold of cancelled tasks
      too: at most one task of each kind, and never both kinds. */
  lemma SerialSafety(c: Config, es: seq<Event>)
    requires SerialRun(c, INITIAL, es)
    ensures var s := Exec(c, INITIAL, es);
      && !LostAfter(c, INITIAL, es, false)
      && (s.polls == map[] || s.loops == map[])
      && (forall i, j | i in s.polls && j in s.polls :: i == j)
      && (forall i, j | i in s.loops && j in s.loops :: i == j)
      && (forall i | i in s.polls && !s.polls[i].cancelled :: s.clients && s.conn == Connected)
  {
    SerialRunKeepsStrict(c, INITIAL, es);
    RunKeepsSound(c, INITIAL, es, false);
    StrictExcludes(c, Exec(c, INITIAL, es));
  }

  lemma StrictExcludes(c: Config, s: Adapter)
    requires Sound(c, s) && Strict(s)
    ensures s.polls == map[] || s.loops == map[]
    ensures forall i, j | i in s.polls && j in s.polls :: i == j
    ensures forall i, j | i in s.loops && j in s.loops :: i == j
  {
    forall i, j | i in s.polls && j in s.loops ensures false {
    }
  }

  /** The three adapters: a poll loop that runs is alone, has its clients open unless they were
      lost, and in a serial run does so in state CONNECTED; a connect() from outside awaits a
      first refresh only for Futu. */
  lemma AdapterSafety(v: Vendor, delays: seq<real>, es: seq<Event>, task: nat)
    ensures var c := ConfigOf(v, delays); var s := Exec(c, INITIAL, es);
      && (task in s.polls && !s.polls[task].cancelled ==>
            && !LoopRuns(s) && s.call.NoCall? && s.pollHandle == Some(task)
            && (s.clients <==> !LostAfter(c, INITIAL, es, false))
            && (SerialRun(c, INITIAL, es) ==>
                  s.clients && s.conn == Connected && s.loops == map[] && s.polls.Keys == {task}))
      && (s.call.InConnect? && s.call.stage.Refreshing? ==> v.Futu?)
  {
    var c := ConfigOf(v, delays);
    RunKeepsSound(c, INITIAL, es, false);
    if SerialRun(c, INITIAL, es) {
      SerialSafety(c, es);
    }
  }

  lemma {:induction false} ExecAppend(c: Config, s: Adapter, es: seq<Event>, fs: seq<Event>)
    ensures Exec(c, s, es + fs) == Exec(c, Exec(c, s, es), fs)
    decreases |es|
  {
    if es == [] {
      assert es + fs == fs;
    } else {
      assert (es + fs)[1..] == es[1..] + fs;
      ExecAppend(c, Step(c, s, es[0]), es[1..], fs);
    }
  }

  lemma ExecTwo(c: Config, s: Adapter, e: Event, f: Event)
    ensures Exec(c, s, [e]) == Step(c, s, e)
    ensures Exec(c, s, [e, f]) == Step(c, Step(c, s, e), f)
  {
    assert Exec(c, Step(c, s, e), [f]) == Step(c, Step(c, s, e), f);
    assert [e, f][1..] == [f];
  }

  // ---- the ways clients are lost -------------------------------------------------------

  /** How a fetch that comes back ends a connect() from outside. */
  function Fetched(c: Config): seq<Event> {
    if c.early && c.publishes then [CallResumed(Ok), CallResumed(Ok)] else [CallResumed(Ok)]
  }

  lemma FetchedReturns(c: Config, s: Adapter, isStart: bool)
    requires s.call == InConnect(Fetching, isStart)
    ensures Exec(c, s, Fetched(c)) == StartPolling(c, s.(conn := Connected, backoff := None, call := NoCall))
  {
    ExecTwo(c, s, CallResumed(Ok), CallResumed(Ok));
  }

  /** A disconnect() inside a start(), after the clients are built, leaves a running poll loop
      without clients, whose every refresh publishes an empty set. */
  lemma OverlapClosesClientsUnderPoll(c: Config)
    requires c.polls
    ensures exists es :: var s := Exec(c, INITIAL, es); s.conn == Connected && PollRuns(s) && !s.clients
  {
    var opening := [CallBegun(true), CallResumed(Ok)];
    ExecTwo(c, INITIAL, opening[0], opening[1]);
    var s1 := INITIAL.(call := InConnect(Fetching, true), clients := true);
    assert Exec(c, INITIAL, opening) == s1;
    var dropping := [DisconnectCalled, DisconnectResumed];
    ExecTwo(c, s1, dropping[0], dropping[1]);
    var s2 := s1.(clients := false);
    assert Exec(c, s1, dropping) == s2;
    FetchedReturns(c, s2, true);
    ExecAppend(c, INITIAL, opening, dropping);
    ExecAppend(c, INITIAL, opening + dropping, Fetched(c));
    var s3 := Exec(c, INITIAL, opening + dropping + Fetched(c));
    assert s3.conn == Connected && PollRuns(s3) && !s3.clients;
  }

  /** And a disconnect() that awaits the poll loop it cancelled while a start() comes and goes
      closes the new clients under the new poll loop, with nobody in connect() any more. */
  lemma PendingDisconnectClosesLater(c: Config)
    requires c.polls
    ensures exists es, k | 0 <= k < |es| ::
      var u, t := Exec(c, INITIAL, es[..k]), Exec(c, INITIAL, es);
      && u.call.NoCall? && u.clients && PollRuns(u) && u.drop.DropsPoll?
      && AtRest(t) && !t.clients && PollRuns(t)
  {
    var opening := [CallBegun(true), CallResumed(Ok)];
    ExecTwo(c, INITIAL, opening[0], opening[1]);
    var s1 := INITIAL.(call := InConnect(Fetching, true), clients := true);
    FetchedReturns(c, s1, true);
    ExecAppend(c, INITIAL, opening, Fetched(c));
    var s2 := StartPolling(c, s1.(conn := Connected, call := NoCall));
    assert s2.polls == map[0 := Poll(false, false)];
    var again := [DisconnectCalled, CallBegun(true)];
    ExecTwo(c, s2, again[0], again[1]);
    var s3 := s2.(polls := map[0 := Poll(false, true)], pollHandle := None, drop := DropsPoll(0),
                  clients := false, call := InConnect(Closing, true));
    assert Exec(c, s2, again) == s3;
    var building := [CallResumed(Ok), PollResumed(0, Ok)];
    ExecTwo(c, s3, building[0], building[1]);
    var s4 := s3.(clients := true, call := InConnect(Fetching, true), polls := map[]);
    assert Exec(c, s3, building) == s4;
    FetchedReturns(c, s4, true);
    var s5 := StartPolling(c, s4.(conn := Connected, call := NoCall));
    var dropping := [DisconnectResumed, DisconnectResumed];
    ExecTwo(c, s5, dropping[0], dropping[1]);
    var s6 := s5.(clients := false, conn := Disconnected, drop := NoDrop);
    assert Exec(c, s5, dropping) == s6;
    var es1 := opening + Fetched(c);
    var es2 := es1 + again;
    var es3 := es2 + building;
    var es4 := es3 + Fetched(c);
    ExecAppend(c, INITIAL, es1, again);
    ExecAppend(c, INITIAL, es2, building);
    ExecAppend(c, INITIAL, es3, Fetched(c));
    ExecAppend(c, INITIAL, es4, dropping);
    assert (es4 + dropping)[..|es4|] == es4;
  }

  /** Events of a run in which a call from outside goes on and succeeds while nobody else calls. */
  predicate Undisturbed(s: Adapter, e: Event) {
    Succeeding(s) && !e.CallBegun? && !e.DisconnectCalled? && (e.CallResumed? ==> e.outcome == Ok)
  }

  predicate UndisturbedRun(c: Config, s: Adapter, es: seq<Event>)
    decreases |es|
  {
    es == [] || (Undisturbed(s, es[0]) && UndisturbedRun(c, Step(c, s, es[0]), es[1..]))
  }

  predicate BuiltAs(s: Adapter, open: bool) {
    if Built(s) then s.clients == open else open
  }

  lemma UndisturbedStep(c: Config, s: Adapter, e: Event, open: bool)
    requires Sound(c, s) && Undisturbed(s, e) && (s.drop.NoDrop? || s.drop.DropsClients?) && BuiltAs(s, open)
    ensures var t := Step(c, s, e);
      && (t.drop.NoDrop? || t.drop.DropsClients?)
      && if t.call.NoCall? then t.clients == open && (c.polls ==> PollRuns(t)) else Succeeding(t) && BuiltAs(t, open)
  {
    if !e.DisconnectResumed? {
      OnlyDropsClose(c, s, e);
    }
  }

  lemma {:induction false} UndisturbedOutcome(c: Config, s: Adapter, es: seq<Event>, open: bool)
    requires Sound(c, s) && Succeeding(s) && (s.drop.NoDrop? || s.drop.DropsClients?) && BuiltAs(s, open)
    requires UndisturbedRun(c, s, es)
    ensures var t := Exec(c, s, es); t.call.NoCall? ==> t.clients == open && (c.polls ==> PollRuns(t))
    decreases |es|
  {
    if es != [] {
      var t := Step(c, s, es[0]);
      StepKeepsSound(c, s, es[0]);
      UndisturbedStep(c, s, es[0], open);
      if t.call.NoCall? {
        assert es[1..] == [];
      } else {
        UndisturbedOutcome(c, t, es[1..], open);
      }
    }
  }

  /** A single disconnect() that begins inside a call that succeeds costs it its clients exactly
      when they were built by then, wherever its own end falls. */
  lemma DisconnectInsideCall(c: Config, s: Adapter, es: seq<Event>)
    requires Sound(c, s) && Succeeding(s) && s.drop.NoDrop? && (Built(s) ==> s.clients)
    requires UndisturbedRun(c, Step(c, s, DisconnectCalled), es)
    ensures var t := Exec(c, s, [DisconnectCalled] + es);
      t.call.NoCall? ==> (!t.clients <==> Built(s)) && (c.polls ==> PollRuns(t))
  {
    assert ([DisconnectCalled] + es)[1..] == es;
    var t := Step(c, s, DisconnectCalled);
    StepKeepsSound(c, s, DisconnectCalled);
    assert t.call == s.call && t.drop.DropsClients? && !t.clients;
    UndisturbedOutcome(c, t, es, !Built(s));
  }

  // ---- the ways a setup failure leaves the state ----------------------------------------

  /** A start() that finds RECONNECTING, cancels the loop and then cannot build its clients
      leaves RECONNECTING with no running loop. */
  lemma SetupFailureStrands(c: Config, s: Adapter, task: nat)
    requires Sound(c, s) && AtRest(s) && s.conn == Reconnecting && s.loopHandle == Some(task) && task in s.loops
    ensures var es := [CallBegun(true), LoopResumed(task, Ok), CallResumed(Ok), CallResumed(Failed), CallResumed(Ok)];
      SerialRun(c, s, es) && Stuck(Exec(c, s, es))
  {
    var cancelling := [CallBegun(true), LoopResumed(task, Ok)];
    ExecTwo(c, s, cancelling[0], cancelling[1]);
    var s2 := Exec(c, s, cancelling);
    assert s2.call == JoiningLoop(task, true) && task !in s2.loops && s2.loopHandle.None? && s2.conn == Reconnecting;
    var failing := [CallResumed(Ok), CallResumed(Failed), CallResumed(Ok)];
    var s3 := Step(c, s2, CallResumed(Ok));
    assert s3.call == InConnect(Closing, true);
    ExecTwo(c, s3, failing[1], failing[2]);
    assert failing[1..] == [failing[1], failing[2]];
    ExecAppend(c, s, cancelling, failing);
    var es := [CallBegun(true), LoopResumed(task, Ok), CallResumed(Ok), CallResumed(Failed), CallResumed(Ok)];
    assert cancelling + failing == es;
    SerialWithoutDisconnect(c, s, es);
  }

  /** And a bare connect() that finds CONNECTED leaves it, with no clients and no poll loop. */
  lemma SetupFailureLeavesNoClients(c: Config, s: Adapter) returns (es: seq<Event>)
    requires Sound(c, s) && AtRest(s) && s.conn == Connected && !LoopRuns(s)
    ensures SerialRun(c, s, es) && es != [] && es[0] == CallBegun(false)
    ensures var t := Exec(c, s, es); AtRest(t) && t.conn == Connected && !t.clients && !PollRuns(t)
  {
    if !PollRuns(s) {
      es := [CallBegun(false), CallResumed(Failed)];
      ExecTwo(c, s, es[0], es[1]);
    } else {
      var task := s.pollHandle.value;
      var joining, failing := [CallBegun(false), PollResumed(task, Ok)], [CallResumed(Ok), CallResumed(Failed)];
      ExecTwo(c, s, joining[0], joining[1]);
      var s2 := Exec(c, s, joining);
      assert task !in s2.polls && s2.call == InConnect(JoiningPoll(task), false) && s2.conn == Connected;
      ExecTwo(c, s2, failing[0], failing[1]);
      ExecAppend(c, s, joining, failing);
      es := joining + failing;
    }
    SerialWithoutDisconnect(c, s, es);
  }

  lemma {:induction false} SerialWithoutDisconnect(c: Config, s: Adapter, es: seq<Event>)
    requires s.drop.NoDrop? && DisconnectCalled !in es
    ensures SerialRun(c, s, es)
    decreases |es|
  {
    if es != [] {
      assert es[0] in es && DisconnectCalled !in es[1..];
      if !es[0].DisconnectResumed? {
        OnlyDropsClose(c, s, es[0]);
      }
      SerialWithoutDisconnect(c, Step(c, s, es[0]), es[1..]);
    }
  }

  // ---- termination of each reconnect loop --------------------------------------------

  /** How many more times a loop can be resumed before it ends. */
  function Budget(c: Config, pc: Pc): int {
    match pc
    case Unstarted => 5 * |c.delays| + 1
    case Sleeping(k) => 5 * (|c.delays| - k)
    case Connecting(k, stage) =>
      5 * (|c.delays| - k)
      + match stage
        case JoiningPoll(_) => 5
        case Closing => 4
        case Fetching => 3
        case Refreshing => 2
        case Abandoning(_) => 1
  }

  function StepsOf(c: Config, s: Adapter, es: seq<Event>, task: nat): nat
    decreases |es|
  {
    if es == [] then 0
    else (if es[0].LoopResumed? && es[0].task == task && Enabled(s, es[0]) then 1 else 0)
         + StepsOf(c, Step(c, s, es[0]), es[1..], task)
  }

  /** What is left of a loop: its budget while it runs, the step that ends it once cancelled. */
  function Left(c: Config, s: Adapter, task: nat): int {
    if task !in s.loops then 0 else if s.loops[task].cancelled then 1 else Budget(c, s.loops[task].pc)
  }

  lemma AttemptSpendsBudget(c: Config, s: Adapter, task: nat, o: Outcome)
    requires Sound(c, s) && task in s.loops && !s.loops[task].cancelled && s.loops[task].pc.Connecting?
    ensures Left(c, ResumeLoop(c, s, task, o), task) < Left(c, s, task)
  {
    AttemptKeepsLoops(c, s, s.loops[task].pc.stage, o);
  }

  lemma ResumeSpendsBudget(c: Config, s: Adapter, task: nat, o: Outcome)
    requires Sound(c, s) && Enabled(s, LoopResumed(task, o))
    ensures Left(c, ResumeLoop(c, s, task, o), task) < Left(c, s, task)
    ensures s.nextTask <= ResumeLoop(c, s, task, o).nextTask
  {
    LoopTouchesItself(c, s, task, o);
    if s.loops[task].cancelled {
      assert task !in ResumeLoop(c, s, task, o).loops;
    } else if s.loops[task].pc.Connecting? {
      AttemptSpendsBudget(c, s, task, o);
    }
  }

  lemma OnlyThisTask(loops: map<nat, Loop>, task: nat, l: Loop)
    ensures loops[task := l] - {task} == loops - {task} - {task} == loops - {task}
  {
  }

  /** connect() inside a running loop creates no other loop. */
  lemma AttemptKeepsLoops(c: Config, s: Adapter, stage: Stage, o: Outcome)
    requires LoopRuns(s) && !stage.JoiningPoll?
    ensures var t := ContinueConnect(c, s, stage, o).0;
      t.loops == s.loops && t.loopHandle == s.loopHandle && t.nextTask >= s.nextTask
  {
  }

  lemma AttemptTouchesItself(c: Config, s: Adapter, task: nat, o: Outcome)
    requires Sound(c, s) && task in s.loops && !s.loops[task].cancelled && s.loops[task].pc.Connecting?
    ensures var t := ResumeLoop(c, s, task, o);
      && t.nextTask >= s.nextTask && t.loops - {task} == s.loops - {task} && t.loopHandle == s.loopHandle
      && (task in t.loops ==> !t.loops[task].cancelled)
  {
    AttemptKeepsLoops(c, s, s.loops[task].pc.stage, o);
    var t := ResumeLoop(c, s, task, o);
    OnlyThisTask(s.loops, task, if task in t.loops then t.loops[task] else s.loops[task]);
  }

  lemma LoopTouchesItself(c: Config, s: Adapter, task: nat, o: Outcome)
    requires Sound(c, s) && Enabled(s, LoopResumed(task, o))
    ensures var t := ResumeLoop(c, s, task, o);
      t.nextTask >= s.nextTask && t.loops - {task} == s.loops - {task}
  {
    if !s.loops[task].cancelled && s.loops[task].pc.Connecting? {
      AttemptTouchesItself(c, s, task, o);
    }
  }

  lemma OtherLoopSpendsNothing(c: Config, s: Adapter, other: nat, o: Outcome, task: nat)
    requires Sound(c, s) && task < s.nextTask && other != task && Enabled(s, LoopResumed(other, o))
    ensures var t := ResumeLoop(c, s, other, o); s.nextTask <= t.nextTask && Left(c, t, task) == Left(c, s, task)
  {
    LoopTouchesItself(c, s, other, o);
    var t := ResumeLoop(c, s, other, o);
    assert task in t.loops <==> task in t.loops - {other};
    assert task in s.loops <==> task in s.loops - {other};
    assert task in s.loops ==> (s.loops - {other})[task] == s.loops[task] && (t.loops - {other})[task] == t.loops[task];
  }

  /** No other event spends a loop's budget, and a loop that ended never comes back. */
  lemma OthersSpendNothing(c: Config, s: Adapter, e: Event, task: nat)
    requires Sound(c, s) && task < s.nextTask && !(e.LoopResumed? && e.task == task)
    ensures var t := Step(c, s, e); s.nextTask <= t.nextTask && Left(c, t, task) <= Left(c, s, task)
  {
    if e.LoopResumed? && Enabled(s, e) {
      OtherLoopSpendsNothing(c, s, e.task, e.outcome, task);
    } else if e.CallResumed? {
      CallSpendsNothing(c, s, e.outcome, task);
    }
  }

  lemma ConnectKeepsLoops(c: Config, s: Adapter, stage: Stage, o: Outcome)
    ensures var t := ContinueConnect(c, s, stage, o).0;
      t.nextTask >= s.nextTask && (t.loops == s.loops || t.loops == s.loops[s.nextTask := Loop(Unstarted, false)])
  {
  }

  lemma CallSpendsNothing(c: Config, s: Adapter, o: Outcome, task: nat)
    requires Sound(c, s) && task < s.nextTask
    ensures var t := ResumeCall(c, s, o); s.nextTask <= t.nextTask && Left(c, t, task) == Left(c, s, task)
  {
    if s.call.InConnect? {
      ConnectKeepsLoops(c, s, s.call.stage, o);
    }
  }

  /** Over every run a reconnect loop is resumed at most as often as its budget says,
      5 * |delays| + 1 times from its birth, once at most after it is cancelled, and has ended
      once it was resumed that often. */
  lemma {:induction false} LoopStepsBounded(c: Config, s: Adapter, es: seq<Event>, task: nat)
    requires Sound(c, s) && task < s.nextTask
    ensures StepsOf(c, s, es, task) + (if task in Exec(c, s, es).loops then 1 else 0) <= Left(c, s, task)
    decreases |es|
  {
    if es == [] {
      assert task in s.loops ==> Left(c, s, task) >= 1;
    } else {
      var e := es[0];
      StepKeepsSound(c, s, e);
      if e.LoopResumed? && e.task == task && Enabled(s, e) {
        ResumeSpendsBudget(c, s, task, e.outcome);
      } else if !(e.LoopResumed? && e.task == task) {
        OthersSpendNothing(c, s, e, task);
      }
      LoopStepsBounded(c, Step(c, s, e), es[1..], task);
    }
  }

  // ---- the adapter object -------------------------------------------------------------

  /** TigerAdapter, LongbridgeAdapter and FutuAdapter, with the tasks they created. */
  class PollingBroker {
    const config: Config
    var conn: ConnectionState
    var clients: bool
    var polls: map<nat, Poll>
    var loops: map<nat, Loop>
    var pollHandle: Option<nat>
    var loopHandle: Option<nat>
    var nextTask: nat
    var backoff: Option<real>
    var call: Call
    var drop: Drop

    ghost function State(): Adapter
      reads this
    {
      Adapter(conn, clients, polls, loops, pollHandle, loopHandle, nextTask, backoff, call, drop)
    }

    ghost predicate Valid()
      reads this
    {
      Sound(config, State())
    }

    constructor (config: Config)
      ensures Valid() && this.config == config && State() == INITIAL
    {
      this.config := config;
      conn, clients, polls, loops, pollHandle, loopHandle := Disconnected, false, map[], map[], None, None;
      nextTask, backoff, call, drop := 0, None, NoCall, NoDrop;
    }

    /** _enter_reconnecting */
    method LoseConnection()
      modifies this
      ensures State() == EnterReconnecting(config, old(State()))
    {
      if conn == Reconnecting {
        return;
      }
      conn := Reconnecting;
      if config.delays == [] {
        conn := Disconnected;
        return;
      }
      if loopHandle.None? || loopHandle.value !in loops {
        loops := loops[nextTask := Loop(Unstarted, false)];
        loopHandle := Some(nextTask);
        nextTask := nextTask + 1;
      }
    }

    method CreatePollTask()
      modifies this
      ensures State() == StartPolling(config, old(State()))
    {
      if config.polls {
        polls := polls[nextTask := Poll(false, false)];
        pollHandle := Some(nextTask);
        nextTask := nextTask + 1;
      }
    }

    /** _stop_polling and, when no poll loop is live, _close_clients. */
    method StopPollingAndClose() returns (stage: Stage)
      modifies this
      ensures (State(), stage) == BeginConnect(old(State()))
    {
      var task := pollHandle;
      pollHandle := None;
      if task.Some? && task.value in polls {
        polls := polls[task.value := polls[task.value].(cancelled := true)];
        return JoiningPoll(task.value);
      }
      clients := false;
      return Closing;
    }

    /** connect(), from one await to the next. */
    method Connect(stage: Stage, o: Outcome) returns (p: Progress)
      modifies this
      ensures (State(), p) == ContinueConnect(config, old(State()), stage, o)
    {
      match stage
      case JoiningPoll(_) =>
        clients := false;
        return Pending(Closing);
      case Closing =>
        if o != Ok {
          return Raised(o);
        }
        clients := true;
        return Pending(Fetching);
      case Fetching =>
        if o != Ok {
          clients := false;
          if config.early { conn := Disconnected; }
          return Pending(Abandoning(o));
        }
        conn, backoff := Connected, None;
        if config.early && config.publishes {
          return Pending(Refreshing);
        }
        CreatePollTask();
        return Returned;
      case Refreshing =>
        if o != Ok {
          LoseConnection();
          conn, clients := Disconnected, false;
          return Pending(Abandoning(o));
        }
        CreatePollTask();
        return Returned;
      case Abandoning(why) =>
        conn := Disconnected;
        return Raised(why);
    }

    /** start() or connect() from outside, up to its first await. */
    method Call(isStart: bool)
      requires Valid() && call.NoCall?
      modifies this
      ensures Valid() && State() == Step(config, old(State()), CallBegun(isStart))
    {
      BeginCallKeepsSound(config, State(), isStart);
      StopAndConnect(isStart);
    }

    /** _stop_reconnecting, and connect() to its first await when no loop is live. */
    method StopAndConnect(isStart: bool)
      modifies this
      ensures State() == BeginCall(old(State()), isStart)
    {
      var task := loopHandle;
      loopHandle, backoff := None, None;
      if task.Some? && task.value in loops {
        loops := loops[task.value := loops[task.value].(cancelled := true)];
        call := JoiningLoop(task.value, isStart);
      } else {
        var stage := StopPollingAndClose();
        call := InConnect(stage, isStart);
      }
    }

    method AdvanceCall(o: Outcome)
      requires Valid() && Enabled(State(), CallResumed(o))
      modifies this
      ensures Valid() && State() == Step(config, old(State()), CallResumed(o))
    {
      ResumeCallKeepsSound(config, State(), o);
      GoOnWithCall(o);
    }

    method GoOnWithCall(o: Outcome)
      requires !call.NoCall?
      modifies this
      ensures State() == ResumeCall(config, old(State()), o)
    {
      match call
      case JoiningLoop(_, isStart) =>
        var stage := StopPollingAndClose();
        call := InConnect(stage, isStart);
      case InConnect(stage, isStart) =>
        var p := Connect(stage, o);
        match p {
          case Pending(next) =>
            call := InConnect(next, isStart);
          case Returned =>
            call := NoCall;
          case Raised(why) =>
            call := NoCall;
            if isStart { call, clients := Tidying(why), false; }
        }
      case Tidying(why) =>
        if why == Misconfigured {
          conn, backoff := Disconnected, None;
        } else {
          LoseConnection();
        }
        call := NoCall;
    }

    /** disconnect(), up to its first await. */
    method Disconnect()
      requires Valid() && drop.NoDrop?
      modifies this
      ensures Valid() && State() == Step(config, old(State()), DisconnectCalled)
    {
      BeginDropKeepsSound(config, State());
      StopForDrop();
    }

    method StopForDrop()
      modifies this
      ensures State() == BeginDrop(old(State()))
    {
      var task := loopHandle;
      loopHandle, backoff := None, None;
      if task.Some? && task.value in loops {
        loops := loops[task.value := loops[task.value].(cancelled := true)];
        drop := DropsLoop(task.value);
      } else {
        StopPollingForDrop();
      }
    }

    method StopPollingForDrop()
      modifies this
      ensures State() == DropPoll(old(State()))
    {
      var stage := StopPollingAndClose();
      drop := if stage.JoiningPoll? then DropsPoll(stage.task) else DropsClients;
    }

    method AdvanceDisconnect()
      requires Valid() && Enabled(State(), DisconnectResumed)
      modifies this
      ensures Valid() && State() == Step(config, old(State()), DisconnectResumed)
    {
      ResumeDropKeepsSound(config, State());
      match drop
      case DropsLoop(_) =>
        StopPollingForDrop();
      case DropsPoll(_) =>
        clients, drop := false, DropsClients;
      case DropsClients =>
        conn, drop := Disconnected, NoDrop;
    }

    method WakeLoop(task: nat, o: Outcome)
      requires Valid() && Enabled(State(), LoopResumed(task, o))
      modifies this
      ensures Valid() && State() == Step(config, old(State()), LoopResumed(task, o))
    {
      ResumeLoopKeepsSound(config, State(), task, o);
      AdvanceLoop(task, o);
    }

    /** _reconnect_loop, from where the task was suspended to its next await or its end. */
    method AdvanceLoop(task: nat, o: Outcome)
      requires task in loops
      modifies this
      ensures State() == ResumeLoop(config, old(State()), task, o)
    {
      if loops[task].cancelled {
        FinishLoop(task);
        return;
      }
      match loops[task].pc
      case Unstarted =>
        NextDelay(task, 0);
      case Sleeping(k) =>
        if conn == Connected {
          loops := loops - {task};
          return;
        }
        var stage := StopPollingAndClose();
        loops := loops[task := Loop(Connecting(k + 1, stage), false)];
      case Connecting(k, stage) =>
        var p := Connect(stage, o);
        match p {
          case Pending(next) =>
            loops := loops[task := Loop(Connecting(k, next), false)];
          case Returned =>
            FinishLoop(task);
          case Raised(why) =>
            conn := if why == Misconfigured then Disconnected else Reconnecting;
            if why == Misconfigured { FinishLoop(task); } else { NextDelay(task, k); }
        }
    }

    method NextDelay(task: nat, tried: nat)
      modifies this
      ensures State() == Retry(config, old(State()), task, tried)
    {
      if tried >= |config.delays| {
        conn := Disconnected;
        FinishLoop(task);
      } else {
        backoff := Some(config.delays[tried]);
        loops := loops[task := Loop(Sleeping(tried), false)];
      }
    }

    method FinishLoop(task: nat)
      modifies this
      ensures State() == EndLoop(old(State()), task)
    {
      loops, backoff := loops - {task}, None;
    }

    /** _poll_loop, from a sleep into a refresh or from a refresh to the next sleep. */
    method AdvancePoll(task: nat, o: Outcome)
      requires Valid() && task in polls
      modifies this
      ensures Valid() && State() == Step(config, old(State()), PollResumed(task, o))
    {
      ResumePollKeepsSound(config, State(), task, o);
      PollOnce(task, o);
    }

    method PollOnce(task: nat, o: Outcome)
      requires task in polls
      modifies this
      ensures State() == ResumePoll(config, old(State()), task, o)
    {
      if polls[task].cancelled {
        polls := polls - {task};
      } else if !polls[task].fetching {
        if !config.early || conn == Connected { polls := polls[task := Poll(true, false)]; }
      } else if o == Ok {
        polls := polls[task := Poll(false, false)];
      } else {
        polls := polls - {task};
        LoseConnection();
      }
    }
  }
}
