/**
 The connection monitor (app/jobs/connection_monitor.py): one poll at a time, with the
 messages queued until a round delivers all of them.
 */
module ConnectionMonitor {
  import opened Broker

  /** The four texts the monitor sends. */
  datatype Message = Recovered | NowReconnecting | NowDisconnected | AuthNeeded

  datatype Monitor = Monitor(
    last: Option<ConnectionState>, downSince: Option<real>, attentionSent: bool, pending: seq<Message>)

  const INITIAL := Monitor(None, None, false, [])

  /** One poll's inputs; `failing` are the messages whose delivery raises in this round. */
  datatype Poll = Poll(state: ConnectionState, now: real, failing: set<Message>)

  predicate Down(s: ConnectionState) { s != Connected }

  function Label(s: ConnectionState): Message {
    if s == Reconnecting then NowReconnecting else NowDisconnected
  }

  function Enqueue(queue: seq<Message>, m: Message): seq<Message> {
    if m in queue then queue else queue + [m]
  }

  function Deliver(queue: seq<Message>, failing: set<Message>): seq<Message> {
    if queue == [] then []
    else Deliver(queue[..|queue| - 1], failing) + if queue[|queue| - 1] in failing then [] else [queue[|queue| - 1]]
  }

  predicate AllDelivered(queue: seq<Message>, failing: set<Message>) {
    forall m | m in queue :: m !in failing
  }

  /** The queue the round tries to deliver. */
  function Queued(m: Monitor, p: Poll, threshold: real): seq<Message> {
    if p.state == Connected then
      if (m.last.Some? && Down(m.last.value)) || m.downSince.Some? then Enqueue(m.pending, Recovered) else m.pending
    else
      var q := if m.last != Some(p.state) then Enqueue(m.pending, Label(p.state)) else m.pending;
      if AttentionDue(m, p, threshold) then Enqueue(q, AuthNeeded) else q
  }

  function DownSince(m: Monitor, p: Poll): real {
    if m.downSince.Some? then m.downSince.value else p.now
  }

  predicate AttentionDue(m: Monitor, p: Poll, threshold: real) {
    Down(p.state) && !m.attentionSent && p.now - DownSince(m, p) >= threshold
  }

  function Sent(m: Monitor, p: Poll, threshold: real): seq<Message> {
    Deliver(Queued(m, p, threshold), p.failing)
  }

  function After(m: Monitor, p: Poll, threshold: real): Monitor {
    var q := Queued(m, p, threshold);
    var since := if Down(p.state) then Some(DownSince(m, p)) else m.downSince;
    if !AllDelivered(q, p.failing) then m.(downSince := since, pending := q)
    else if Down(p.state) then Monitor(Some(p.state), since, m.attentionSent || AttentionDue(m, p, threshold), [])
    else Monitor(Some(Connected), None, false, [])
  }

  function Run(ps: seq<Poll>, threshold: real, n: nat): Monitor
    requires n <= |ps|
  {
    if n == 0 then INITIAL else After(Run(ps, threshold, n - 1), ps[n - 1], threshold)
  }

  // ---- a notifier that always delivers ------------------------------------------------

  ghost predicate AlwaysDelivers(ps: seq<Poll>) {
    forall i | 0 <= i < |ps| :: ps[i].failing == {}
  }

  /** First poll of the maximal run of down polls that reaches poll i. */
  function RunStart(ps: seq<Poll>, i: nat): (r: nat)
    requires i < |ps|
    ensures r <= i
    ensures r < i ==> forall j | r <= j < i :: Down(ps[j].state)
    ensures r == 0 || r == i || !Down(ps[r - 1].state)
  {
    if i == 0 || !Down(ps[i - 1].state) then i else RunStart(ps, i - 1)
  }

  predicate PastThreshold(ps: seq<Poll>, threshold: real, start: nat, i: nat)
    requires start < |ps| && i < |ps|
  {
    ps[i].now - ps[start].now >= threshold
  }

  /** Poll i is the first of its down run past the threshold. */
  predicate FirstPastThreshold(ps: seq<Poll>, threshold: real, i: nat)
    requires i < |ps|
  {
    && Down(ps[i].state)
    && PastThreshold(ps, threshold, RunStart(ps, i), i)
    && forall j | RunStart(ps, i) <= j < i :: !PastThreshold(ps, threshold, RunStart(ps, i), j)
  }

  /** What poll i must send, read off the observed states alone. */
  function SpecSent(ps: seq<Poll>, threshold: real, i: nat): seq<Message>
    requires i < |ps|
  {
    if !Down(ps[i].state) then
      if i > 0 && Down(ps[i - 1].state) then [Recovered] else []
    else
      (if i == 0 || ps[i - 1].state != ps[i].state then [Label(ps[i].state)] else [])
      + (if FirstPastThreshold(ps, threshold, i) then [AuthNeeded] else [])
  }

  /** The monitor's memory after n delivered polls. */
  ghost predicate Remembers(ps: seq<Poll>, threshold: real, n: nat, m: Monitor)
    requires n <= |ps|
  {
    && m.pending == []
    && m.last == (if n == 0 then None else Some(ps[n - 1].state))
    && if n == 0 || !Down(ps[n - 1].state) then m.downSince.None? && !m.attentionSent
       else
         var start := RunStart(ps, n - 1);
         && m.downSince == Some(ps[start].now)
         && (m.attentionSent <==> exists j :: start <= j < n && PastThreshold(ps, threshold, start, j))
  }

  lemma {:induction false} RunRemembers(ps: seq<Poll>, threshold: real, n: nat)
    requires AlwaysDelivers(ps) && n <= |ps|
    ensures Remembers(ps, threshold, n, Run(ps, threshold, n))
  {
    if n > 0 {
      RunRemembers(ps, threshold, n - 1);
      PollRemembers(ps, threshold, n - 1, Run(ps, threshold, n - 1));
    }
  }

  lemma AttentionDueIsFirstPast(ps: seq<Poll>, threshold: real, i: nat, m: Monitor)
    requires i < |ps| && Down(ps[i].state) && Remembers(ps, threshold, i, m)
    ensures DownSince(m, ps[i]) == ps[RunStart(ps, i)].now
    ensures AttentionDue(m, ps[i], threshold) <==> FirstPastThreshold(ps, threshold, i)
  {
    var start := RunStart(ps, i);
    if start < i {
      assert start == RunStart(ps, i - 1);
    }
    assert PastThreshold(ps, threshold, start, i) <==> ps[i].now - DownSince(m, ps[i]) >= threshold;
  }

  lemma AttentionRemembered(ps: seq<Poll>, threshold: real, i: nat, m: Monitor)
    requires i < |ps| && Down(ps[i].state) && Remembers(ps, threshold, i, m)
    ensures m.attentionSent || AttentionDue(m, ps[i], threshold)
       <==> exists j :: RunStart(ps, i) <= j < i + 1 && PastThreshold(ps, threshold, RunStart(ps, i), j)
  {
    AttentionDueIsFirstPast(ps, threshold, i, m);
    var start := RunStart(ps, i);
    if start < i {
      assert start == RunStart(ps, i - 1);
    }
  }

  lemma UpPollRemembers(ps: seq<Poll>, threshold: real, i: nat, m: Monitor)
    requires i < |ps| && ps[i].failing == {} && Remembers(ps, threshold, i, m) && !Down(ps[i].state)
    ensures Remembers(ps, threshold, i + 1, After(m, ps[i], threshold))
    ensures Sent(m, ps[i], threshold) == SpecSent(ps, threshold, i)
  {
    DeliverEverything(Queued(m, ps[i], threshold), {});
  }

  lemma DeliveredDownPoll(m: Monitor, p: Poll, threshold: real)
    requires p.failing == {} && Down(p.state)
    ensures After(m, p, threshold)
         == Monitor(Some(p.state), Some(DownSince(m, p)), m.attentionSent || AttentionDue(m, p, threshold), [])
    ensures Sent(m, p, threshold) == Queued(m, p, threshold)
  {
    DeliverEverything(Queued(m, p, threshold), {});
  }

  lemma DownPollRemembers(ps: seq<Poll>, threshold: real, i: nat, m: Monitor)
    requires i < |ps| && ps[i].failing == {} && Remembers(ps, threshold, i, m) && Down(ps[i].state)
    ensures Remembers(ps, threshold, i + 1, After(m, ps[i], threshold))
  {
    DeliveredDownPoll(m, ps[i], threshold);
    AttentionDueIsFirstPast(ps, threshold, i, m);
    AttentionRemembered(ps, threshold, i, m);
  }

  lemma QueuedFromEmpty(m: Monitor, p: Poll, threshold: real)
    requires m.pending == [] && Down(p.state)
    ensures Queued(m, p, threshold)
         == (if m.last != Some(p.state) then [Label(p.state)] else [])
             + (if AttentionDue(m, p, threshold) then [AuthNeeded] else [])
  {
  }

  lemma DownPollSends(ps: seq<Poll>, threshold: real, i: nat, m: Monitor)
    requires i < |ps| && ps[i].failing == {} && Remembers(ps, threshold, i, m) && Down(ps[i].state)
    ensures Sent(m, ps[i], threshold) == SpecSent(ps, threshold, i)
  {
    DeliveredDownPoll(m, ps[i], threshold);
    QueuedFromEmpty(m, ps[i], threshold);
    AttentionDueIsFirstPast(ps, threshold, i, m);
  }

  lemma PollRemembers(ps: seq<Poll>, threshold: real, i: nat, m: Monitor)
    requires i < |ps| && ps[i].failing == {} && Remembers(ps, threshold, i, m)
    ensures Remembers(ps, threshold, i + 1, After(m, ps[i], threshold))
    ensures Sent(m, ps[i], threshold) == SpecSent(ps, threshold, i)
  {
    if Down(ps[i].state) {
      DownPollRemembers(ps, threshold, i, m);
      DownPollSends(ps, threshold, i, m);
    } else {
      UpPollRemembers(ps, threshold, i, m);
    }
  }

  /** Trace refinement: with every delivery succeeding, each poll of any trace sends exactly
      what the observed states call for. */
  lemma SendsWhatStatesCallFor(ps: seq<Poll>, threshold: real, i: nat)
    requires AlwaysDelivers(ps) && i < |ps|
    ensures Sent(Run(ps, threshold, i), ps[i], threshold) == SpecSent(ps, threshold, i)
  {
    RunRemembers(ps, threshold, i);
    PollRemembers(ps, threshold, i, Run(ps, threshold, i));
  }

  lemma {:induction false} SameRun(ps: seq<Poll>, i: nat, j: nat)
    requires i <= j < |ps| && forall k | i <= k < j :: Down(ps[k].state)
    ensures RunStart(ps, i) == RunStart(ps, j)
  {
    if i < j {
      SameRun(ps, i, j - 1);
    }
  }

  /** The first poll of a stretch past the threshold. */
  lemma {:induction false} FirstPast(ps: seq<Poll>, threshold: real, i: nat, j: nat) returns (k: nat)
    requires i <= j < |ps| && PastThreshold(ps, threshold, i, j)
    ensures i <= k <= j && PastThreshold(ps, threshold, i, k)
    ensures forall l | i <= l < k :: !PastThreshold(ps, threshold, i, l)
    decreases j
  {
    if l :| i <= l < j && PastThreshold(ps, threshold, i, l) {
      k := FirstPast(ps, threshold, i, l);
    } else {
      k := j;
    }
  }

  /** A down run asks for attention at most once. */
  lemma AttentionAtMostOnce(ps: seq<Poll>, threshold: real, i: nat, j: nat)
    requires i <= j < |ps| && forall k | i <= k <= j :: Down(ps[k].state)
    requires FirstPastThreshold(ps, threshold, i) && FirstPastThreshold(ps, threshold, j)
    ensures i == j
  {
    SameRun(ps, i, j);
  }

  /** And a down run some poll of which is past the threshold does ask for attention. */
  lemma AttentionAtLeastOnce(ps: seq<Poll>, threshold: real, i: nat, j: nat)
    requires i <= j < |ps| && forall k | i <= k <= j :: Down(ps[k].state)
    requires i == RunStart(ps, j) && PastThreshold(ps, threshold, i, j)
    ensures exists k :: i <= k <= j && FirstPastThreshold(ps, threshold, k)
  {
    var k := FirstPast(ps, threshold, i, j);
    SameRun(ps, k, j);
    assert FirstPastThreshold(ps, threshold, k);
  }

  // ---- a notifier that may fail -------------------------------------------------------

  ghost predicate NoDuplicates(queue: seq<Message>) {
    forall i, j | 0 <= i < j < |queue| :: queue[i] != queue[j]
  }

  lemma {:induction false} QueueIsSmall(queue: seq<Message>, kinds: set<Message>)
    requires NoDuplicates(queue) && (forall m | m in queue :: m in kinds)
    ensures |queue| <= |kinds|
    decreases |queue|
  {
    if queue != [] {
      var n := |queue| - 1;
      forall m | m in queue[..n] ensures m in kinds - {queue[n]} {
        var i :| 0 <= i < n && queue[..n][i] == m;
        assert queue[i] != queue[n];
      }
      QueueIsSmall(queue[..n], kinds - {queue[n]});
    }
  }

  lemma {:induction false} DeliverIsFilter(queue: seq<Message>, failing: set<Message>)
    ensures forall m :: m in Deliver(queue, failing) <==> m in queue && m !in failing
  {
    if queue != [] {
      DeliverIsFilter(queue[..|queue| - 1], failing);
      assert queue == queue[..|queue| - 1] + [queue[|queue| - 1]];
    }
  }

  lemma EnqueueKeeps(queue: seq<Message>, m: Message)
    requires NoDuplicates(queue)
    ensures NoDuplicates(Enqueue(queue, m))
    ensures forall x :: x in Enqueue(queue, m) <==> x in queue || x == m
  {
  }

  lemma QueuedKeeps(m: Monitor, p: Poll, threshold: real)
    requires NoDuplicates(m.pending)
    ensures NoDuplicates(Queued(m, p, threshold)) && forall x | x in m.pending :: x in Queued(m, p, threshold)
  {
    var q := Enqueue(m.pending, Label(p.state));
    EnqueueKeeps(m.pending, Recovered);
    EnqueueKeeps(m.pending, Label(p.state));
    EnqueueKeeps(m.pending, AuthNeeded);
    EnqueueKeeps(q, AuthNeeded);
  }

  lemma AfterKeeps(m: Monitor, p: Poll, threshold: real)
    requires NoDuplicates(m.pending)
    ensures NoDuplicates(After(m, p, threshold).pending)
  {
    QueuedKeeps(m, p, threshold);
    assert After(m, p, threshold).pending == Queued(m, p, threshold) || After(m, p, threshold).pending == [];
  }

  lemma {:induction false} QueueStaysDistinct(ps: seq<Poll>, threshold: real, n: nat)
    requires n <= |ps|
    ensures NoDuplicates(Run(ps, threshold, n).pending)
  {
    if n > 0 {
      QueueStaysDistinct(ps, threshold, n - 1);
      AfterKeeps(Run(ps, threshold, n - 1), ps[n - 1], threshold);
    }
  }

  /** What a poll calls for, given what the monitor remembers, backlog or not: a recovery after
      down states, the label of a new down state, attention past the threshold. */
  predicate CalledFor(m: Monitor, p: Poll, threshold: real, x: Message) {
    match x
    case Recovered => p.state == Connected && (m.downSince.Some? || (m.last.Some? && m.last.value != Connected))
    case NowReconnecting => p.state == Reconnecting && m.last != Some(Reconnecting)
    case NowDisconnected => p.state == Disconnected && m.last != Some(Disconnected)
    case AuthNeeded =>
      p.state != Connected && !m.attentionSent
      && p.now - (if m.downSince.Some? then m.downSince.value else p.now) >= threshold
  }

  /** The queue of a round is the backlog and what the poll calls for, and each of them is sent
      in the round or kept for the next. */
  lemma CalledForIsSentOrKept(m: Monitor, p: Poll, threshold: real, x: Message)
    ensures x in Queued(m, p, threshold) <==> x in m.pending || CalledFor(m, p, threshold, x)
    ensures x in m.pending || CalledFor(m, p, threshold, x) ==>
      x in Sent(m, p, threshold) || x in After(m, p, threshold).pending
  {
    DeliverIsFilter(Queued(m, p, threshold), p.failing);
  }

  /** Whatever is delivered, the queue holds each message once, at most four. */
  lemma QueueStaysSmall(ps: seq<Poll>, threshold: real, n: nat)
    requires n <= |ps|
    ensures NoDuplicates(Run(ps, threshold, n).pending) && |Run(ps, threshold, n).pending| <= 4
  {
    QueueStaysDistinct(ps, threshold, n);
    QueueIsSmall(Run(ps, threshold, n).pending, {Recovered, NowReconnecting, NowDisconnected, AuthNeeded});
  }

  /** The state and the attention flag move only on a fully delivered round, and a queued
      message leaves the queue only by being sent. */
  lemma FailuresLoseNothing(ps: seq<Poll>, threshold: real, n: nat)
    requires n < |ps|
    ensures var m, p := Run(ps, threshold, n), ps[n];
      var t := Run(ps, threshold, n + 1);
      && (AllDelivered(Queued(m, p, threshold), p.failing)
          <==> t.pending == [] && t.last == Some(p.state) && Sent(m, p, threshold) == Queued(m, p, threshold))
      && (t.pending != [] ==> t.last == m.last && t.attentionSent == m.attentionSent)
      && (forall q | q in m.pending :: q in t.pending || q in Sent(m, p, threshold))
  {
    var m, p := Run(ps, threshold, n), ps[n];
    QueueStaysSmall(ps, threshold, n);
    QueuedKeeps(m, p, threshold);
    DeliverIsFilter(Queued(m, p, threshold), p.failing);
    if AllDelivered(Queued(m, p, threshold), p.failing) {
      DeliverEverything(Queued(m, p, threshold), p.failing);
    }
  }

  lemma {:induction false} DeliverEverything(queue: seq<Message>, failing: set<Message>)
    requires AllDelivered(queue, failing)
    ensures Deliver(queue, failing) == queue
  {
    if queue != [] {
      DeliverEverything(queue[..|queue| - 1], failing);
    }
  }

  // ---- the monitor object -------------------------------------------------------------

  class ConnectionMonitorState {
    var last: Option<ConnectionState>
    var downSince: Option<real>
    var attentionSent: bool
    var pending: seq<Message>

    ghost function State(): Monitor
      reads this
    {
      Monitor(last, downSince, attentionSent, pending)
    }

    constructor ()
      ensures State() == INITIAL
    {
      last, downSince, attentionSent, pending := None, None, false, [];
    }

    method QueueMessage(m: Message)
      modifies this`pending
      ensures pending == Enqueue(old(pending), m)
    {
      if m !in pending {
        pending := pending + [m];
      }
    }

    /** _send_pending_notifications: every message is tried, and one failure keeps them all. */
    method SendPending(failing: set<Message>) returns (sent: seq<Message>, raised: bool)
      modifies this`pending
      ensures sent == Deliver(old(pending), failing)
      ensures raised <==> !AllDelivered(old(pending), failing)
      ensures pending == if raised then old(pending) else []
    {
      sent, raised := [], false;
      for i := 0 to |pending|
        invariant pending == old(pending)
        invariant sent == Deliver(pending[..i], failing)
        invariant raised <==> !AllDelivered(pending[..i], failing)
      {
        assert pending[..i + 1] == pending[..i] + [pending[i]] && pending[..i + 1][..i] == pending[..i];
        if pending[i] in failing {
          raised := true;
        } else {
          sent := sent + [pending[i]];
        }
      }
      assert pending[..|pending|] == pending;
      if !raised {
        pending := [];
      }
    }

    /** poll_connection_once; `raised` is the delivery error it lets through. */
    method PollOnce(p: Poll, threshold: real) returns (sent: seq<Message>, raised: bool)
      modifies this
      ensures State() == After(old(State()), p, threshold)
      ensures sent == Sent(old(State()), p, threshold)
      ensures raised <==> !AllDelivered(Queued(old(State()), p, threshold), p.failing)
    {
      var previous := last;
      if p.state == Connected {
        if (previous.Some? && Down(previous.value)) || downSince.Some? {
          QueueMessage(Recovered);
        }
        sent, raised := SendPending(p.failing);
        if !raised {
          last, downSince, attentionSent := Some(Connected), None, false;
        }
        return;
      }
      if downSince.None? {
        downSince := Some(p.now);
      }
      if previous != Some(p.state) {
        QueueMessage(Label(p.state));
      }
      var due := !attentionSent && p.now - downSince.value >= threshold;
      if due {
        QueueMessage(AuthNeeded);
      }
      sent, raised := SendPending(p.failing);
      if !raised {
        last := Some(p.state);
        if due {
          attentionSent := true;
        }
      }
    }
  }
}
