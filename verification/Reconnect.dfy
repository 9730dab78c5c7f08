/**
  The client connection as an event-driven machine: user calls, socket events and timers firing
  in any order.  A socket's close is delivered before the next connect.
*/
module Reconnect {
  import opened Prelude

  datatype Status = Disconnected | Connecting | Connected | Reconnecting
  datatype Ready = Opening | Open

  type TimerId = int
  datatype Timer = Heartbeat | Retry(delay: int)

  datatype Options = Options(reconnect: bool, maxReconnectAttempts: int, reconnectInterval: int)

  /** `timers` are the browser's pending timers; the last three fields are history. */
  datatype Client = Client(
    opts: Options,
    ws: Option<Ready>,
    status: Status,
    reconnectAttempts: int,
    heartbeatTimer: Option<TimerId>,
    reconnectTimer: Option<TimerId>,
    seqNo: int,
    timers: map<TimerId, Timer>,
    nextTimer: TimerId,
    notified: seq<Status>,
    sent: seq<int>,            // the sequence numbers sent
    delays: seq<int>)          // the retries scheduled since the last open or disconnect

  /** `creates` tells whether the WebSocket constructor returns or throws. */
  datatype Event =
    | Connect(creates: bool)
    | Opened
    | Closed
    | RetryFires(t: TimerId, creates: bool)
    | HeartbeatFires(t: TimerId)
    | Send
    | Disconnect

  function NewClient(opts: Options): Client {
    Client(opts, None, Disconnected, 0, None, None, 0, map[], 0, [], [], [])
  }

  function SetStatus(c: Client, status: Status): Client {
    if c.status == status then c else c.(status := status, notified := c.notified + [status])
  }

  function ClearTimer(c: Client, t: Option<TimerId>): Client {
    if t.Some? then c.(timers := c.timers - {t.value}) else c
  }

  function StopHeartbeat(c: Client): Client { ClearTimer(c, c.heartbeatTimer).(heartbeatTimer := None) }

  function StartHeartbeat(c: Client): Client {
    var s := StopHeartbeat(c);
    s.(heartbeatTimer := Some(s.nextTimer), timers := s.timers[s.nextTimer := Heartbeat], nextTimer := s.nextTimer + 1)
  }

  function StopReconnect(c: Client): Client {
    ClearTimer(c, c.reconnectTimer).(reconnectTimer := None, reconnectAttempts := 0, delays := [])
  }

  function ScheduleRetry(c: Client): Client {
    var attempt := c.reconnectAttempts + 1;
    var delay := c.opts.reconnectInterval * attempt;
    c.(reconnectAttempts := attempt, reconnectTimer := Some(c.nextTimer),
       timers := c.timers[c.nextTimer := Retry(delay)], nextTimer := c.nextTimer + 1,
       delays := c.delays + [delay])
  }

  function HandleClose(c: Client): Client {
    var closed := SetStatus(c.(ws := None), Disconnected);
    if c.opts.reconnect && c.reconnectAttempts < c.opts.maxReconnectAttempts
    then ScheduleRetry(SetStatus(closed, Reconnecting))
    else closed
  }

  function DoConnect(c: Client, creates: bool): Client {
    if c.ws.Some? then c
    else
      var trying := SetStatus(c, Connecting);
      if creates then trying.(ws := Some(Opening)) else HandleClose(trying)
  }

  function OnOpen(c: Client): Client {
    StartHeartbeat(SetStatus(c.(ws := Some(Open)), Connected).(reconnectAttempts := 0, delays := []))
  }

  function DoSend(c: Client): Client {
    if c.ws != Some(Open) then c else c.(seqNo := c.seqNo + 1, sent := c.sent + [c.seqNo + 1])
  }

  function DoDisconnect(c: Client): Client {
    SetStatus(StopHeartbeat(StopReconnect(c)).(ws := None), Disconnected)
  }

  function Next(c: Client, e: Event): Client {
    match e
    case Connect(creates) => DoConnect(c, creates)
    case Opened => if c.ws == Some(Opening) then OnOpen(c) else c
    case Closed => if c.ws.Some? then HandleClose(StopHeartbeat(c)) else c
    case RetryFires(t, creates) =>
      if t in c.timers && c.timers[t].Retry? then DoConnect(c.(timers := c.timers - {t}), creates) else c
    case HeartbeatFires(t) => if t in c.timers && c.timers[t].Heartbeat? then DoSend(c) else c
    case Send => DoSend(c)
    case Disconnect => DoDisconnect(c)
  }

  function RunFrom(c: Client, events: seq<Event>): Client
    decreases |events|
  {
    if events == [] then c else Next(RunFrom(c, events[..|events| - 1]), events[|events| - 1])
  }

  function Run(opts: Options, events: seq<Event>): Client { RunFrom(NewClient(opts), events) }

  // ----- What every event keeps -----

  predicate IsRetry(timers: map<TimerId, Timer>, t: TimerId) { t in timers && timers[t].Retry? }

  predicate IsHeartbeat(timers: map<TimerId, Timer>, t: TimerId) { t in timers && timers[t].Heartbeat? }

  ghost predicate TimersFresh(timers: map<TimerId, Timer>, next: TimerId,
                              heartbeat: Option<TimerId>, retry: Option<TimerId>)
  {
    && (forall t :: t in timers ==> t < next)
    && (heartbeat.Some? ==> heartbeat.value < next)
    && (retry.Some? ==> retry.value < next && !IsHeartbeat(timers, retry.value))
  }

  /** The n-th retry since the last open or disconnect waits n intervals, within the budget. */
  ghost predicate BudgetOk(opts: Options, attempts: int, delays: seq<int>) {
    && |delays| == attempts
    && (forall i :: 0 <= i < |delays| ==> delays[i] == opts.reconnectInterval * (i + 1))
    && (attempts == 0 || (opts.reconnect && attempts <= opts.maxReconnectAttempts))
  }

  /** The one heartbeat timer runs exactly while the socket is open. */
  ghost predicate HeartOk(timers: map<TimerId, Timer>, heartbeat: Option<TimerId>, ws: Option<Ready>) {
    && (forall t :: IsHeartbeat(timers, t) <==> heartbeat == Some(t))
    && (heartbeat.Some? <==> ws == Some(Open))
  }

  ghost predicate StatusOk(status: Status, ws: Option<Ready>, timers: map<TimerId, Timer>, retry: Option<TimerId>) {
    && (status.Connected? <==> ws == Some(Open))
    && (status.Connecting? <==> ws == Some(Opening))
    && (status.Reconnecting? ==> retry.Some? && IsRetry(timers, retry.value))
  }

  /** The listener hears every change and nothing else. */
  ghost predicate NotifiedOk(notified: seq<Status>, status: Status) {
    var heard := [Disconnected] + notified;
    && heard[|heard| - 1] == status
    && forall i :: 0 < i < |heard| ==> heard[i] != heard[i - 1]
  }

  ghost predicate SeqOk(seqNo: int, sent: seq<int>) {
    seqNo == |sent| && forall i :: 0 <= i < |sent| ==> sent[i] == i + 1
  }

  /** All of it, but for the status. */
  ghost predicate PartsOk(c: Client, ws: Option<Ready>) {
    && TimersFresh(c.timers, c.nextTimer, c.heartbeatTimer, c.reconnectTimer)
    && BudgetOk(c.opts, c.reconnectAttempts, c.delays)
    && HeartOk(c.timers, c.heartbeatTimer, ws)
    && NotifiedOk(c.notified, c.status)
    && SeqOk(c.seqNo, c.sent)
  }

  ghost predicate ClientOk(c: Client) {
    PartsOk(c, c.ws) && StatusOk(c.status, c.ws, c.timers, c.reconnectTimer)
  }

  lemma SetStatusNotifies(c: Client, status: Status)
    requires NotifiedOk(c.notified, c.status)
    ensures NotifiedOk(SetStatus(c, status).notified, status)
  {
    if c.status != status {
      assert [Disconnected] + (c.notified + [status]) == ([Disconnected] + c.notified) + [status];
    }
  }

  lemma HandleCloseOk(c: Client)
    requires PartsOk(c, None)
    ensures ClientOk(HandleClose(c))
  {
    hide NotifiedOk;
    SetStatusNotifies(c, Disconnected);
    SetStatusNotifies(SetStatus(c.(ws := None), Disconnected), Reconnecting);
  }

  lemma DoConnectOk(c: Client, creates: bool)
    requires PartsOk(c, c.ws)
    requires c.ws.Some? ==> StatusOk(c.status, c.ws, c.timers, c.reconnectTimer)
    ensures ClientOk(DoConnect(c, creates))
  {
    hide NotifiedOk, BudgetOk, TimersFresh, SeqOk, HandleClose;
    if c.ws.None? {
      SetStatusNotifies(c, Connecting);
      if !creates {
        HandleCloseOk(SetStatus(c, Connecting));
      }
    }
  }

  lemma RetryFiresOk(c: Client, t: TimerId, creates: bool)
    requires ClientOk(c) && IsRetry(c.timers, t)
    ensures ClientOk(Next(c, RetryFires(t, creates)))
  {
    hide NotifiedOk, BudgetOk, SeqOk, DoConnect;
    assert forall u :: IsHeartbeat(c.timers - {t}, u) <==> IsHeartbeat(c.timers, u);
    var fired := c.(timers := c.timers - {t});
    assert c.ws.Some? ==> c.ws.value.Open? || c.ws.value.Opening?;
    DoConnectOk(fired, creates);
  }

  lemma OpenedOk(c: Client)
    requires ClientOk(c) && c.ws == Some(Opening)
    ensures ClientOk(OnOpen(c))
  {
    hide NotifiedOk, SeqOk;
    SetStatusNotifies(c, Connected);
  }

  lemma ClosedOk(c: Client)
    requires ClientOk(c) && c.ws.Some?
    ensures ClientOk(HandleClose(StopHeartbeat(c)))
  {
    hide NotifiedOk, BudgetOk, SeqOk, HandleClose;
    HandleCloseOk(StopHeartbeat(c));
  }

  lemma DisconnectOk(c: Client)
    requires ClientOk(c)
    ensures ClientOk(DoDisconnect(c))
  {
    hide NotifiedOk, SeqOk;
    SetStatusNotifies(c, Disconnected);
  }

  lemma NextOk(c: Client, e: Event)
    requires ClientOk(c)
    ensures ClientOk(Next(c, e))
  {
    hide NotifiedOk, BudgetOk, HeartOk, TimersFresh, OnOpen, HandleClose, DoConnect, DoDisconnect;
    match e
    case Connect(creates) => DoConnectOk(c, creates);
    case Opened => if c.ws == Some(Opening) { OpenedOk(c); }
    case Closed => if c.ws.Some? { ClosedOk(c); }
    case RetryFires(t, creates) => if IsRetry(c.timers, t) { RetryFiresOk(c, t, creates); }
    case Disconnect => DisconnectOk(c);
    case _ =>
  }

  lemma OptsKept(c: Client, e: Event)
    ensures Next(c, e).opts == c.opts
  {
  }

  lemma {:induction false} RunOk(opts: Options, events: seq<Event>)
    ensures ClientOk(Run(opts, events)) && Run(opts, events).opts == opts
    decreases |events|
  {
    if events == [] {
      assert Run(opts, events) == NewClient(opts);
    } else {
      var front, last := events[..|events| - 1], events[|events| - 1];
      hide ClientOk, Next;
      RunOk(opts, front);
      NextOk(Run(opts, front), last);
      OptsKept(Run(opts, front), last);
    }
  }

  // ----- Theorems -----

  function Sum(s: seq<int>): int
    decreases |s|
  {
    if s == [] then 0 else Sum(s[..|s| - 1]) + s[|s| - 1]
  }

  lemma {:induction false} BackoffSum(delays: seq<int>, interval: int)
    requires forall i :: 0 <= i < |delays| ==> delays[i] == interval * (i + 1)
    ensures 2 * Sum(delays) == interval * (|delays| * (|delays| + 1))
    decreases |delays|
  {
    if delays != [] {
      var n := |delays|;
      BackoffSum(delays[..n - 1], interval);
      assert interval * (n * (n + 1)) == interval * ((n - 1) * n) + 2 * (interval * n);
    }
  }

  /**
    Whatever happens, the attempts stay within the maximum, and the delays scheduled since the
    last open or disconnect grow linearly: they add up to interval * a * (a + 1) / 2.
  */
  lemma RetryBudget(opts: Options, events: seq<Event>)
    ensures var c := Run(opts, events); var a := c.reconnectAttempts;
      && 0 <= a
      && (a > 0 ==> opts.reconnect && a <= opts.maxReconnectAttempts)
      && |c.delays| == a
      && 2 * Sum(c.delays) == opts.reconnectInterval * (a * (a + 1))
  {
    hide Run;
    RunOk(opts, events);
    BackoffSum(Run(opts, events).delays, opts.reconnectInterval);
  }

  /** The heartbeat runs exactly while connected, and there is never a second one. */
  lemma OneHeartbeat(opts: Options, events: seq<Event>, t: TimerId)
    ensures var c := Run(opts, events);
      && (IsHeartbeat(c.timers, t) ==> c.status.Connected? && c.heartbeatTimer == Some(t))
      && (c.status.Connected? ==> c.heartbeatTimer.Some? && IsHeartbeat(c.timers, c.heartbeatTimer.value))
  {
    hide Run;
    RunOk(opts, events);
  }

  /** The listener is told of changes only, in order, and always knows the current status. */
  lemma ListenerSeesChanges(opts: Options, events: seq<Event>)
    ensures var c := Run(opts, events); var heard := [Disconnected] + c.notified;
      && heard[|heard| - 1] == c.status
      && forall i :: 0 < i < |heard| ==> heard[i] != heard[i - 1]
  {
    hide Run;
    RunOk(opts, events);
  }

  /** Messages are numbered 1, 2, 3, ... across reconnections, without gaps. */
  lemma SequenceHasNoGaps(opts: Options, events: seq<Event>, i: nat)
    requires i < |Run(opts, events).sent|
    ensures Run(opts, events).sent[i] == i + 1
  {
    hide Run;
    RunOk(opts, events);
  }

  // ----- Retries -----

  ghost predicate Pending(c: Client) { exists t :: IsRetry(c.timers, t) }

  /** User code never calls connect while a retry is pending. */
  ghost predicate Patient(opts: Options, events: seq<Event>) {
    forall i :: 0 <= i < |events| && events[i].Connect? ==> !Pending(Run(opts, events[..i]))
  }

  /** Every pending retry is the remembered one, with no socket beside it. */
  ghost predicate OneRetry(c: Client) {
    forall t :: IsRetry(c.timers, t) ==> c.reconnectTimer == Some(t) && c.ws.None? && c.status.Reconnecting?
  }

  lemma HandleCloseOne(c: Client)
    requires !Pending(c)
    ensures OneRetry(HandleClose(c))
  {
    var d := HandleClose(c);
    forall t | IsRetry(d.timers, t) ensures t == c.nextTimer && d.reconnectTimer == Some(t) && d.status.Reconnecting? {
      assert t != c.nextTimer ==> IsRetry(c.timers, t);
    }
  }

  lemma DoConnectOne(c: Client, creates: bool)
    requires !Pending(c)
    ensures OneRetry(DoConnect(c, creates))
  {
    hide HandleClose;
    if c.ws.None? {
      var trying := SetStatus(c, Connecting);
      assert trying.timers == c.timers;
      HandleCloseOne(trying);
    }
  }

  /** The socket and the retry exclude each other. */
  lemma SocketMeansNoRetry(c: Client)
    requires OneRetry(c) && c.ws.Some?
    ensures !Pending(c)
  {
  }

  lemma OneRetryKept(c: Client, e: Event)
    requires ClientOk(c) && OneRetry(c)
    requires e.Connect? ==> !Pending(c)
    ensures OneRetry(Next(c, e))
  {
    hide HandleClose, DoConnect, ClientOk;
    match e
    case Connect(creates) => DoConnectOne(c, creates);
    case Opened => if c.ws == Some(Opening) { SocketMeansNoRetry(c); FewerRetries(c, OnOpen(c)); }
    case Closed => if c.ws.Some? {
      SocketMeansNoRetry(c);
      FewerRetries(c, StopHeartbeat(c));
      HandleCloseOne(StopHeartbeat(c));
    }
    case RetryFires(t, creates) => if IsRetry(c.timers, t) {
      var fired := c.(timers := c.timers - {t});
      OnlyRetryFired(c, t);
      DoConnectOne(fired, creates);
    }
    case Disconnect => DisconnectClears(c);
    case _ =>
  }

  lemma OnlyRetryFired(c: Client, t: TimerId)
    requires OneRetry(c) && IsRetry(c.timers, t)
    ensures !Pending(c.(timers := c.timers - {t}))
  {
    assert forall u :: u in c.timers - {t} && IsRetry(c.timers, u) ==> u == t;
  }

  /** Heartbeat timers are no retries. */
  lemma FewerRetries(c: Client, d: Client)
    requires !Pending(c)
    requires forall t :: t in d.timers ==> d.timers[t].Heartbeat? || (t in c.timers && d.timers[t] == c.timers[t])
    ensures !Pending(d) && OneRetry(d)
  {
    assert forall t :: IsRetry(d.timers, t) ==> IsRetry(c.timers, t);
  }

  lemma {:induction false} OneRetryRun(opts: Options, events: seq<Event>)
    requires Patient(opts, events)
    ensures OneRetry(Run(opts, events))
    decreases |events|
  {
    hide Next, OneRetry, Pending;
    if events != [] {
      var front := events[..|events| - 1];
      forall i | 0 <= i < |front| && front[i].Connect? ensures !Pending(Run(opts, front[..i])) {
        assert front[..i] == events[..i] && events[i].Connect?;
      }
      OneRetryRun(opts, front);
      RunOk(opts, front);
      OneRetryKept(Run(opts, front), events[|events| - 1]);
    } else {
      NothingPending(opts);
    }
  }

  lemma NothingPending(opts: Options)
    ensures OneRetry(NewClient(opts))
  {
  }

  /** With a patient user at most one retry is ever pending, and exactly while the status says so. */
  lemma OneRetryPending(opts: Options, events: seq<Event>)
    requires Patient(opts, events)
    ensures var c := Run(opts, events);
      && (forall s, t :: IsRetry(c.timers, s) && IsRetry(c.timers, t) ==> s == t)
      && (Pending(c) <==> c.status.Reconnecting?)
  {
    hide Run;
    OneRetryRun(opts, events);
    RunOk(opts, events);
  }

  /** Only losses and timers: nothing opens, and the user neither connects nor disconnects. */
  predicate OnlyFailures(events: seq<Event>) {
    forall i :: 0 <= i < |events| ==> !events[i].Connect? && !events[i].Opened? && !events[i].Disconnect?
  }

  /** How many retries really fire. */
  function Fired(c: Client, events: seq<Event>): nat
    decreases |events|
  {
    if events == [] then 0
    else
      var last := events[|events| - 1];
      var before := RunFrom(c, events[..|events| - 1]);
      Fired(c, events[..|events| - 1]) + (if last.RetryFires? && IsRetry(before.timers, last.t) then 1 else 0)
  }

  function Waiting(c: Client): int { if c.status.Reconnecting? then 1 else 0 }

  lemma FailureStep(c: Client, e: Event)
    requires OneRetry(c) && (c.ws.Some? ==> !c.status.Reconnecting?)
    requires !e.Connect? && !e.Opened? && !e.Disconnect?
    ensures var d := Next(c, e);
      (if e.RetryFires? && IsRetry(c.timers, e.t) then 1 else 0) + Waiting(d)
      == d.reconnectAttempts - c.reconnectAttempts + Waiting(c)
  {
  }

  lemma {:induction false} RunConcat(c: Client, before: seq<Event>, after: seq<Event>)
    ensures RunFrom(c, before + after) == RunFrom(RunFrom(c, before), after)
    decreases |after|
  {
    hide Next;
    if after == [] {
      assert before + after == before;
    } else {
      var n := |after| - 1;
      RunConcat(c, before, after[..n]);
      assert (before + after)[..|before + after| - 1] == before + after[..n];
    }
  }

  lemma {:induction false} FailuresFire(opts: Options, events: seq<Event>, later: seq<Event>)
    requires OneRetry(Run(opts, events)) && OnlyFailures(later)
    ensures var c := Run(opts, events); var d := RunFrom(c, later);
      && OneRetry(d)
      && Fired(c, later) + Waiting(d) == d.reconnectAttempts - c.reconnectAttempts + Waiting(c)
    decreases |later|
  {
    hide Next, OneRetry, Waiting, BudgetOk, HeartOk, NotifiedOk, SeqOk, TimersFresh;
    if later != [] {
      var front, last := later[..|later| - 1], later[|later| - 1];
      var before := RunFrom(Run(opts, events), front);
      FailuresFire(opts, events, front);
      RunConcat(NewClient(opts), events, front);
      RunOk(opts, events + front);
      OneRetryKept(before, last);
      assert before.ws.Some? ==> before.ws.value.Open? || before.ws.value.Opening?;
      FailureStep(before, last);
    }
  }

  /**
    A client that only meets failures gives up: however the losses and timers interleave, at most
    what is left of the budget (and the retry already waiting) fires.
  */
  lemma GivesUp(opts: Options, events: seq<Event>, later: seq<Event>)
    requires Patient(opts, events) && OnlyFailures(later)
    ensures var c := Run(opts, events);
      Fired(c, later) <= (if opts.reconnect && opts.maxReconnectAttempts > c.reconnectAttempts
                          then opts.maxReconnectAttempts - c.reconnectAttempts else 0) + Waiting(c)
  {
    hide RunFrom, Fired;
    var c := Run(opts, events);
    OneRetryRun(opts, events);
    RunOk(opts, events);
    FailuresFire(opts, events, later);
    RunConcat(NewClient(opts), events, later);
    RunOk(opts, events + later);
  }

  /** The user makes no connect call. */
  predicate NoConnect(events: seq<Event>) { forall i :: 0 <= i < |events| ==> !events[i].Connect? }

  /** A client at rest has no socket and no timer. */
  predicate AtRest(c: Client) {
    c == c.(ws := None, status := Disconnected, timers := map[], reconnectAttempts := 0, delays := [],
            heartbeatTimer := None, reconnectTimer := None)
  }

  /** Such a client does not change until the user connects. */
  lemma {:induction false} RestLasts(c: Client, events: seq<Event>)
    requires AtRest(c) && NoConnect(events)
    ensures RunFrom(c, events) == c
    decreases |events|
  {
    if events != [] {
      RestLasts(c, events[..|events| - 1]);
    }
  }

  /** Whatever the remembered retry misses survives a disconnect; everything else is cleared. */
  lemma DisconnectClears(c: Client)
    requires ClientOk(c)
    ensures var d := DoDisconnect(c);
      forall t :: t in d.timers <==> IsRetry(c.timers, t) && c.reconnectTimer != Some(t)
  {
    hide NotifiedOk, BudgetOk, SeqOk;
    forall t | t in c.timers ensures IsRetry(c.timers, t) || IsHeartbeat(c.timers, t) {}
  }

  /**
    After disconnect the client stays disconnected, whatever fires, until the user connects
    again, exactly if every retry pending at the disconnect was the remembered one.
  */
  lemma DisconnectIsFinalExactly(opts: Options, events: seq<Event>)
    ensures var c := Run(opts, events);
      (forall later :: NoConnect(later) ==> RunFrom(DoDisconnect(c), later).status.Disconnected?)
      <==> (forall t :: IsRetry(c.timers, t) ==> c.reconnectTimer == Some(t))
  {
    hide Run;
    var c := Run(opts, events);
    RunOk(opts, events);
    DisconnectClears(c);
    var d := DoDisconnect(c);
    if t :| IsRetry(c.timers, t) && c.reconnectTimer != Some(t) {
      var e := RetryFires(t, true);
      assert IsRetry(d.timers, t) && d.ws.None?;
      assert [e][..0] == [];
      assert RunFrom(d, [e]) == Next(d, e);
      assert NoConnect([e]) && RunFrom(d, [e]).status.Connecting?;
    } else {
      assert forall t :: t !in d.timers;
      assert d.timers == map[];
      forall later | NoConnect(later) ensures RunFrom(d, later).status.Disconnected? {
        RestLasts(d, later);
      }
    }
  }

  /** So with a patient user a disconnect is final: no timer is left, and whatever fires, nothing changes any more. */
  lemma DisconnectIsFinal(opts: Options, events: seq<Event>, later: seq<Event>)
    requires Patient(opts, events) && NoConnect(later)
    ensures var d := Run(opts, events + [Disconnect]); var c := Run(opts, events + [Disconnect] + later);
      AtRest(d) && c == d
  {
    hide ClientOk;
    var c := Run(opts, events);
    OneRetryRun(opts, events);
    RunOk(opts, events);
    DisconnectClears(c);
    assert (events + [Disconnect])[..|events|] == events;
    var d := DoDisconnect(c);
    assert d == Run(opts, events + [Disconnect]);
    assert forall t :: t !in d.timers;
    assert d.timers == map[];
    RestLasts(d, later);
    RunConcat(NewClient(opts), events + [Disconnect], later);
  }

  /**
    An impatient connect breaks it: the pending retry is forgotten when the next one is
    scheduled, and it reconnects the client after a disconnect.
  */
  lemma ImpatientConnect(opts: Options)
    requires opts.reconnect && opts.maxReconnectAttempts >= 2
    ensures var events := [Connect(false), Connect(false)];
      && !Patient(opts, events)
      && IsRetry(Run(opts, events).timers, 0) && IsRetry(Run(opts, events).timers, 1)
      && Next(DoDisconnect(Run(opts, events)), RetryFires(0, true)).status.Connecting?
  {
    var a := Connect(false);
    var c := NewClient(opts);
    ImpatientStates(c);
    assert RunFrom(c, []) == c;
    hide Next, DoDisconnect;
    RunMore(c, [], a);
    RunMore(c, [a], a);
    hide RunFrom;
    assert [] + [a] == [a] && [a] + [a] == [a, a];
    assert [a, a][..1] == [a] && [a, a][1].Connect?;
    assert IsRetry(Run(opts, [a]).timers, 0);
  }

  lemma ImpatientStates(c: Client)
    requires c == NewClient(c.opts) && c.opts.reconnect && c.opts.maxReconnectAttempts >= 2
    ensures var c1 := Next(c, Connect(false)); var c2 := Next(c1, Connect(false));
      && IsRetry(c1.timers, 0)
      && IsRetry(c2.timers, 0) && IsRetry(c2.timers, 1)
      && Next(DoDisconnect(c2), RetryFires(0, true)).status.Connecting?
  {
    var c1 := Next(c, Connect(false));
    assert c1.timers[0].Retry? && c1.nextTimer == 1 && c1.ws.None?;
  }

  lemma RunMore(c: Client, events: seq<Event>, e: Event)
    ensures RunFrom(c, events + [e]) == Next(RunFrom(c, events), e)
  {
    assert (events + [e])[..|events|] == events;
  }
}
