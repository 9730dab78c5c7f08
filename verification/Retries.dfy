/**
  The client's retries, reports and messages told from the events: which retries each loss
  schedules and after what delay, what the listener hears, and how many messages are sent.
*/
module Retries {
  import opened Prelude
  import opened Reconnect

  /** The socket opens, or the user disconnects: the budget is whole again. */
  predicate Resets(c: Client, e: Event) {
    e.Disconnect? || (e.Opened? && c.ws == Some(Opening))
  }

  /** The delay of the retry timer that a step sets, if it sets one. */
  function Scheduled(c: Client, d: Client): seq<int> {
    if IsRetry(d.timers, c.nextTimer) then [d.timers[c.nextTimer].delay] else []
  }

  /** The delays of the retries scheduled since the last open or disconnect. */
  function RetriesSince(c: Client, events: seq<Event>): seq<int>
    decreases |events|
  {
    if events == [] then []
    else
      var front, last := events[..|events| - 1], events[|events| - 1];
      var before := RunFrom(c, front);
      if Resets(before, last) then []
      else RetriesSince(c, front) + Scheduled(before, Next(before, last))
  }

  /** What a step schedules is what it remembers; no other retry timer appears. */
  lemma StepSchedules(c: Client, e: Event)
    requires TimersFresh(c.timers, c.nextTimer, c.heartbeatTimer, c.reconnectTimer)
    ensures var d := Next(c, e);
      && d.delays == (if Resets(c, e) then [] else c.delays + Scheduled(c, d))
      && (forall t :: IsRetry(d.timers, t) ==> t == c.nextTimer || IsRetry(c.timers, t))
  {
    match e
    case Connect(creates) => ConnectSchedules(c, c, creates);
    case RetryFires(t, creates) =>
      if IsRetry(c.timers, t) { ConnectSchedules(c, c.(timers := c.timers - {t}), creates); }
    case Closed => if c.ws.Some? { ClosingSchedules(c, StopHeartbeat(c)); }
    case _ =>
  }

  lemma ClosingSchedules(c: Client, s: Client)
    requires s == c.(timers := s.timers, heartbeatTimer := s.heartbeatTimer, ws := s.ws,
                     status := s.status, notified := s.notified)
    requires c.nextTimer !in s.timers && forall t :: t in s.timers ==> t in c.timers && s.timers[t] == c.timers[t]
    ensures var d := HandleClose(s);
      && d.delays == c.delays + Scheduled(c, d)
      && (forall t :: IsRetry(d.timers, t) ==> t == c.nextTimer || IsRetry(c.timers, t))
  {
  }

  lemma ConnectSchedules(c: Client, s: Client, creates: bool)
    requires s == c.(timers := s.timers)
    requires c.nextTimer !in s.timers && forall t :: t in s.timers ==> t in c.timers && s.timers[t] == c.timers[t]
    ensures var d := DoConnect(s, creates);
      && d.delays == c.delays + Scheduled(c, d)
      && (forall t :: IsRetry(d.timers, t) ==> t == c.nextTimer || IsRetry(c.timers, t))
  {
    if s.ws.None? && !creates {
      ClosingSchedules(c, SetStatus(s, Connecting));
    }
  }

  lemma {:induction false} DelaysAreRetries(opts: Options, events: seq<Event>)
    ensures Run(opts, events).delays == RetriesSince(NewClient(opts), events)
    decreases |events|
  {
    hide Next, BudgetOk, HeartOk, NotifiedOk, SeqOk, StatusOk, TimersFresh, Resets, Scheduled;
    if events != [] {
      var front := events[..|events| - 1];
      DelaysAreRetries(opts, front);
      RunOk(opts, front);
      StepSchedules(Run(opts, front), events[|events| - 1]);
    }
  }

  /**
    In every run the attempts are the retries scheduled since the socket last opened or the user
    last disconnected, and the n-th of them waits n intervals.
  */
  lemma AttemptsAreRetries(opts: Options, events: seq<Event>)
    ensures var c, retries := Run(opts, events), RetriesSince(NewClient(opts), events);
      && c.reconnectAttempts == |retries|
      && forall i :: 0 <= i < |retries| ==> retries[i] == opts.reconnectInterval * (i + 1)
  {
    hide Run, RetriesSince;
    RunOk(opts, events);
    DelaysAreRetries(opts, events);
  }

  // ----- The whole budget is used -----

  /** How many retries a client may schedule between two opens. */
  function Budget(opts: Options): nat {
    if opts.reconnect && opts.maxReconnectAttempts > 0 then opts.maxReconnectAttempts else 0
  }

  /** A client that waits for nothing has nothing left to try with. */
  ghost predicate TriesOn(c: Client) {
    c.ws.None? && !Pending(c) ==> !c.opts.reconnect || c.reconnectAttempts >= c.opts.maxReconnectAttempts
  }

  lemma LossTriesOn(c: Client)
    ensures TriesOn(HandleClose(c))
  {
    var d := HandleClose(c);
    if c.opts.reconnect && c.reconnectAttempts < c.opts.maxReconnectAttempts {
      assert IsRetry(d.timers, c.nextTimer);
    }
  }

  lemma FailureTriesOn(c: Client, e: Event)
    requires TriesOn(c) && !e.Connect? && !e.Opened? && !e.Disconnect?
    ensures TriesOn(Next(c, e))
  {
    hide HandleClose;
    match e
    case Closed => if c.ws.Some? { LossTriesOn(StopHeartbeat(c)); }
    case RetryFires(t, creates) =>
      if IsRetry(c.timers, t) && c.ws.None? {
        LossTriesOn(SetStatus(c.(timers := c.timers - {t}), Connecting));
      }
    case _ =>
  }

  lemma {:induction false} FailuresTryOn(c: Client, later: seq<Event>)
    requires TriesOn(c) && OnlyFailures(later)
    ensures TriesOn(RunFrom(c, later))
    decreases |later|
  {
    hide Next, TriesOn;
    if later != [] {
      FailuresTryOn(c, later[..|later| - 1]);
      FailureTriesOn(RunFrom(c, later[..|later| - 1]), later[|later| - 1]);
    }
  }

  predicate OpenIsFresh(c: Client) { c.ws == Some(Open) ==> c.reconnectAttempts == 0 }

  lemma OpenStaysFresh(c: Client, e: Event)
    requires OpenIsFresh(c)
    ensures OpenIsFresh(Next(c, e))
  {
  }

  lemma {:induction false} OpenFreshInRuns(opts: Options, events: seq<Event>)
    ensures OpenIsFresh(Run(opts, events))
    decreases |events|
  {
    hide Next;
    if events != [] {
      OpenFreshInRuns(opts, events[..|events| - 1]);
      OpenStaysFresh(Run(opts, events[..|events| - 1]), events[|events| - 1]);
    }
  }

  lemma {:induction false} RetriesGoOn(c: Client, before: seq<Event>, later: seq<Event>)
    requires OnlyFailures(later)
    ensures RetriesSince(c, before + later) == RetriesSince(c, before) + RetriesSince(RunFrom(c, before), later)
    decreases |later|
  {
    hide Next, Scheduled;
    if later == [] {
      assert before + later == before;
    } else {
      var n := |later| - 1;
      RetriesGoOn(c, before, later[..n]);
      RunConcat(c, before, later[..n]);
      assert (before + later)[..|before + later| - 1] == before + later[..n];
      assert !Resets(RunFrom(c, before + later[..n]), later[n]);
    }
  }

  /**
    The budget is used in full and no further: from a connected client on, however losses and
    timers interleave, the retries wait one, two, three intervals and so on within the budget; and
    when nothing is pending any more, all of the budget has been scheduled.
  */
  lemma ExactlyTheBudget(opts: Options, events: seq<Event>, later: seq<Event>)
    requires Run(opts, events).status.Connected? && OnlyFailures(later)
    ensures var c := Run(opts, events); var d, retries := RunFrom(c, later), RetriesSince(c, later);
      && |retries| <= Budget(opts)
      && (forall i :: 0 <= i < |retries| ==> retries[i] == opts.reconnectInterval * (i + 1))
      && (d.ws.None? && !Pending(d) ==> |retries| == Budget(opts))
  {
    hide RunFrom, RetriesSince;
    var c := Run(opts, events);
    RunOk(opts, events);
    OpenFreshInRuns(opts, events);
    AttemptsAreRetries(opts, events);
    FailuresTryOn(c, later);
    RunConcat(NewClient(opts), events, later);
    assert RunFrom(c, later) == Run(opts, events + later);
    assert RetriesSince(NewClient(opts), events) == [];
    RetriesGoOn(NewClient(opts), events, later);
    assert RetriesSince(NewClient(opts), events + later) == RetriesSince(c, later);
    AttemptsAreRetries(opts, events + later);
    RunOk(opts, events + later);
  }

  /** A retry that fails schedules the next one or uses the budget up. */
  lemma RetryFails(c: Client)
    requires ClientOk(c) && OneRetry(c) && c.ws.None? && Pending(c)
    ensures c.reconnectTimer.Some?
    ensures var d := Next(c, RetryFires(c.reconnectTimer.value, false));
      && ClientOk(d) && OneRetry(d) && d.ws.None? && d.opts == c.opts
      && (Pending(d) ==> d.reconnectAttempts == c.reconnectAttempts + 1 <= c.opts.maxReconnectAttempts)
  {
    var t :| IsRetry(c.timers, t);
    var e := RetryFires(t, false);
    NextOk(c, e);
    OneRetryKept(c, e);
    OptsKept(c, e);
    hide ClientOk, OneRetry;
    OnlyRetryFired(c, t);
    RetryGone(c, t);
  }

  lemma RetryGone(c: Client, t: TimerId)
    requires IsRetry(c.timers, t) && c.ws.None? && !Pending(c.(timers := c.timers - {t}))
    ensures var d := Next(c, RetryFires(t, false));
      d.ws.None? && (Pending(d) ==> d.reconnectAttempts == c.reconnectAttempts + 1 <= c.opts.maxReconnectAttempts)
  {
    var fired := c.(timers := c.timers - {t});
    var d := Next(c, RetryFires(t, false));
    if !(c.opts.reconnect && c.reconnectAttempts < c.opts.maxReconnectAttempts) {
      assert d.timers == fired.timers;
      assert forall u :: IsRetry(d.timers, u) <==> IsRetry(fired.timers, u);
    }
  }

  ghost function TriesLeft(c: Client): nat {
    if !Pending(c) then 0
    else if c.opts.maxReconnectAttempts > c.reconnectAttempts
         then c.opts.maxReconnectAttempts - c.reconnectAttempts + 1 else 1
  }

  lemma {:induction false} FailThrough(c: Client) returns (later: seq<Event>)
    requires ClientOk(c) && OneRetry(c) && c.ws.None?
    ensures OnlyFailures(later)
    ensures var d := RunFrom(c, later); d.ws.None? && !Pending(d)
    decreases TriesLeft(c)
  {
    hide Next, ClientOk, OneRetry;
    if Pending(c) {
      RetryFails(c);
      var e := RetryFires(c.reconnectTimer.value, false);
      var rest := FailThrough(Next(c, e));
      later := [e] + rest;
      RunConcat(c, [e], rest);
      assert [e][..0] == [] && RunFrom(c, []) == c;
      assert RunFrom(c, [e]) == Next(c, e);
    } else {
      later := [];
    }
  }

  /** And every connected client of a patient user can come to that: it loses its socket and each retry fails. */
  lemma BudgetCanRunOut(opts: Options, events: seq<Event>) returns (later: seq<Event>)
    requires Patient(opts, events) && Run(opts, events).status.Connected?
    ensures OnlyFailures(later)
    ensures var d := RunFrom(Run(opts, events), later); d.ws.None? && !Pending(d)
    ensures |RetriesSince(Run(opts, events), later)| == Budget(opts)
  {
    hide RunFrom, RetriesSince, Next;
    var c := Run(opts, events);
    RunOk(opts, events);
    OneRetryRun(opts, events);
    NextOk(c, Closed);
    OneRetryKept(c, Closed);
    SocketLost(c);
    var rest := FailThrough(Next(c, Closed));
    later := [Closed] + rest;
    RunConcat(c, [Closed], rest);
    OneEvent(c, Closed);
    ExactlyTheBudget(opts, events, later);
  }

  lemma SocketLost(c: Client)
    ensures Next(c, Closed).ws.None?
  {
  }

  lemma OneEvent(c: Client, e: Event)
    ensures RunFrom(c, [e]) == Next(c, e)
  {
    hide Next;
    assert [e][..0] == [] && RunFrom(c, []) == c;
  }

  // ----- The socket, the reports and the messages -----

  lemma SomeSocket(c: Client)
    ensures c.ws == None || c.ws == Some(Open) || c.ws == Some(Opening)
  {
    if c.ws.Some? {
      assert c.ws.value.Open? || c.ws.value.Opening?;
    }
  }

  function Tried(ws: Option<Ready>, creates: bool): Option<Ready> {
    if ws.None? && creates then Some(Opening) else ws
  }

  /** The socket, by the events; a retry counts if its timer is pending. */
  function SocketOf(opts: Options, events: seq<Event>): Option<Ready>
    decreases |events|
  {
    if events == [] then None
    else
      var front := events[..|events| - 1];
      var ws := SocketOf(opts, front);
      match events[|events| - 1]
      case Connect(creates) => Tried(ws, creates)
      case RetryFires(t, creates) => if IsRetry(Run(opts, front).timers, t) then Tried(ws, creates) else ws
      case Opened => if ws.Some? then Some(Open) else None
      case Closed => None
      case Disconnect => None
      case _ => ws
  }

  lemma {:induction false} SocketInRuns(opts: Options, events: seq<Event>)
    ensures Run(opts, events).ws == SocketOf(opts, events)
    decreases |events|
  {
    if events != [] {
      var front := events[..|events| - 1];
      SocketInRuns(opts, front);
      StepSocket(Run(opts, front), events[|events| - 1]);
    }
  }

  lemma StepSocket(c: Client, e: Event)
    ensures Next(c, e).ws ==
      match e
      case Connect(creates) => Tried(c.ws, creates)
      case RetryFires(t, creates) => if IsRetry(c.timers, t) then Tried(c.ws, creates) else c.ws
      case Opened => if c.ws.Some? then Some(Open) else None
      case Closed => None
      case Disconnect => None
      case _ => c.ws
  {
    SomeSocket(c);
  }

  /** What a loss reports: the loss, and whether the client retries. */
  function Loss(opts: Options, attempts: nat): seq<Status> {
    [Disconnected] + if opts.reconnect && attempts < opts.maxReconnectAttempts then [Reconnecting] else []
  }

  function Try(opts: Options, ws: Option<Ready>, attempts: nat, creates: bool): seq<Status> {
    if ws.Some? then [] else [Connecting] + if creates then [] else Loss(opts, attempts)
  }

  /** What one event lets the listener hear; a retry `fires` if its timer is pending. */
  function Reported(opts: Options, status: Status, ws: Option<Ready>, attempts: nat, e: Event, fires: bool)
    : seq<Status>
  {
    match e
    case Connect(creates) => Try(opts, ws, attempts, creates)
    case RetryFires(_, creates) => if fires then Try(opts, ws, attempts, creates) else []
    case Opened => if ws == Some(Opening) then [Connected] else []
    case Closed => if ws.Some? then Loss(opts, attempts) else []
    case Disconnect => if status.Disconnected? then [] else [Disconnected]
    case _ => []
  }

  predicate Fires(timers: map<TimerId, Timer>, e: Event) { e.RetryFires? && IsRetry(timers, e.t) }

  /** What the listener hears in a run, by the events. */
  function HeardOf(opts: Options, events: seq<Event>): (heard: seq<Status>)
    ensures heard != []
    decreases |events|
  {
    if events == [] then [Disconnected]
    else
      var front, last := events[..|events| - 1], events[|events| - 1];
      var heard := HeardOf(opts, front);
      heard + Reported(opts, heard[|heard| - 1], SocketOf(opts, front), |RetriesSince(NewClient(opts), front)|, last,
                       Fires(Run(opts, front).timers, last))
  }

  lemma LossReported(c: Client)
    requires !c.status.Disconnected? && c.reconnectAttempts >= 0
    ensures HandleClose(c).notified == c.notified + Loss(c.opts, c.reconnectAttempts)
  {
    assert (c.notified + [Disconnected]) + [Reconnecting] == c.notified + ([Disconnected] + [Reconnecting]);
  }

  lemma TryReported(c: Client, creates: bool)
    requires (c.ws.None? ==> !c.status.Connecting?) && c.reconnectAttempts >= 0
    ensures DoConnect(c, creates).notified == c.notified + Try(c.opts, c.ws, c.reconnectAttempts, creates)
  {
    hide HandleClose;
    if c.ws.None? && !creates {
      LossReported(SetStatus(c, Connecting));
    }
  }

  lemma StepReports(c: Client, e: Event)
    requires StatusOk(c.status, c.ws, c.timers, c.reconnectTimer) && c.reconnectAttempts >= 0
    ensures Next(c, e).notified
         == c.notified + Reported(c.opts, c.status, c.ws, c.reconnectAttempts, e, Fires(c.timers, e))
  {
    hide HandleClose, DoConnect, Try, Loss;
    match e
    case Connect(creates) => TryReported(c, creates);
    case RetryFires(t, creates) => if IsRetry(c.timers, t) { TryReported(c.(timers := c.timers - {t}), creates); }
    case Closed => if c.ws.Some? { SomeSocket(c); LossReported(StopHeartbeat(c)); }
    case Opened => SomeSocket(c);
    case _ =>
  }

  /**
    In every run the listener hears exactly: connecting on each try, connected on each open, each
    loss and whether a retry follows it, and disconnected when the user disconnects; and the status
    is the last of these.
  */
  lemma {:induction false} ReportsFollowEvents(opts: Options, events: seq<Event>)
    ensures var c, heard := Run(opts, events), HeardOf(opts, events);
      [Disconnected] + c.notified == heard && c.status == heard[|heard| - 1]
    decreases |events|
  {
    if events != [] {
      var front, last := events[..|events| - 1], events[|events| - 1];
      ReportsFollowEvents(opts, front);
      RunOk(opts, front);
      RunOk(opts, events);
      SocketInRuns(opts, front);
      AttemptsAreRetries(opts, front);
      OptsKept(Run(opts, front), last);
      hide Next, BudgetOk, HeartOk, SeqOk, TimersFresh, Reported, Fires, RetriesSince, SocketOf;
      StepReports(Run(opts, front), last);
      Associates(Run(opts, front).notified, Run(opts, events).notified);
    }
  }

  lemma Associates(a: seq<Status>, b: seq<Status>)
    ensures forall c: seq<Status> :: b == a + c ==> [Disconnected] + b == ([Disconnected] + a) + c
  {
    forall c: seq<Status> | b == a + c ensures [Disconnected] + b == ([Disconnected] + a) + c {
      assert [Disconnected] + (a + c) == ([Disconnected] + a) + c;
    }
  }

  /** The messages of a run that find the socket open: the user's, and the heartbeat's. */
  function SendsOf(opts: Options, events: seq<Event>): nat
    decreases |events|
  {
    if events == [] then 0
    else
      var front, last := events[..|events| - 1], events[|events| - 1];
      SendsOf(opts, front) +
      if SocketOf(opts, front) == Some(Open)
         && (last.Send? || (last.HeartbeatFires? && IsHeartbeat(Run(opts, front).timers, last.t))) then 1 else 0
  }

  lemma StepSends(c: Client, e: Event)
    ensures |Next(c, e).sent| == |c.sent| +
      if c.ws == Some(Open) && (e.Send? || (e.HeartbeatFires? && IsHeartbeat(c.timers, e.t))) then 1 else 0
  {
  }

  /** In every run a message goes out exactly for each send and each heartbeat that finds the socket open. */
  lemma {:induction false} SendsFollowEvents(opts: Options, events: seq<Event>)
    ensures |Run(opts, events).sent| == SendsOf(opts, events)
    decreases |events|
  {
    if events != [] {
      var front := events[..|events| - 1];
      SendsFollowEvents(opts, front);
      SocketInRuns(opts, front);
      hide Next, SocketOf;
      StepSends(Run(opts, front), events[|events| - 1]);
    }
  }
}
