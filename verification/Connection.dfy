/**
  The client connection as an object whose methods and callbacks update its fields.  Every one is
  proved to do what `Reconnect` specifies.
*/
module Connection {
  import opened Prelude
  import opened Reconnect

  class Connection {
    const opts: Options
    var ws: Option<Ready>
    var status: Status
    var reconnectAttempts: int
    var heartbeatTimer: Option<TimerId>
    var reconnectTimer: Option<TimerId>
    var seqNo: int
    var timers: map<TimerId, Timer>      // the browser's
    var nextTimer: TimerId
    ghost var notified: seq<Status>
    ghost var sent: seq<int>
    ghost var delays: seq<int>

    ghost function View(): Client
      reads this
    {
      Client(opts, ws, status, reconnectAttempts, heartbeatTimer, reconnectTimer, seqNo, timers, nextTimer,
             notified, sent, delays)
    }

    constructor (opts: Options)
      ensures View() == NewClient(opts)
    {
      this.opts := opts;
      ws, status, reconnectAttempts, heartbeatTimer, reconnectTimer := None, Disconnected, 0, None, None;
      seqNo, timers, nextTimer := 0, map[], 0;
      notified, sent, delays := [], [], [];
    }

    method SetStatus(s: Status)
      modifies this`status, this`notified
      ensures View() == Reconnect.SetStatus(old(View()), s)
    {
      if status != s {
        status := s;
        notified := notified + [s];
      }
    }

    method SetTimer(timer: Timer) returns (t: TimerId)
      modifies this`timers, this`nextTimer
      ensures t == old(nextTimer) && nextTimer == t + 1 && timers == old(timers)[t := timer]
    {
      t := nextTimer;
      timers, nextTimer := timers[t := timer], t + 1;
    }

    method StopHeartbeat()
      modifies this`timers, this`heartbeatTimer
      ensures View() == Reconnect.StopHeartbeat(old(View()))
    {
      if heartbeatTimer.Some? {
        timers := timers - {heartbeatTimer.value};
        heartbeatTimer := None;
      }
    }

    method StartHeartbeat()
      modifies this`timers, this`nextTimer, this`heartbeatTimer
      ensures View() == Reconnect.StartHeartbeat(old(View()))
    {
      StopHeartbeat();
      var t := SetTimer(Heartbeat);
      heartbeatTimer := Some(t);
    }

    method StopReconnect()
      modifies this`timers, this`reconnectTimer, this`reconnectAttempts, this`delays
      ensures View() == Reconnect.StopReconnect(old(View()))
    {
      if reconnectTimer.Some? {
        timers := timers - {reconnectTimer.value};
        reconnectTimer := None;
      }
      reconnectAttempts, delays := 0, [];
    }

    method HandleClose()
      modifies this
      ensures View() == Reconnect.HandleClose(old(View()))
    {
      ws := None;
      SetStatus(Disconnected);
      if opts.reconnect && reconnectAttempts < opts.maxReconnectAttempts {
        SetStatus(Reconnecting);
        reconnectAttempts := reconnectAttempts + 1;
        var delay := opts.reconnectInterval * reconnectAttempts;
        var t := SetTimer(Retry(delay));
        reconnectTimer := Some(t);
        delays := delays + [delay];
      }
    }

    method Connect(creates: bool)
      modifies this
      ensures View() == Next(old(View()), Event.Connect(creates))
    {
      if ws.Some? {
        return;
      }
      SetStatus(Connecting);
      if !creates {
        HandleClose();
        return;
      }
      ws := Some(Opening);
    }

    method OnOpen()
      requires ws == Some(Opening)
      modifies this
      ensures View() == Next(old(View()), Opened)
    {
      ws := Some(Open);
      SetStatus(Connected);
      reconnectAttempts, delays := 0, [];
      StartHeartbeat();
    }

    method OnClose()
      requires ws.Some?
      modifies this
      ensures View() == Next(old(View()), Closed)
    {
      StopHeartbeat();
      HandleClose();
    }

    method Send()
      modifies this`seqNo, this`sent
      ensures View() == Next(old(View()), Event.Send)
    {
      if ws != Some(Open) {
        return;
      }
      seqNo := seqNo + 1;
      sent := sent + [seqNo];
    }

    method Disconnect()
      modifies this
      ensures View() == Next(old(View()), Event.Disconnect)
    {
      StopReconnect();
      StopHeartbeat();
      ws := None;
      SetStatus(Disconnected);
    }

    /** A pending timer's callback runs: a retry's only once, the heartbeat's again and again. */
    method TimerFires(t: TimerId, creates: bool)
      requires t in timers
      modifies this
      ensures View() == Next(old(View()), if old(timers[t]).Retry? then RetryFires(t, creates) else HeartbeatFires(t))
    {
      match timers[t]
      case Retry(_) =>
        timers := timers - {t};
        Connect(creates);
      case Heartbeat =>
        Send();
    }
  }
}
