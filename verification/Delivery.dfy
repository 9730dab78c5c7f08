/**
  What becomes of every payload: each connection's queue told from the history of registrations,
  sends and writes alone, with no look at the gateway's own queues.
*/
module Delivery {
  import opened Gateway

  /** What waits for the writer, what it has written, and how many payloads were lost. */
  datatype Queue = Queue(waiting: seq<Payload>, taken: seq<Payload>, lost: nat)

  /** How many payloads may wait: what was configured, or 256. */
  function Room(sendBuf: int): nat { if sendBuf <= 0 then 256 else sendBuf }

  /**
    A payload addressed to a connection goes to the end of its queue if the connection is
    registered and there is room at that moment, and is lost otherwise; the writer takes the first.
  */
  ghost function QueueAfter(q: Queue, events: seq<Event>, step: Step, c: ConnId, room: nat): Queue {
    if IsAddressed(events, step, c) then
      if IsRegistered(events, c) && |q.waiting| < room
      then q.(waiting := q.waiting + [step.payload])
      else q.(lost := q.lost + 1)
    else if step == Write(c) && q.waiting != [] then
      Queue(q.waiting[1..], q.taken + [q.waiting[0]], q.lost)
    else q
  }

  ghost function QueueOf(sendBuf: int, steps: seq<Step>, c: ConnId): Queue
    decreases |steps|
  {
    if steps == [] then Queue([], [], 0)
    else
      var front, last := steps[..|steps| - 1], steps[|steps| - 1];
      QueueAfter(QueueOf(sendBuf, front, c), Run(sendBuf, front).events, last, c, Room(sendBuf))
  }

  predicate Agrees(conn: Conn, q: Queue) {
    conn.send == q.waiting && conn.written == q.taken && conn.dropped == q.lost
  }

  lemma {:induction false} RoomFixed(sendBuf: int, steps: seq<Step>)
    ensures Run(sendBuf, steps).sendBuf == Room(sendBuf)
    decreases |steps|
  {
    if steps != [] {
      RoomFixed(sendBuf, steps[..|steps| - 1]);
      hide Run;
    }
  }

  lemma OfferLands(conn: Conn, payload: Payload, q: Queue, room: nat)
    requires Agrees(conn, q)
    ensures Agrees(Offer(conn, payload, room),
                   if !conn.closed && |q.waiting| < room then q.(waiting := q.waiting + [payload])
                   else q.(lost := q.lost + 1))
  {
  }

  /** A step that offers nothing to a connection leaves its queue alone, unless its writer takes a payload. */
  lemma NotOffered(g: Gate, step: Step, c: ConnId)
    requires c in g.all && c in Next(g, step).all
    requires Next(g, step).all[c].offered == g.all[c].offered
    ensures var conn, after := g.all[c], Next(g, step).all[c];
      if step == Write(c) && conn.send != []
      then after.send == conn.send[1..] && after.written == conn.written + [conn.send[0]]
           && after.dropped == conn.dropped
      else after.send == conn.send && after.written == conn.written && after.dropped == conn.dropped
  {
  }

  lemma IsOffered(g: Gate, step: Step, c: ConnId)
    requires c in g.all && c in Next(g, step).all
    requires step.Broadcast? || step.SendExcept? || step.SendTo? || step.Welcome?
    requires Next(g, step).all[c].offered == g.all[c].offered + [step.payload]
    ensures Next(g, step).all[c] == Offer(g.all[c], step.payload, g.sendBuf)
  {
  }

  lemma OpenIsRegistered(g: Gate, c: ConnId)
    requires IndexOk(g) && HistoryOk(g) && c in g.all
    ensures g.all[c].closed <==> !IsRegistered(g.events, c)
  {
  }

  lemma OnlySendsAddress(events: seq<Event>, step: Step, c: ConnId)
    requires IsAddressed(events, step, c)
    ensures step.Broadcast? || step.SendExcept? || step.SendTo? || step.Welcome?
  {
  }

  lemma StepLands(g: Gate, step: Step, c: ConnId, q: Queue)
    requires IndexOk(g) && HistoryOk(g) && AllRegistered(g) && c in g.all && Agrees(g.all[c], q)
    ensures c in Next(g, step).all
    ensures Agrees(Next(g, step).all[c], QueueAfter(q, g.events, step, c, g.sendBuf))
  {
    hide IndexOk, HistoryOk, AllRegistered, Next, IsAddressed, IsRegistered, Offer;
    StepOffers(g, step, c);
    OpenIsRegistered(g, c);
    if IsAddressed(g.events, step, c) {
      OnlySendsAddress(g.events, step, c);
      IsOffered(g, step, c);
      OfferLands(g.all[c], step.payload, q, g.sendBuf);
    } else {
      NotOffered(g, step, c);
    }
  }

  /** A connection that is not there has an empty queue, and nothing was lost. */
  lemma {:induction false} NoQueueBefore(sendBuf: int, steps: seq<Step>, c: ConnId)
    requires c !in Run(sendBuf, steps).all
    ensures QueueOf(sendBuf, steps, c) == Queue([], [], 0)
    decreases |steps|
  {
    hide Next, IsAddressed, IndexOk, HistoryOk;
    if steps != [] {
      var front, last := steps[..|steps| - 1], steps[|steps| - 1];
      var g := Run(sendBuf, front);
      AllStay(g, last);
      NoQueueBefore(sendBuf, front, c);
      RunOk(sendBuf, front);
      AllRegisteredInRuns(sendBuf, front);
      StrangerNotAddressed(g, last, c);
    }
  }

  lemma NewcomerQueue(g: Gate, step: Step, c: ConnId)
    requires c !in g.all && c in Next(g, step).all
    ensures Agrees(Next(g, step).all[c], Queue([], [], 0))
    ensures step.Register?
  {
  }

  /**
    In every run a connection's queue, what was written and how much was lost are those of its
    history: nothing else is ever delivered, reordered or dropped.
  */
  lemma {:induction false} QueuesFollowHistory(sendBuf: int, steps: seq<Step>, c: ConnId)
    requires c in Run(sendBuf, steps).all
    ensures var conn, q := Run(sendBuf, steps).all[c], QueueOf(sendBuf, steps, c);
      conn.send == q.waiting && conn.written == q.taken && conn.dropped == q.lost
    decreases |steps|
  {
    hide Next, IsAddressed, IndexOk, HistoryOk, AllRegistered, IsRegistered;
    if steps != [] {
      var front, last := steps[..|steps| - 1], steps[|steps| - 1];
      var g := Run(sendBuf, front);
      RunOk(sendBuf, front);
      AllRegisteredInRuns(sendBuf, front);
      RoomFixed(sendBuf, front);
      if c in g.all {
        QueuesFollowHistory(sendBuf, front, c);
        StepLands(g, last, c, QueueOf(sendBuf, front, c));
      } else {
        NewcomerQueue(g, last, c);
        NoQueueBefore(sendBuf, front, c);
        NotASend(g.events, last, c);
      }
    }
  }

  lemma Longer(a: seq<Payload>, b: seq<Payload>)
    ensures forall x :: b == a + [x] ==> |b| == |a| + 1
  {
  }

  /**
    After any run, a payload addressed to a connection lands at the end of its queue if and only if
    the connection is registered and its queue is not full; otherwise it is dropped.
  */
  lemma LandsExactly(sendBuf: int, steps: seq<Step>, step: Step, c: ConnId)
    requires var g := Run(sendBuf, steps); c in g.all && IsAddressed(g.events, step, c)
    ensures var g := Run(sendBuf, steps); var conn := g.all[c];
      c in Next(g, step).all &&
      var after := Next(g, step).all[c];
      && (after.send == conn.send + [step.payload] <==> IsRegistered(g.events, c) && |conn.send| < Room(sendBuf))
      && (after.send != conn.send + [step.payload] ==> after.send == conn.send && after.dropped == conn.dropped + 1)
  {
    hide Run, Next, IsAddressed, IndexOk, HistoryOk, AllRegistered, IsRegistered;
    var g := Run(sendBuf, steps);
    RunOk(sendBuf, steps);
    AllRegisteredInRuns(sendBuf, steps);
    RoomFixed(sendBuf, steps);
    StepLands(g, step, c, Queue(g.all[c].send, g.all[c].written, g.all[c].dropped));
    Longer(g.all[c].send, Next(g, step).all[c].send);
  }

  /** A step whose payload is lost on a connection: unregistered at that moment, or full. */
  ghost predicate Loses(sendBuf: int, steps: seq<Step>, i: nat, c: ConnId)
    requires i < |steps|
  {
    var g := Run(sendBuf, steps[..i]);
    && IsAddressed(g.events, steps[i], c)
    && !(IsRegistered(g.events, c) && |QueueOf(sendBuf, steps[..i], c).waiting| < Room(sendBuf))
  }

  lemma SameLoss(sendBuf: int, front: seq<Step>, steps: seq<Step>, i: nat, c: ConnId)
    requires i < |front| <= |steps| && front == steps[..|front|]
    ensures Loses(sendBuf, front, i, c) <==> Loses(sendBuf, steps, i, c)
  {
    assert front[..i] == steps[..i];
  }

  lemma LastLoss(sendBuf: int, steps: seq<Step>, c: ConnId)
    requires steps != []
    ensures var n := |steps| - 1;
      Loses(sendBuf, steps, n, c) <==> QueueOf(sendBuf, steps, c).lost > QueueOf(sendBuf, steps[..n], c).lost
  {
    hide Run, IsAddressed, IsRegistered;
  }

  lemma {:induction false} NothingLost(sendBuf: int, steps: seq<Step>, c: ConnId)
    ensures var q := QueueOf(sendBuf, steps, c);
      && (q.lost == 0 <==> forall i :: 0 <= i < |steps| ==> !Loses(sendBuf, steps, i, c))
      && (q.lost == 0 ==> q.taken + q.waiting == Addressed(sendBuf, steps, c))
    decreases |steps|
  {
    hide Run, IsAddressed, IsRegistered, Loses;
    if steps != [] {
      var n := |steps| - 1;
      var front := steps[..n];
      NothingLost(sendBuf, front, c);
      forall i | 0 <= i < n ensures Loses(sendBuf, front, i, c) <==> Loses(sendBuf, steps, i, c) {
        SameLoss(sendBuf, front, steps, i, c);
      }
      LastLoss(sendBuf, steps, c);
      TakenOrWaiting(QueueOf(sendBuf, front, c), Run(sendBuf, front).events, steps[n], c, Room(sendBuf));
    }
  }

  /** Writing moves a payload from one pile to the other. */
  lemma TakenOrWaiting(q: Queue, events: seq<Event>, step: Step, c: ConnId, room: nat)
    ensures var t := QueueAfter(q, events, step, c, room);
      && t.lost >= q.lost
      && (t.lost == q.lost ==>
            t.taken + t.waiting == (q.taken + q.waiting) + if IsAddressed(events, step, c) then [step.payload] else [])
  {
    hide IsAddressed, IsRegistered;
    if step == Write(c) && q.waiting != [] {
      assert q.waiting == [q.waiting[0]] + q.waiting[1..];
    }
  }

  /**
    In every run a connection gets, in order, all that was addressed to it if and only if it was
    registered, with room in its queue, whenever something was.
  */
  lemma AllDeliveredExactly(sendBuf: int, steps: seq<Step>, c: ConnId)
    requires c in Run(sendBuf, steps).all
    ensures var conn := Run(sendBuf, steps).all[c];
      conn.written + conn.send == Addressed(sendBuf, steps, c)
      <==> forall i :: 0 <= i < |steps| ==> !Loses(sendBuf, steps, i, c)
  {
    hide Run, Loses, QueueOf, Addressed;
    QueuesFollowHistory(sendBuf, steps, c);
    NothingLost(sendBuf, steps, c);
    DeliveryInOrder(sendBuf, steps, c);
  }

  // ----- What the gateway counts -----

  /** A send that finds anybody: a player with a connection, or a room with an entry. */
  ghost predicate Finds(events: seq<Event>, step: Step) {
    match step
    case SendTo(p, _) => LastOfPlayer(events, p).Some?
    case Broadcast(r, _) => r != NO_ROOM && exists p :: LastInRoom(events, r, p).Some?
    case SendExcept(r, _, _) => r != NO_ROOM && exists p :: LastInRoom(events, r, p).Some?
    case _ => false
  }

  ghost function SendsThatFound(sendBuf: int, steps: seq<Step>): nat
    decreases |steps|
  {
    if steps == [] then 0
    else
      var front, last := steps[..|steps| - 1], steps[|steps| - 1];
      SendsThatFound(sendBuf, front) + if Finds(Run(sendBuf, front).events, last) then 1 else 0
  }

  lemma RoomFound(g: Gate, r: RoomId)
    requires IndexOk(g) && HistoryOk(g)
    ensures r in g.rooms <==> r != NO_ROOM && exists p :: LastInRoom(g.events, r, p).Some?
  {
    hide LastInRoom, LastOfPlayer, IsRegistered, PlayersOk, RoomsOk;
    if r in g.rooms {
      assert g.rooms[r].Keys != {};
      var p :| p in g.rooms[r];
      assert r != NO_ROOM && Entry(g.rooms, r, p).Some?;
      assert LastInRoom(g.events, r, p).Some?;
    } else {
      NoEntries(g.rooms, r);
    }
  }

  lemma StepCounts(g: Gate, step: Step)
    requires IndexOk(g) && HistoryOk(g)
    ensures Next(g, step).msgCount == g.msgCount + if Finds(g.events, step) then 1 else 0
  {
    hide IndexOk, LastInRoom, LastOfPlayer, IsRegistered;
    match step
    case Broadcast(r, _) => RoomFound(g, r);
    case SendExcept(r, _, _) => RoomFound(g, r);
    case SendTo(p, _) => assert PlayerEntry(g.playerConns, p) == LastOfPlayer(g.events, p);
    case _ =>
  }

  /** In every run the message counter is the number of sends that found somebody, however many they reached. */
  lemma {:induction false} MessagesCounted(sendBuf: int, steps: seq<Step>)
    ensures Run(sendBuf, steps).msgCount == SendsThatFound(sendBuf, steps)
    decreases |steps|
  {
    hide Next, Finds, IndexOk, HistoryOk;
    if steps != [] {
      var front := steps[..|steps| - 1];
      MessagesCounted(sendBuf, front);
      RunOk(sendBuf, front);
      StepCounts(Run(sendBuf, front), steps[|steps| - 1]);
    }
  }
}
