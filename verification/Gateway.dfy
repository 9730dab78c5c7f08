/**
  The WebSocket gateway: three indices of connections (by id, by player, by room and player)
  and delivery through bounded queues that drop.  Register, Unregister and the sends are atomic.
*/
module Gateway {
  import opened Prelude

  type ConnId = int
  type Payload = int
  datatype RoomId = Rid(name: string)

  /** The empty room id: the connection is in no room. */
  const NO_ROOM: RoomId := Rid("")

  const DEFAULT_SEND_BUF: nat := 256

  /** A connection.  `offered`, `enqueued`, `written` and `dropped` are history. */
  datatype Conn = Conn(
    player: PlayerId,
    room: RoomId,
    send: seq<Payload>,
    closed: bool,
    offered: seq<Payload>,
    enqueued: seq<Payload>,
    written: seq<Payload>,
    dropped: nat)

  /** Registrations and effective unregistrations, in order. */
  datatype Event = Registered(c: ConnId, p: PlayerId, r: RoomId) | Unregistered(c: ConnId, p: PlayerId, r: RoomId)

  /** `all` holds every connection ever registered, as the heap does. */
  datatype Gate = Gate(
    conns: set<ConnId>,
    rooms: map<RoomId, map<PlayerId, ConnId>>,
    playerConns: map<PlayerId, ConnId>,
    connCount: int,
    msgCount: int,
    sendBuf: nat,
    all: map<ConnId, Conn>,
    events: seq<Event>)

  datatype Step =
    | Register(c: ConnId, p: PlayerId, r: RoomId)
    | Unregister(c: ConnId)
    | Broadcast(r: RoomId, payload: Payload)
    | SendTo(p: PlayerId, payload: Payload)
    | SendExcept(r: RoomId, p: PlayerId, payload: Payload)
    | Welcome(c: ConnId, payload: Payload)   // ServeWS writes to the connection it just registered
    | Write(c: ConnId)                       // WritePump takes the next payload

  function NewGateway(sendBuf: int): Gate {
    Gate({}, map[], map[], 0, 0, if sendBuf <= 0 then DEFAULT_SEND_BUF else sendBuf, map[], [])
  }

  function NewConn(p: PlayerId, r: RoomId): Conn { Conn(p, r, [], false, [], [], [], 0) }

  /** sendJSON: dropped when the connection is closed or its queue is full. */
  function Offer(conn: Conn, payload: Payload, sendBuf: nat): Conn {
    var offered := conn.(offered := conn.offered + [payload]);
    if conn.closed || |conn.send| >= sendBuf then offered.(dropped := conn.dropped + 1)
    else offered.(send := conn.send + [payload], enqueued := conn.enqueued + [payload])
  }

  function Offered(all: map<ConnId, Conn>, targets: set<ConnId>, payload: Payload, sendBuf: nat): map<ConnId, Conn> {
    map c | c in all :: if c in targets then Offer(all[c], payload, sendBuf) else all[c]
  }

  function OfferTo(g: Gate, targets: set<ConnId>, payload: Payload): Gate {
    g.(all := Offered(g.all, targets, payload, g.sendBuf))
  }

  function AddToRoom(rooms: map<RoomId, map<PlayerId, ConnId>>, r: RoomId, p: PlayerId, c: ConnId)
    : map<RoomId, map<PlayerId, ConnId>>
  {
    if r in rooms then rooms[r := rooms[r][p := c]] else rooms[r := map[p := c]]
  }

  /** An emptied room is dropped. */
  function RemoveFromRoom(rooms: map<RoomId, map<PlayerId, ConnId>>, r: RoomId, p: PlayerId)
    : map<RoomId, map<PlayerId, ConnId>>
  {
    if r !in rooms then rooms
    else if rooms[r] - {p} == map[] then rooms - {r}
    else rooms[r := rooms[r] - {p}]
  }

  function DoRegister(g: Gate, c: ConnId, p: PlayerId, r: RoomId): Gate {
    g.(conns := g.conns + {c},
       playerConns := g.playerConns[p := c],
       connCount := g.connCount + 1,
       rooms := if r == NO_ROOM then g.rooms else AddToRoom(g.rooms, r, p, c),
       all := g.all[c := NewConn(p, r)],
       events := g.events + [Registered(c, p, r)])
  }

  function DoUnregister(g: Gate, c: ConnId): Gate {
    if c !in g.conns || c !in g.all then g
    else
      var conn := g.all[c];
      g.(conns := g.conns - {c},
         playerConns := g.playerConns - {conn.player},
         connCount := g.connCount - 1,
         rooms := if conn.room == NO_ROOM then g.rooms else RemoveFromRoom(g.rooms, conn.room, conn.player),
         all := g.all[c := conn.(closed := true)],
         events := g.events + [Unregistered(c, conn.player, conn.room)])
  }

  /** The connections of a room's members other than `except`. */
  function Targets(room: map<PlayerId, ConnId>, except: Option<PlayerId>): set<ConnId> {
    set p | p in room && except != Some(p) :: room[p]
  }

  function SendToRoom(g: Gate, r: RoomId, except: Option<PlayerId>, payload: Payload): Gate {
    if r !in g.rooms then g
    else OfferTo(g, Targets(g.rooms[r], except), payload).(msgCount := g.msgCount + 1)
  }

  function Next(g: Gate, step: Step): Gate {
    match step
    case Register(c, p, r) => if c in g.all then g else DoRegister(g, c, p, r)   // ids are fresh
    case Unregister(c) => DoUnregister(g, c)
    case Broadcast(r, payload) => SendToRoom(g, r, None, payload)
    case SendExcept(r, p, payload) => SendToRoom(g, r, Some(p), payload)
    case SendTo(p, payload) =>
      if p !in g.playerConns then g
      else OfferTo(g, {g.playerConns[p]}, payload).(msgCount := g.msgCount + 1)
    case Welcome(c, payload) => OfferTo(g, {c}, payload)
    case Write(c) =>
      if c in g.all && g.all[c].send != []
      then var conn := g.all[c];
           g.(all := g.all[c := conn.(send := conn.send[1..], written := conn.written + [conn.send[0]])])
      else g
  }

  function Run(sendBuf: int, steps: seq<Step>): Gate
    decreases |steps|
  {
    if steps == [] then NewGateway(sendBuf) else Next(Run(sendBuf, steps[..|steps| - 1]), steps[|steps| - 1])
  }

  // ----- Invariants of the indices -----

  function Entry(rooms: map<RoomId, map<PlayerId, ConnId>>, r: RoomId, p: PlayerId): Option<ConnId> {
    if r in rooms && p in rooms[r] then Some(rooms[r][p]) else None
  }

  function PlayerEntry(playerConns: map<PlayerId, ConnId>, p: PlayerId): Option<ConnId> {
    if p in playerConns then Some(playerConns[p]) else None
  }

  /** A registered connection of that player. */
  predicate IsOf(conns: set<ConnId>, all: map<ConnId, Conn>, c: ConnId, p: PlayerId) {
    c in conns && c in all && all[c].player == p
  }

  /** Every index entry points at a registered connection of that player, in that room. */
  ghost predicate PlayersOk(conns: set<ConnId>, all: map<ConnId, Conn>, playerConns: map<PlayerId, ConnId>) {
    forall p :: PlayerEntry(playerConns, p).Some? ==> IsOf(conns, all, PlayerEntry(playerConns, p).value, p)
  }

  ghost predicate RoomsOk(conns: set<ConnId>, all: map<ConnId, Conn>, rooms: map<RoomId, map<PlayerId, ConnId>>) {
    forall r, p :: Entry(rooms, r, p).Some? ==>
      var c := Entry(rooms, r, p).value;
      IsOf(conns, all, c, p) && all[c].room == r
  }

  /** No room is kept empty, and no connection is filed under the empty room id. */
  ghost predicate RoomsTidy(rooms: map<RoomId, map<PlayerId, ConnId>>) {
    NO_ROOM !in rooms && forall r :: r in rooms ==> rooms[r] != map[]
  }

  ghost predicate IndexOk(g: Gate) {
    && g.conns <= g.all.Keys
    && g.connCount == |g.conns|
    && (forall c :: c in g.all ==> (g.all[c].closed <==> c !in g.conns))
    && PlayersOk(g.conns, g.all, g.playerConns)
    && RoomsOk(g.conns, g.all, g.rooms)
    && RoomsTidy(g.rooms)
  }

  /** Who the last Register or effective Unregister of a player makes reachable. */
  function LastOfPlayer(events: seq<Event>, p: PlayerId): Option<ConnId> {
    if events == [] then None
    else
      var e := events[|events| - 1];
      if e.p == p then (if e.Registered? then Some(e.c) else None)
      else LastOfPlayer(events[..|events| - 1], p)
  }

  /** The same for a player in a room. */
  function LastInRoom(events: seq<Event>, r: RoomId, p: PlayerId): Option<ConnId> {
    if events == [] then None
    else
      var e := events[|events| - 1];
      if e.p == p && e.r == r then (if e.Registered? then Some(e.c) else None)
      else LastInRoom(events[..|events| - 1], r, p)
  }

  /** Whether a connection's last event is its registration. */
  predicate IsRegistered(events: seq<Event>, c: ConnId) {
    events != [] &&
    var e := events[|events| - 1];
    if e.c == c then e.Registered? else IsRegistered(events[..|events| - 1], c)
  }

  /** The player index and the room index are functions of the history. */
  ghost predicate HistoryOk(g: Gate) {
    && (forall p :: PlayerEntry(g.playerConns, p) == LastOfPlayer(g.events, p))
    && (forall r, p :: r != NO_ROOM ==> Entry(g.rooms, r, p) == LastInRoom(g.events, r, p))
    && (forall c :: c in g.conns <==> IsRegistered(g.events, c))
  }

  // ----- Delivery -----

  ghost predicate Subsequence(a: seq<Payload>, b: seq<Payload>)
    decreases |b|
  {
    if b == [] then a == []
    else
      || (a != [] && a[|a| - 1] == b[|b| - 1] && Subsequence(a[..|a| - 1], b[..|b| - 1]))
      || Subsequence(a, b[..|b| - 1])
  }

  ghost predicate ConnOk(conn: Conn, sendBuf: nat) {
    && |conn.send| <= sendBuf
    && conn.enqueued == conn.written + conn.send
    && Subsequence(conn.enqueued, conn.offered)
    && |conn.offered| == |conn.enqueued| + conn.dropped
    && (conn.dropped == 0 ==> conn.enqueued == conn.offered)
  }

  ghost predicate DeliveryOk(g: Gate) {
    forall c :: c in g.all ==> ConnOk(g.all[c], g.sendBuf)
  }

  ghost predicate GateOk(g: Gate) { IndexOk(g) && HistoryOk(g) && DeliveryOk(g) }

  lemma NewGatewayOk(sendBuf: int)
    ensures GateOk(NewGateway(sendBuf))
  {
  }

  lemma OfferKeepsConn(conn: Conn, payload: Payload, sendBuf: nat)
    requires ConnOk(conn, sendBuf)
    ensures ConnOk(Offer(conn, payload, sendBuf), sendBuf)
  {
    var after := Offer(conn, payload, sendBuf);
    assert after.offered[..|after.offered| - 1] == conn.offered;
    if after.enqueued != conn.enqueued {
      assert after.enqueued[..|after.enqueued| - 1] == conn.enqueued;
      assert after.enqueued == after.written + after.send;
    }
  }

  /** The connections keep their ids, players and rooms. */
  ghost predicate SameOwners(a: map<ConnId, Conn>, b: map<ConnId, Conn>) {
    && a.Keys == b.Keys
    && forall c :: c in a ==> b[c].player == a[c].player && b[c].room == a[c].room && b[c].closed == a[c].closed
  }

  /** A step that changes queues only keeps the indices. */
  lemma QueuesOnly(g: Gate, t: Gate)
    requires IndexOk(g) && HistoryOk(g) && SameOwners(g.all, t.all)
    requires t == g.(all := t.all, msgCount := t.msgCount)
    ensures IndexOk(t) && HistoryOk(t)
  {
    hide LastOfPlayer, LastInRoom, IsRegistered, Entry, PlayerEntry;
  }

  lemma OfferKeepsGate(g: Gate, targets: set<ConnId>, payload: Payload, count: int)
    requires GateOk(g)
    ensures GateOk(OfferTo(g, targets, payload).(msgCount := count))
  {
    hide Subsequence, ConnOk, IndexOk, HistoryOk;
    var t := OfferTo(g, targets, payload).(msgCount := count);
    forall c | c in t.all ensures ConnOk(t.all[c], t.sendBuf) {
      OfferKeepsConn(g.all[c], payload, g.sendBuf);
    }
    QueuesOnly(g, t);
  }

  lemma WriteKeepsConn(conn: Conn, sendBuf: nat)
    requires ConnOk(conn, sendBuf) && conn.send != []
    ensures ConnOk(conn.(send := conn.send[1..], written := conn.written + [conn.send[0]]), sendBuf)
  {
    assert conn.send == [conn.send[0]] + conn.send[1..];
  }

  lemma WriteOk(g: Gate, c: ConnId)
    requires GateOk(g)
    ensures GateOk(Next(g, Write(c)))
  {
    hide Subsequence, ConnOk, IndexOk, HistoryOk;
    InAll(g);
    if c in g.all && g.all[c].send != [] {
      WriteKeepsConn(g.all[c], g.sendBuf);
      QueuesOnly(g, Next(g, Write(c)));
    }
  }

  lemma InAll(g: Gate)
    requires IndexOk(g)
    ensures g.conns <= g.all.Keys
  {
  }

  // ----- Register -----

  lemma EventAdded(events: seq<Event>, e: Event)
    ensures forall p :: LastOfPlayer(events + [e], p)
                     == (if e.p == p then (if e.Registered? then Some(e.c) else None) else LastOfPlayer(events, p))
    ensures forall r, p :: LastInRoom(events + [e], r, p)
                        == (if e.p == p && e.r == r then (if e.Registered? then Some(e.c) else None)
                            else LastInRoom(events, r, p))
    ensures forall c :: IsRegistered(events + [e], c) <==> (if e.c == c then e.Registered? else IsRegistered(events, c))
  {
    assert (events + [e])[..|events|] == events;
  }

  lemma AddToRoomEntries(rooms: map<RoomId, map<PlayerId, ConnId>>, r: RoomId, p: PlayerId, c: ConnId)
    ensures forall r', p' :: Entry(AddToRoom(rooms, r, p, c), r', p')
                          == (if r' == r && p' == p then Some(c) else Entry(rooms, r', p'))
    ensures RoomsTidy(rooms) && r != NO_ROOM ==> RoomsTidy(AddToRoom(rooms, r, p, c))
  {
    assert p in AddToRoom(rooms, r, p, c)[r];
  }

  lemma RemoveFromRoomEntries(rooms: map<RoomId, map<PlayerId, ConnId>>, r: RoomId, p: PlayerId)
    ensures forall r', p' :: Entry(RemoveFromRoom(rooms, r, p), r', p')
                          == (if r' == r && p' == p then None else Entry(rooms, r', p'))
    ensures RoomsTidy(rooms) ==> RoomsTidy(RemoveFromRoom(rooms, r, p))
  {
    forall r', p' ensures Entry(RemoveFromRoom(rooms, r, p), r', p')
                       == (if r' == r && p' == p then None else Entry(rooms, r', p'))
    {
      if r in rooms && rooms[r] - {p} == map[] && r' == r && p' != p {
        assert p' !in rooms[r] - {p};
      }
    }
  }

  lemma RegisterHistory(g: Gate, c: ConnId, p: PlayerId, r: RoomId)
    requires HistoryOk(g)
    ensures HistoryOk(DoRegister(g, c, p, r))
  {
    hide LastOfPlayer, LastInRoom, IsRegistered, AddToRoom, Entry;
    EventAdded(g.events, Registered(c, p, r));
    AddToRoomEntries(g.rooms, r, p, c);
  }

  lemma UnregisterHistory(g: Gate, c: ConnId)
    requires HistoryOk(g)
    ensures HistoryOk(DoUnregister(g, c))
  {
    hide LastOfPlayer, LastInRoom, IsRegistered, RemoveFromRoom, Entry;
    if c in g.conns && c in g.all {
      var conn := g.all[c];
      EventAdded(g.events, Unregistered(c, conn.player, conn.room));
      RemoveFromRoomEntries(g.rooms, conn.room, conn.player);
    }
  }

  lemma RegisterIndex(g: Gate, c: ConnId, p: PlayerId, r: RoomId)
    requires IndexOk(g) && c !in g.all
    ensures IndexOk(DoRegister(g, c, p, r))
  {
    hide AddToRoom, Entry, RoomsTidy;
    var t := DoRegister(g, c, p, r);
    AddToRoomEntries(g.rooms, r, p, c);
    assert c !in g.conns;
    forall r', p' | Entry(t.rooms, r', p').Some?
      ensures IsOf(t.conns, t.all, Entry(t.rooms, r', p').value, p')
      ensures t.all[Entry(t.rooms, r', p').value].room == r'
    {
      assert (r' == r && p' == p && r != NO_ROOM) || Entry(t.rooms, r', p') == Entry(g.rooms, r', p');
    }
    forall p' | PlayerEntry(t.playerConns, p').Some?
      ensures IsOf(t.conns, t.all, PlayerEntry(t.playerConns, p').value, p')
    {
      assert p' == p || PlayerEntry(t.playerConns, p') == PlayerEntry(g.playerConns, p');
    }
    assert RoomsTidy(t.rooms);
    assert t.conns <= t.all.Keys;
  }

  lemma UnregisterIndex(g: Gate, c: ConnId)
    requires IndexOk(g)
    ensures IndexOk(DoUnregister(g, c))
  {
    hide RemoveFromRoom, Entry, RoomsTidy;
    if c in g.conns {
      var t := DoUnregister(g, c);
      var conn := g.all[c];
      RemoveFromRoomEntries(g.rooms, conn.room, conn.player);
      forall r', p' | Entry(t.rooms, r', p').Some?
        ensures IsOf(t.conns, t.all, Entry(t.rooms, r', p').value, p')
        ensures t.all[Entry(t.rooms, r', p').value].room == r'
      {
        assert Entry(t.rooms, r', p') == Entry(g.rooms, r', p');
        assert Entry(g.rooms, NO_ROOM, p') == None by { NoRoomEmpty(g, p'); }
      }
      forall p' | PlayerEntry(t.playerConns, p').Some?
        ensures IsOf(t.conns, t.all, PlayerEntry(t.playerConns, p').value, p')
      {
        assert PlayerEntry(t.playerConns, p') == PlayerEntry(g.playerConns, p');
      }
    }
  }

  lemma NoRoomEmpty(g: Gate, p: PlayerId)
    requires RoomsTidy(g.rooms)
    ensures Entry(g.rooms, NO_ROOM, p) == None
  {
  }

  lemma StepOk(g: Gate, step: Step)
    requires GateOk(g)
    ensures GateOk(Next(g, step))
  {
    hide IndexOk, HistoryOk, ConnOk, OfferTo;
    InAll(g);
    match step
    case Register(c, p, r) =>
      if c !in g.all {
        RegisterIndex(g, c, p, r);
        RegisterHistory(g, c, p, r);
        NewConnOk(p, r, g.sendBuf);
      }
    case Unregister(c) =>
      UnregisterIndex(g, c);
      UnregisterHistory(g, c);
      if c in g.conns { ClosedConnOk(g.all[c], g.sendBuf); }
    case Broadcast(r, payload) =>
      if r in g.rooms { OfferKeepsGate(g, Targets(g.rooms[r], None), payload, g.msgCount + 1); }
    case SendExcept(r, p, payload) =>
      if r in g.rooms { OfferKeepsGate(g, Targets(g.rooms[r], Some(p)), payload, g.msgCount + 1); }
    case SendTo(p, payload) =>
      if p in g.playerConns { OfferKeepsGate(g, {g.playerConns[p]}, payload, g.msgCount + 1); }
    case Welcome(c, payload) =>
      OfferKeepsGate(g, {c}, payload, g.msgCount);
      SameCount(g, {c}, payload);
    case Write(c) => WriteOk(g, c);
  }

  lemma SameCount(g: Gate, targets: set<ConnId>, payload: Payload)
    ensures OfferTo(g, targets, payload).(msgCount := g.msgCount) == OfferTo(g, targets, payload)
  {
  }

  lemma NewConnOk(p: PlayerId, r: RoomId, sendBuf: nat)
    ensures ConnOk(NewConn(p, r), sendBuf)
  {
  }

  lemma ClosedConnOk(conn: Conn, sendBuf: nat)
    requires ConnOk(conn, sendBuf)
    ensures ConnOk(conn.(closed := true), sendBuf)
  {
  }

  lemma {:induction false} RunOk(sendBuf: int, steps: seq<Step>)
    ensures GateOk(Run(sendBuf, steps))
    decreases |steps|
  {
    hide Next, GateOk;
    if steps != [] {
      RunOk(sendBuf, steps[..|steps| - 1]);
      StepOk(Run(sendBuf, steps[..|steps| - 1]), steps[|steps| - 1]);
    } else {
      NewGatewayOk(sendBuf);
    }
  }

  // ----- Theorems -----

  /**
    In every run with fresh connection ids the indices are functions of the history: a player is
    reachable through the connection of its last Register unless an effective Unregister of that
    player came later, likewise in each room; and the counter counts the registered connections.
  */
  lemma IndicesFollowHistory(sendBuf: int, steps: seq<Step>)
    ensures var g := Run(sendBuf, steps);
      && (forall p :: PlayerEntry(g.playerConns, p) == LastOfPlayer(g.events, p))
      && (forall r, p :: r != NO_ROOM ==> Entry(g.rooms, r, p) == LastInRoom(g.events, r, p))
      && (forall c :: c in g.conns <==> IsRegistered(g.events, c))
      && g.connCount == |g.conns|
  {
    hide Next, Run, Entry, PlayerEntry, LastOfPlayer, LastInRoom, IsRegistered;
    RunOk(sendBuf, steps);
  }

  /** No index entry ever points at an unregistered connection, or at somebody else's. */
  lemma NoStaleEntry(sendBuf: int, steps: seq<Step>)
    ensures var g := Run(sendBuf, steps);
      && (forall p :: p in g.playerConns ==>
            var c := g.playerConns[p];
            c in g.conns && c in g.all && !g.all[c].closed && g.all[c].player == p)
      && (forall r, p :: r in g.rooms && p in g.rooms[r] ==>
            var c := g.rooms[r][p];
            c in g.conns && c in g.all && !g.all[c].closed && g.all[c].player == p && g.all[c].room == r)
      && (forall r :: r in g.rooms ==> g.rooms[r] != map[])
  {
    hide Next, Run, HistoryOk, DeliveryOk;
    RunOk(sendBuf, steps);
    var g := Run(sendBuf, steps);
    InAll(g);
    forall p | p in g.playerConns ensures IsOf(g.conns, g.all, g.playerConns[p], p) {
      assert PlayerEntry(g.playerConns, p) == Some(g.playerConns[p]);
    }
    forall r, p | r in g.rooms && p in g.rooms[r]
      ensures IsOf(g.conns, g.all, g.rooms[r][p], p) && g.all[g.rooms[r][p]].room == r
    {
      assert Entry(g.rooms, r, p) == Some(g.rooms[r][p]);
    }
  }

  /** No player has two registered connections. */
  ghost predicate OnePerPlayer(g: Gate) {
    forall c, d | c in g.conns && d in g.conns && c in g.all && d in g.all ::
      g.all[c].player == g.all[d].player ==> c == d
  }

  ghost predicate OneAtATime(sendBuf: int, steps: seq<Step>) {
    forall i :: 0 <= i <= |steps| ==> OnePerPlayer(Run(sendBuf, steps[..i]))
  }

  /** A connection is found by its player, and by its room and player. */
  ghost predicate Found(g: Gate, c: ConnId)
    requires c in g.all
  {
    && PlayerEntry(g.playerConns, g.all[c].player) == Some(c)
    && (g.all[c].room != NO_ROOM ==> Entry(g.rooms, g.all[c].room, g.all[c].player) == Some(c))
  }

  /** Every registered connection is. */
  ghost predicate Inverse(g: Gate) {
    forall c :: c in g.conns && c in g.all ==> Found(g, c)
  }

  lemma RegisterInverse(g: Gate, c: ConnId, p: PlayerId, r: RoomId)
    requires Inverse(g) && c !in g.all && OnePerPlayer(DoRegister(g, c, p, r))
    ensures Inverse(DoRegister(g, c, p, r))
  {
    hide Entry, AddToRoom, OnePerPlayer;
    var t := DoRegister(g, c, p, r);
    AddToRoomEntries(g.rooms, r, p, c);
    forall d | d in t.conns && d in t.all ensures Found(t, d) {
      if d != c {
        assert t.all[d] == g.all[d];
        OneConnection(t, c, d);
        assert Found(g, d);
      }
    }
  }

  lemma UnregisterInverse(g: Gate, c: ConnId)
    requires Inverse(g) && OnePerPlayer(g) && c in g.conns && c in g.all
    ensures Inverse(DoUnregister(g, c))
  {
    hide Entry, RemoveFromRoom, OnePerPlayer;
    var t := DoUnregister(g, c);
    RemoveFromRoomEntries(g.rooms, g.all[c].room, g.all[c].player);
    forall d | d in t.conns && d in t.all ensures Found(t, d) {
      assert t.all[d] == g.all[d];
      OneConnection(g, c, d);
      assert Found(g, d);
    }
  }

  lemma OneConnection(g: Gate, c: ConnId, d: ConnId)
    requires OnePerPlayer(g) && c != d && c in g.conns && d in g.conns && c in g.all && d in g.all
    ensures g.all[c].player != g.all[d].player
  {
  }

  lemma InverseKept(g: Gate, step: Step)
    requires Inverse(g) && OnePerPlayer(g) && OnePerPlayer(Next(g, step))
    ensures Inverse(Next(g, step))
  {
    hide DoRegister, DoUnregister, Inverse, OnePerPlayer;
    match step
    case Register(c, p, r) => if c !in g.all { RegisterInverse(g, c, p, r); }
    case Unregister(c) =>
      if c in g.conns && c in g.all { UnregisterInverse(g, c); } else { NotRegistered(g, c); }
    case _ => InverseQueues(g, Next(g, step));
  }

  lemma NotRegistered(g: Gate, c: ConnId)
    requires c !in g.conns || c !in g.all
    ensures DoUnregister(g, c) == g
  {
  }

  /** Sends and writes leave players, rooms and indices alone. */
  lemma InverseQueues(g: Gate, t: Gate)
    requires Inverse(g)
    requires t.conns == g.conns && t.rooms == g.rooms && t.playerConns == g.playerConns
    requires SameOwners(g.all, t.all)
    ensures Inverse(t)
  {
    hide Entry, PlayerEntry;
  }

  lemma {:induction false} InverseRun(sendBuf: int, steps: seq<Step>)
    requires OneAtATime(sendBuf, steps)
    ensures Inverse(Run(sendBuf, steps))
    decreases |steps|
  {
    hide Next, Inverse, GateOk, OnePerPlayer;
    if steps != [] {
      var front := steps[..|steps| - 1];
      forall i | 0 <= i <= |front| ensures OnePerPlayer(Run(sendBuf, front[..i])) {
        assert front[..i] == steps[..i];
      }
      InverseRun(sendBuf, front);
      assert front[..|front|] == front && steps[..|steps|] == steps;
      InverseKept(Run(sendBuf, front), steps[|steps| - 1]);
    } else {
      NewInverse(sendBuf);
    }
  }

  lemma NewInverse(sendBuf: int)
    ensures Inverse(NewGateway(sendBuf))
  {
  }

  /**
    If no player ever has two live connections, the indices are exact inverses of the registry:
    a connection is registered exactly if its player's entry is that connection.
  */
  lemma IndicesAreInverse(sendBuf: int, steps: seq<Step>, c: ConnId)
    requires OneAtATime(sendBuf, steps) && c in Run(sendBuf, steps).all
    ensures var g := Run(sendBuf, steps); var conn := g.all[c];
      && (c in g.conns <==> PlayerEntry(g.playerConns, conn.player) == Some(c))
      && (conn.room != NO_ROOM ==> (c in g.conns <==> Entry(g.rooms, conn.room, conn.player) == Some(c)))
  {
    hide Next, Run, HistoryOk, DeliveryOk, Entry, PlayerEntry;
    InverseRun(sendBuf, steps);
    RunOk(sendBuf, steps);
  }

  /**
    And that is what it takes: the indices invert the registry all along exactly if nobody ever
    has two connections.
  */
  lemma InverseExactlyOneAtATime(sendBuf: int, steps: seq<Step>)
    ensures OneAtATime(sendBuf, steps) <==> forall i :: 0 <= i <= |steps| ==> Inverse(Run(sendBuf, steps[..i]))
  {
    hide Run, Inverse, OnePerPlayer;
    if OneAtATime(sendBuf, steps) {
      forall i | 0 <= i <= |steps| ensures Inverse(Run(sendBuf, steps[..i])) {
        forall j | 0 <= j <= i ensures OnePerPlayer(Run(sendBuf, steps[..i][..j])) {
          assert steps[..i][..j] == steps[..j];
        }
        InverseRun(sendBuf, steps[..i]);
      }
    }
    forall i | 0 <= i <= |steps| && Inverse(Run(sendBuf, steps[..i])) ensures OnePerPlayer(Run(sendBuf, steps[..i])) {
      InverseMeansOne(Run(sendBuf, steps[..i]));
    }
  }

  lemma InverseMeansOne(g: Gate)
    requires Inverse(g)
    ensures OnePerPlayer(g)
  {
    forall c, d | c in g.conns && d in g.conns && c in g.all && d in g.all && g.all[c].player == g.all[d].player
      ensures c == d
    {
      assert Found(g, c) && Found(g, d);
    }
  }

  /** With two connections at once it fails: closing the first makes the player unreachable. */
  lemma SecondConnectionIsLost(sendBuf: int, p: PlayerId, r: RoomId)
    requires r != NO_ROOM
    ensures var g := Run(sendBuf, [Register(1, p, r), Register(2, p, r), Unregister(1)]);
      && 2 in g.conns && 2 in g.all && !g.all[2].closed
      && PlayerEntry(g.playerConns, p) == None && Entry(g.rooms, r, p) == None
  {
    var a, b, c := Register(1, p, r), Register(2, p, r), Unregister(1);
    assert [a, b, c][..2] == [a, b] && [a, b][..1] == [a] && [a][..0] == [];
    var g0 := NewGateway(sendBuf);
    assert Run(sendBuf, [a]) == Next(g0, a);
    assert Run(sendBuf, [a, b]) == Next(Next(g0, a), b);
    assert Run(sendBuf, [a, b, c]) == Next(Next(Next(g0, a), b), c);
    AddToRoomEntries(g0.rooms, r, p, 1);
    AddToRoomEntries(Next(g0, a).rooms, r, p, 2);
    RemoveFromRoomEntries(Next(Next(g0, a), b).rooms, r, p);
  }

  // ----- What a connection is offered -----

  predicate EverRegistered(events: seq<Event>, c: ConnId) {
    exists i :: 0 <= i < |events| && events[i].Registered? && events[i].c == c
  }

  /** Whether a step is addressed to a connection, by the history of registrations alone. */
  ghost predicate IsAddressed(events: seq<Event>, step: Step, c: ConnId) {
    match step
    case Broadcast(r, _) => r != NO_ROOM && exists p :: LastInRoom(events, r, p) == Some(c)
    case SendExcept(r, except, _) => r != NO_ROOM && exists p :: p != except && LastInRoom(events, r, p) == Some(c)
    case SendTo(p, _) => LastOfPlayer(events, p) == Some(c)
    case Welcome(d, _) => d == c && EverRegistered(events, c)
    case _ => false
  }

  /** The payloads of a run that were addressed to a connection at their moment, in order. */
  ghost function Addressed(sendBuf: int, steps: seq<Step>, c: ConnId): seq<Payload>
    decreases |steps|
  {
    if steps == [] then []
    else
      var front, last := steps[..|steps| - 1], steps[|steps| - 1];
      Addressed(sendBuf, front, c) + (if IsAddressed(Run(sendBuf, front).events, last, c) then [last.payload] else [])
  }

  lemma RegisteredAdded(events: seq<Event>, e: Event, c: ConnId)
    ensures EverRegistered(events + [e], c) <==> EverRegistered(events, c) || (e.Registered? && e.c == c)
  {
    var all := events + [e];
    assert forall i :: 0 <= i < |events| ==> all[i] == events[i];
    assert all[|events|] == e;
  }

  /** The connections that exist are those that were registered. */
  ghost predicate AllRegistered(g: Gate) { forall c :: c in g.all <==> EverRegistered(g.events, c) }

  lemma AllRegisteredKept(g: Gate, step: Step)
    requires AllRegistered(g)
    ensures AllRegistered(Next(g, step))
  {
    hide EverRegistered;
    match step
    case Register(c, p, r) =>
      if c !in g.all {
        forall d { RegisteredAdded(g.events, Registered(c, p, r), d); }
      }
    case Unregister(c) =>
      if c in g.conns && c in g.all {
        forall d { RegisteredAdded(g.events, Unregistered(c, g.all[c].player, g.all[c].room), d); }
      }
    case _ =>
  }

  lemma {:induction false} AllRegisteredInRuns(sendBuf: int, steps: seq<Step>)
    ensures AllRegistered(Run(sendBuf, steps))
    decreases |steps|
  {
    hide Next, AllRegistered;
    if steps != [] {
      AllRegisteredInRuns(sendBuf, steps[..|steps| - 1]);
      AllRegisteredKept(Run(sendBuf, steps[..|steps| - 1]), steps[|steps| - 1]);
    } else {
      NobodyRegistered(sendBuf);
    }
  }

  lemma NobodyRegistered(sendBuf: int)
    ensures AllRegistered(NewGateway(sendBuf))
  {
  }

  /** The targets of a room send are the connections filed there. */
  lemma TargetsAre(rooms: map<RoomId, map<PlayerId, ConnId>>, r: RoomId, except: Option<PlayerId>, c: ConnId)
    requires r in rooms
    ensures c in Targets(rooms[r], except) <==> exists p :: Some(p) != except && Entry(rooms, r, p) == Some(c)
  {
    forall p ensures Entry(rooms, r, p) == Some(c) <==> p in rooms[r] && rooms[r][p] == c {}
  }

  /** A send to a room is addressed to a connection exactly if it is a target. */
  lemma RoomAddressed(g: Gate, r: RoomId, except: Option<PlayerId>, c: ConnId)
    requires IndexOk(g) && HistoryOk(g)
    ensures r in g.rooms && c in Targets(g.rooms[r], except)
      <==> r != NO_ROOM && exists p :: Some(p) != except && LastInRoom(g.events, r, p) == Some(c)
  {
    hide LastInRoom, Targets, Entry, PlayersOk, RoomsOk;
    if r in g.rooms {
      TargetsAre(g.rooms, r, except, c);
      assert r != NO_ROOM;
    } else {
      NoEntries(g.rooms, r);
    }
  }

  lemma NoEntries(rooms: map<RoomId, map<PlayerId, ConnId>>, r: RoomId)
    requires r !in rooms
    ensures forall p :: Entry(rooms, r, p) == None
  {
  }

  lemma SendToAddressed(g: Gate, p: PlayerId, c: ConnId)
    requires HistoryOk(g)
    ensures p in g.playerConns && g.playerConns[p] == c <==> LastOfPlayer(g.events, p) == Some(c)
  {
    hide LastOfPlayer, LastInRoom, IsRegistered;
    assert PlayerEntry(g.playerConns, p) == LastOfPlayer(g.events, p);
  }

  /** One step offers its payload to the connections it is addressed to, and nothing to the others. */
  lemma StepOffers(g: Gate, step: Step, c: ConnId)
    requires IndexOk(g) && HistoryOk(g) && AllRegistered(g) && c in g.all
    ensures c in Next(g, step).all
    ensures Next(g, step).all[c].offered
         == g.all[c].offered + if IsAddressed(g.events, step, c) then [step.payload] else []
  {
    match step
    case Broadcast(r, payload) => {
      RoomAddressed(g, r, None, c);
      hide IndexOk, HistoryOk, AllRegistered, Targets, LastInRoom;
    }
    case SendExcept(r, p, payload) => {
      RoomAddressed(g, r, Some(p), c);
      ExceptIsSome(g.events, r, p, c);
      hide IndexOk, HistoryOk, AllRegistered, Targets, LastInRoom;
    }
    case SendTo(p, payload) => {
      SendToAddressed(g, p, c);
      hide IndexOk, HistoryOk, AllRegistered, LastOfPlayer;
    }
    case _ => {
      hide IndexOk, HistoryOk, LastInRoom, LastOfPlayer, EverRegistered, RemoveFromRoom, AddToRoom;
    }
  }

  lemma ExceptIsSome(events: seq<Event>, r: RoomId, except: PlayerId, c: ConnId)
    ensures (exists p :: p != except && LastInRoom(events, r, p) == Some(c))
      <==> exists p :: Some(p) != Some(except) && LastInRoom(events, r, p) == Some(c)
  {
    hide LastInRoom;
    forall p ensures p != except <==> Some(p) != Some(except) {}
  }

  /** A connection that was not there before starts with nothing offered. */
  lemma NewcomerOffered(g: Gate, step: Step, c: ConnId)
    requires c !in g.all && c in Next(g, step).all
    ensures Next(g, step).all[c].offered == []
    ensures !(step.Welcome? || step.SendTo? || step.Broadcast? || step.SendExcept?)
  {
  }

  /** Nothing is addressed to a connection before its registration. */
  lemma {:induction false} NothingBefore(sendBuf: int, steps: seq<Step>, c: ConnId)
    requires c !in Run(sendBuf, steps).all
    ensures Addressed(sendBuf, steps, c) == []
    decreases |steps|
  {
    hide Next, IsAddressed, IndexOk, HistoryOk;
    if steps != [] {
      var front, last := steps[..|steps| - 1], steps[|steps| - 1];
      var g := Run(sendBuf, front);
      AllStay(g, last);
      NothingBefore(sendBuf, front, c);
      RunOk(sendBuf, front);
      AllRegisteredInRuns(sendBuf, front);
      StrangerNotAddressed(g, last, c);
    }
  }

  lemma AllStay(g: Gate, step: Step)
    ensures g.all.Keys <= Next(g, step).all.Keys
  {
  }

  lemma StrangerNotAddressed(g: Gate, step: Step, c: ConnId)
    requires IndexOk(g) && HistoryOk(g) && AllRegistered(g) && c !in g.all
    ensures !IsAddressed(g.events, step, c)
  {
    hide LastInRoom, LastOfPlayer, IsRegistered, EverRegistered, Entry, PlayerEntry;
    assert forall p :: PlayerEntry(g.playerConns, p) == LastOfPlayer(g.events, p);
  }

  /**
    In every run a connection has been offered exactly the payloads that were addressed to it, by
    room, by player or on its own, at the moment they were sent: each once, in order.
  */
  lemma {:induction false} OfferedIsAddressed(sendBuf: int, steps: seq<Step>, c: ConnId)
    requires c in Run(sendBuf, steps).all
    ensures Run(sendBuf, steps).all[c].offered == Addressed(sendBuf, steps, c)
    decreases |steps|
  {
    hide Next, IsAddressed, IndexOk, HistoryOk, AllRegistered;
    if steps != [] {
      var front, last := steps[..|steps| - 1], steps[|steps| - 1];
      var g := Run(sendBuf, front);
      RunOk(sendBuf, front);
      AllRegisteredInRuns(sendBuf, front);
      if c in g.all {
        OfferedIsAddressed(sendBuf, front, c);
        StepOffers(g, last, c);
      } else {
        NewcomerOffered(g, last, c);
        NothingBefore(sendBuf, front, c);
        NotASend(g.events, last, c);
      }
    }
  }

  lemma NotASend(events: seq<Event>, step: Step, c: ConnId)
    requires !(step.Welcome? || step.SendTo? || step.Broadcast? || step.SendExcept?)
    ensures !IsAddressed(events, step, c)
  {
  }

  /**
    Delivery: in every run each connection's queue is within its bound, what it was sent is an
    in-order subsequence of what it was offered, short by what was dropped, and exactly that if
    nothing was dropped.
  */
  lemma DeliveryInOrder(sendBuf: int, steps: seq<Step>, c: ConnId)
    requires c in Run(sendBuf, steps).all
    ensures var g := Run(sendBuf, steps); var conn := g.all[c];
      && |conn.send| <= g.sendBuf
      && conn.offered == Addressed(sendBuf, steps, c)
      && Subsequence(conn.written + conn.send, conn.offered)
      && |conn.written + conn.send| + conn.dropped == |conn.offered|
      && (conn.dropped == 0 ==> conn.written + conn.send == conn.offered)
  {
    hide Next, Run, Subsequence, IndexOk, HistoryOk, Addressed;
    RunOk(sendBuf, steps);
    OfferedIsAddressed(sendBuf, steps, c);
  }

  /** A broadcast is offered once to every member of the room and to nobody else. */
  lemma BroadcastReachesRoom(g: Gate, r: RoomId, payload: Payload, c: ConnId)
    requires c in g.all
    ensures var t := Next(g, Broadcast(r, payload));
      c in t.all &&
      if exists p :: Entry(g.rooms, r, p) == Some(c)
      then t.all[c].offered == g.all[c].offered + [payload]
      else t.all[c] == g.all[c]
  {
    if r in g.rooms {
      forall p ensures Entry(g.rooms, r, p) == Some(c) <==> p in g.rooms[r] && g.rooms[r][p] == c {}
    }
  }

  /** SendExcept is the broadcast minus the one player. */
  lemma SendExceptIsBroadcastMinusOne(sendBuf: int, steps: seq<Step>,
                                      r: RoomId, p: PlayerId, payload: Payload, c: ConnId)
    requires c in Run(sendBuf, steps).all
    ensures var g := Run(sendBuf, steps);
      var some, every := Next(g, SendExcept(r, p, payload)), Next(g, Broadcast(r, payload));
      && c in some.all && c in every.all
      && some.all[c] == (if g.all[c].player == p then g.all[c] else every.all[c])
  {
    hide Run, HistoryOk, DeliveryOk;
    RunOk(sendBuf, steps);
    var g := Run(sendBuf, steps);
    if r in g.rooms {
      TargetsMinusOne(g, r, p, c);
    }
  }

  lemma TargetsMinusOne(g: Gate, r: RoomId, p: PlayerId, c: ConnId)
    requires IndexOk(g) && r in g.rooms && c in g.all
    ensures c in Targets(g.rooms[r], Some(p)) <==> c in Targets(g.rooms[r], None) && g.all[c].player != p
  {
    forall q | q in g.rooms[r] && g.rooms[r][q] == c ensures g.all[c].player == q {
      assert Entry(g.rooms, r, q) == Some(c);
    }
  }
}
