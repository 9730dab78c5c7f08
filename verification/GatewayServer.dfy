/**
  The gateway as objects: connections with a bounded queue, and a hub whose methods update its
  three indices in place.  Every method is proved to take the step that `Gateway` specifies.
*/
module GatewayServer {
  import opened Prelude
  import G = Gateway

  class Conn {
    const id: G.ConnId
    const playerId: PlayerId
    const roomId: G.RoomId
    const sendBuf: nat        // the capacity of the send channel
    var send: seq<G.Payload>
    var closed: bool
    ghost var offered: seq<G.Payload>
    ghost var enqueued: seq<G.Payload>
    ghost var written: seq<G.Payload>
    ghost var dropped: nat

    ghost function View(): G.Conn
      reads this
    {
      G.Conn(playerId, roomId, send, closed, offered, enqueued, written, dropped)
    }

    constructor (id: G.ConnId, p: PlayerId, r: G.RoomId, hub: Hub)
      ensures this.id == id && playerId == p && roomId == r && sendBuf == hub.sendBuf
      ensures View() == G.NewConn(p, r)
    {
      this.id, playerId, roomId, sendBuf := id, p, r, hub.sendBuf;
      send, closed, offered, enqueued, written, dropped := [], false, [], [], [], 0;
    }

    /** A closed connection takes nothing; a full queue drops the payload. */
    method SendJSON(payload: G.Payload)
      modifies this
      ensures View() == G.Offer(old(View()), payload, sendBuf)
      ensures send == if old(closed) || |old(send)| >= sendBuf then old(send) else old(send) + [payload]
    {
      offered := offered + [payload];
      if closed || |send| >= sendBuf {
        dropped := dropped + 1;
        return;
      }
      send, enqueued := send + [payload], enqueued + [payload];
    }
  }

  /** Every connection ever registered is filed under its id and has a queue of the hub's size. */
  ghost predicate AllFiled(all: map<G.ConnId, Conn>, sendBuf: nat) {
    forall c :: c in all ==> all[c].id == c && all[c].sendBuf == sendBuf
  }

  ghost predicate Known(all: map<G.ConnId, Conn>, c: Conn) { c.id in all && all[c.id] == c }

  /** A registered connection is filed nowhere else. */
  lemma FiledOnce(all: map<G.ConnId, Conn>, sendBuf: nat, conn: Conn)
    requires AllFiled(all, sendBuf) && Known(all, conn)
    ensures conn.sendBuf == sendBuf && forall c :: c in all && all[c] == conn ==> c == conn.id
  {
  }

  ghost predicate ConnsValid(all: map<G.ConnId, Conn>, conns: map<G.ConnId, Conn>) {
    forall c :: c in conns ==> Known(all, conns[c]) && conns[c].id == c
  }

  /** The connections are registered ones, each under its own player. */
  ghost predicate RoomValid(all: map<G.ConnId, Conn>, room: map<PlayerId, Conn>) {
    forall p :: p in room ==> Known(all, room[p]) && room[p].playerId == p
  }

  ghost predicate RoomsValid(all: map<G.ConnId, Conn>, rooms: map<G.RoomId, map<PlayerId, Conn>>) {
    forall r :: r in rooms ==> RoomValid(all, rooms[r])
  }

  lemma RoomGrows(all: map<G.ConnId, Conn>, room: map<PlayerId, Conn>, p: PlayerId, conn: Conn)
    requires RoomValid(all, room) && conn.playerId == p && Known(all, conn)
    ensures RoomValid(all, room[p := conn])
  {
  }

  lemma RoomShrinks(all: map<G.ConnId, Conn>, room: map<PlayerId, Conn>, p: PlayerId)
    requires RoomValid(all, room)
    ensures RoomValid(all, room - {p})
  {
  }

  /** A connection with a new id is filed. */
  lemma AllGrows(all: map<G.ConnId, Conn>, sendBuf: nat, conns: map<G.ConnId, Conn>, conn: Conn)
    requires AllFiled(all, sendBuf) && ConnsValid(all, conns) && conn.id !in all && conn.sendBuf == sendBuf
    ensures AllFiled(all[conn.id := conn], sendBuf) && ConnsValid(all[conn.id := conn], conns[conn.id := conn])
  {
  }

  lemma IndicesSurvive(all: map<G.ConnId, Conn>, playerConns: map<PlayerId, Conn>,
                       rooms: map<G.RoomId, map<PlayerId, Conn>>, conn: Conn)
    requires RoomValid(all, playerConns) && RoomsValid(all, rooms) && conn.id !in all
    ensures RoomValid(all[conn.id := conn], playerConns) && RoomsValid(all[conn.id := conn], rooms)
  {
  }

  /** The ids of a room's connections. */
  ghost function Ids(room: map<PlayerId, Conn>): map<PlayerId, G.ConnId> { map p | p in room :: room[p].id }

  ghost function RoomIds(rooms: map<G.RoomId, map<PlayerId, Conn>>): map<G.RoomId, map<PlayerId, G.ConnId>> {
    map r | r in rooms :: Ids(rooms[r])
  }

  lemma IdsAdded(room: map<PlayerId, Conn>, p: PlayerId, conn: Conn)
    ensures Ids(room[p := conn]) == Ids(room)[p := conn.id]
  {
  }

  lemma IdsRemoved(room: map<PlayerId, Conn>, p: PlayerId)
    ensures Ids(room - {p}) == Ids(room) - {p}
    ensures room - {p} == map[] <==> Ids(room) - {p} == map[]
  {
    assert Ids(room - {p}).Keys == (room - {p}).Keys;
    assert room - {p} == map[] <==> (room - {p}).Keys == {};
    assert Ids(room) - {p} == map[] <==> (Ids(room) - {p}).Keys == {};
  }

  lemma RoomAdded(rooms: map<G.RoomId, map<PlayerId, Conn>>, r: G.RoomId, p: PlayerId, conn: Conn)
    ensures var room := if r in rooms then rooms[r][p := conn] else map[p := conn];
      RoomIds(rooms[r := room]) == G.AddToRoom(RoomIds(rooms), r, p, conn.id)
  {
    hide Ids;
    if r in rooms {
      IdsAdded(rooms[r], p, conn);
    } else {
      IdsAdded(map[], p, conn);
      NoIds();
    }
  }

  lemma NoIds()
    ensures Ids(map[]) == map[]
  {
  }

  lemma NoRoomToRemove(rooms: map<G.RoomId, map<PlayerId, Conn>>, r: G.RoomId, p: PlayerId)
    requires r !in rooms
    ensures RoomIds(rooms) == G.RemoveFromRoom(RoomIds(rooms), r, p)
  {
  }

  lemma RoomRemoved(rooms: map<G.RoomId, map<PlayerId, Conn>>, r: G.RoomId, p: PlayerId)
    requires r in rooms
    ensures var room := rooms[r] - {p};
      RoomIds(if room == map[] then rooms - {r} else rooms[r := room]) == G.RemoveFromRoom(RoomIds(rooms), r, p)
  {
    hide Ids;
    IdsRemoved(rooms[r], p);
  }

  /** The members already offered the payload when those in `left` are still to come. */
  ghost function Reached(room: map<PlayerId, Conn>, left: set<PlayerId>, except: Option<PlayerId>): set<G.ConnId> {
    set p | p in room && p !in left && except != Some(p) :: room[p].id
  }

  lemma ReachedNext(all: map<G.ConnId, Conn>, room: map<PlayerId, Conn>, left: set<PlayerId>,
                    except: Option<PlayerId>, p: PlayerId)
    requires RoomValid(all, room) && p in left && left <= room.Keys
    ensures Known(all, room[p])
    ensures Reached(room, left - {p}, except)
         == (if except == Some(p) then Reached(room, left, except) else Reached(room, left, except) + {room[p].id})
    ensures room[p].id !in Reached(room, left, except)
  {
    forall q | q in room && room[q].id == room[p].id ensures q == p {
      assert room[q] == room[p];
    }
  }

  lemma ReachedAll(room: map<PlayerId, Conn>, except: Option<PlayerId>)
    ensures Reached(room, room.Keys, except) == {}
    ensures Reached(room, {}, except) == G.Targets(Ids(room), except)
  {
    forall p | p in room ensures Ids(room)[p] == room[p].id {}
  }

  lemma OfferedNobody(queues: map<G.ConnId, G.Conn>, payload: G.Payload, sendBuf: nat)
    ensures G.Offered(queues, {}, payload, sendBuf) == queues
  {
  }

  lemma OfferedMore(queues: map<G.ConnId, G.Conn>, done: set<G.ConnId>, c: G.ConnId, payload: G.Payload, sendBuf: nat)
    requires c !in done
    ensures G.Offered(G.Offered(queues, done, payload, sendBuf), {c}, payload, sendBuf)
         == G.Offered(queues, done + {c}, payload, sendBuf)
  {
    hide G.Offer;
  }

  class Hub {
    var conns: map<G.ConnId, Conn>
    var rooms: map<G.RoomId, map<PlayerId, Conn>>
    var playerConns: map<PlayerId, Conn>
    var connCount: int
    var msgCount: int
    const sendBuf: nat
    ghost var all: map<G.ConnId, Conn>     // every connection ever registered
    ghost var events: seq<G.Event>

    ghost predicate Valid()
      reads this
    {
      && AllFiled(all, sendBuf)
      && ConnsValid(all, conns)
      && RoomValid(all, playerConns)
      && RoomsValid(all, rooms)
    }

    ghost function Queues(): map<G.ConnId, G.Conn>
      reads this`all, all.Values
    {
      map c | c in all :: all[c].View()
    }

    ghost function View(): G.Gate
      reads this, all.Values
    {
      G.Gate(conns.Keys, RoomIds(rooms), Ids(playerConns), connCount, msgCount, sendBuf,
             Queues(), events)
    }

    constructor (sendBuf: int)
      ensures Valid() && View() == G.NewGateway(sendBuf)
    {
      conns, rooms, playerConns, connCount, msgCount := map[], map[], map[], 0, 0;
      this.sendBuf := if sendBuf <= 0 then G.DEFAULT_SEND_BUF else sendBuf;
      all, events := map[], [];
    }

    method AddToRoom(r: G.RoomId, p: PlayerId, conn: Conn)
      requires RoomsValid(all, rooms) && Known(all, conn) && conn.playerId == p
      modifies this`rooms
      ensures RoomsValid(all, rooms)
      ensures RoomIds(rooms) == G.AddToRoom(old(RoomIds(rooms)), r, p, conn.id)
    {
      hide Ids, RoomIds, G.AddToRoom;
      RoomAdded(rooms, r, p, conn);
      if r !in rooms {
        rooms := rooms[r := map[p := conn]];
        return;
      }
      rooms := rooms[r := rooms[r][p := conn]];
    }

    method RemoveFromRoom(r: G.RoomId, p: PlayerId)
      requires RoomsValid(all, rooms)
      modifies this`rooms
      ensures RoomsValid(all, rooms)
      ensures RoomIds(rooms) == G.RemoveFromRoom(old(RoomIds(rooms)), r, p)
    {
      hide Ids, RoomIds, RoomValid, G.RemoveFromRoom;
      if r !in rooms {
        NoRoomToRemove(rooms, r, p);
        return;
      }
      RoomRemoved(rooms, r, p);
      RoomShrinks(all, rooms[r], p);
      var room := rooms[r] - {p};
      rooms := if |room| == 0 then rooms - {r} else rooms[r := room];
    }

    lemma QueuesAt(c: G.ConnId)
      ensures c in Queues() <==> c in all
      ensures c in all ==> Queues()[c] == all[c].View()
    {
    }

    /** The queues after a connection joined or changed. */
    twostate lemma QueuesBecome(new conn: Conn)
      requires all == old(all)[conn.id := conn]
      requires forall c :: c in old(all) && c != conn.id ==> old(all[c].View()) == all[c].View()
      ensures Queues() == old(Queues())[conn.id := conn.View()]
    {
    }

    method Register(conn: Conn)
      requires Valid()
      requires conn.id !in all && conn.sendBuf == sendBuf && conn.View() == G.NewConn(conn.playerId, conn.roomId)
      modifies this
      ensures Valid()
      ensures View() == G.Next(old(View()), G.Register(conn.id, conn.playerId, conn.roomId))
    {
      hide Ids, RoomIds, G.AddToRoom, Queues, AllFiled, ConnsValid, RoomValid, RoomsValid;
      QueuesAt(conn.id);
      IdsAdded(playerConns, conn.playerId, conn);
      AllGrows(all, sendBuf, conns, conn);
      IndicesSurvive(all, playerConns, rooms, conn);
      all := all[conn.id := conn];
      events := events + [G.Registered(conn.id, conn.playerId, conn.roomId)];
      conns := conns[conn.id := conn];
      RoomGrows(all, playerConns, conn.playerId, conn);
      playerConns := playerConns[conn.playerId := conn];
      connCount := connCount + 1;
      if conn.roomId != G.NO_ROOM {
        AddToRoom(conn.roomId, conn.playerId, conn);
      }
      QueuesBecome(conn);
      assert conns.Keys == G.DoRegister(old(View()), conn.id, conn.playerId, conn.roomId).conns;
    }

    /** CompareAndSwap of `closed`. */
    method Close(conn: Conn)
      requires AllFiled(all, sendBuf) && Known(all, conn)
      modifies conn
      ensures Queues() == old(Queues())[conn.id := old(conn.View()).(closed := true)]
    {
      hide AllFiled;
      FiledOnce(all, sendBuf, conn);
      if !conn.closed {
        conn.closed := true;
      }
      QueuesBecome(conn);
    }

    method Unregister(c: G.ConnId)
      requires Valid()
      modifies this, all.Values
      ensures Valid()
      ensures View() == G.Next(old(View()), G.Unregister(c))
    {
      hide Ids, RoomIds, G.RemoveFromRoom, Queues, AllFiled, RoomValid, RoomsValid;
      QueuesAt(c);
      if c !in conns {
        return;
      }
      var conn := conns[c];
      RoomShrinks(all, playerConns, conn.playerId);
      IdsRemoved(playerConns, conn.playerId);
      conns := conns - {c};
      events := events + [G.Unregistered(c, conn.playerId, conn.roomId)];
      Close(conn);
      playerConns := playerConns - {conn.playerId};
      connCount := connCount - 1;
      if conn.roomId != G.NO_ROOM {
        RemoveFromRoom(conn.roomId, conn.playerId);
      }
      assert conns.Keys == G.DoUnregister(old(View()), c).conns;
    }

    /** One connection is offered the payload; no other changes. */
    method Deliver(conn: Conn, payload: G.Payload)
      requires AllFiled(all, sendBuf) && Known(all, conn)
      modifies conn
      ensures Queues() == G.Offered(old(Queues()), {conn.id}, payload, sendBuf)
    {
      hide AllFiled, G.Offer;
      FiledOnce(all, sendBuf, conn);
      ghost var queues := G.Offered(Queues(), {conn.id}, payload, sendBuf);
      conn.SendJSON(payload);
      assert forall c :: c in all ==> all[c].View() == queues[c];
    }

    /** Every member of the room but `except` is offered the payload, in any order. */
    method SendToMembers(room: map<PlayerId, Conn>, except: Option<PlayerId>, payload: G.Payload)
      requires Valid() && RoomValid(all, room)
      modifies all.Values
      ensures Valid() && View() == G.OfferTo(old(View()), G.Targets(Ids(room), except), payload)
    {
      hide Reached, Ids, G.Targets, G.Offered, Queues, RoomIds, RoomsValid, AllFiled, ConnsValid, RoomValid;
      var left := room.Keys;
      ReachedAll(room, except);
      OfferedNobody(Queues(), payload, sendBuf);
      while left != {}
        invariant left <= room.Keys
        invariant Queues() == G.Offered(old(Queues()), Reached(room, left, except), payload, sendBuf)
      {
        var p :| p in left;
        ReachedNext(all, room, left, except, p);
        if except != Some(p) {
          OfferedMore(old(Queues()), Reached(room, left, except), room[p].id, payload, sendBuf);
          Deliver(room[p], payload);
        }
        left := left - {p};
      }
    }

    method BroadcastToRoom(r: G.RoomId, payload: G.Payload)
      requires Valid()
      modifies this`msgCount, all.Values
      ensures Valid() && View() == G.Next(old(View()), G.Broadcast(r, payload))
    {
      if r !in rooms {
        return;
      }
      SendToMembers(rooms[r], None, payload);
      msgCount := msgCount + 1;
    }

    method SendExcept(r: G.RoomId, p: PlayerId, payload: G.Payload)
      requires Valid()
      modifies this`msgCount, all.Values
      ensures Valid() && View() == G.Next(old(View()), G.SendExcept(r, p, payload))
    {
      if r !in rooms {
        return;
      }
      SendToMembers(rooms[r], Some(p), payload);
      msgCount := msgCount + 1;
    }

    method SendTo(p: PlayerId, payload: G.Payload)
      requires Valid()
      modifies this`msgCount, all.Values
      ensures Valid() && View() == G.Next(old(View()), G.SendTo(p, payload))
    {
      if p !in playerConns {
        return;
      }
      var conn := playerConns[p];
      Deliver(conn, payload);
      msgCount := msgCount + 1;
      assert Ids(playerConns)[p] == conn.id;
    }
  }
}
