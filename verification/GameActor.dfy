/**
  The room actor run imperatively: handlers that update the actor's fields, call the script
  and send to the hub, proved to compute what `Room` specifies.
*/
module GameActor {
  import opened Prelude
  import opened Engine
  import opened Blackjack
  import opened Room
  import Spec = Room
  import Script = GameServer

  class GameActor {
    var players: map<PlayerId, Member>
    var ownerID: PlayerId
    const maxPlayers: int
    var isPlaying: bool
    var destroyed: bool
    var tickCount: nat
    const script: Script.GameServer
    var hub: seq<Event>
    ghost var hooks: seq<Hook>

    ghost function View(): Room
      reads this, script, script.engine
    {
      Room(players, ownerID, maxPlayers, isPlaying, destroyed, tickCount, script.View(), hub, hooks)
    }

    /** The actor is exactly as specified, and the script too unless it threw, as specified. */
    ghost predicate Became(r: Room)
      reads this, script, script.engine
    {
      View().(game := r.game) == r && script.Became(r.game)
    }

    constructor (maxPlayers: int, turnIndex: Option<int>)
      ensures script.Valid() && fresh(script) && fresh(script.engine)
      ensures View() == NewRoom(maxPlayers, turnIndex)
    {
      players, ownerID, isPlaying, destroyed, tickCount := map[], EMPTY_ID, false, false, 0;
      this.maxPlayers := maxPlayers;
      var s := new Script.GameServer(turnIndex);
      script := s;
      hub, hooks := [], [];
    }

    method Broadcast(e: Event)
      modifies this`hub
      ensures hub == old(hub) + [e]
    {
      hub := hub + [e];
    }

    /** A hook is recorded and run; nothing happens once the engine is destroyed. */
    method TriggerHook(h: Hook, ghost move: Option<Move>, clock: seq<int>) returns (err: bool)
      requires script.Valid()
      requires match h
               case OnPlayerJoin(p) => move == Some(PlayerJoin(p))
               case OnPlayerLeave(p) => move == Some(PlayerLeave(p))
               case OnGameStart => move == Some(GameStart(clock))
               case OnPlayerAction(p, action) => move == Some(PlayerAction(p, action))
               case _ => move == None
      modifies this`hooks, script, script.engine
      ensures hooks == if destroyed then old(hooks) else old(hooks) + [h]
      ensures script.Became(if destroyed || move.None? then old(script.View())
                            else Play(old(script.View()), move.value))
      ensures err <==> destroyed || (script.crashed && !old(script.crashed))
    {
      hide Join, Leave, Start, Act;
      if destroyed {
        return true;
      }
      hooks := hooks + [h];
      ghost var g := script.View();
      var was := script.crashed;
      if !was {
        match h
        case OnPlayerJoin(p) => script.OnPlayerJoin(p);
        case OnPlayerLeave(p) => script.OnPlayerLeave(p);
        case OnGameStart => script.OnGameStart(clock);
        case OnPlayerAction(p, action) => script.OnPlayerAction(p, action);
        case _ =>
      }
      err := script.crashed && !was;
    }

    method HandlePlayerJoin(p: PlayerId, info: Option<string>) returns (failed: bool)
      requires script.Valid()
      modifies this, script, script.engine
      ensures Became(HandleJoin(old(View()), p, info))
      ensures failed <==> HandlerFails(old(View()), MsgPlayerJoin(p, info))
    {
      hide Play;
      if isPlaying {
        Broadcast(Error(p, 46402));
        return false;
      }
      if |players| >= maxPlayers {
        Broadcast(Error(p, 46901));
        return false;
      }
      if p in players {
        return false;
      }
      if info.None? {
        return true;
      }
      if |players| == 0 {
        ownerID := p;
      }
      players := players[p := Member(info.value, false)];
      var _ := TriggerHook(OnPlayerJoin(p), Some(PlayerJoin(p)), []);
      Broadcast(PlayerJoined(p, |players|));
      failed := false;
    }

    method Depart(p: PlayerId)
      requires script.Valid()
      modifies this`players, this`hub, this`hooks, script, script.engine
      ensures Became(Departed(old(View()), p))
    {
      hide Play;
      players := players - {p};
      var _ := TriggerHook(OnPlayerLeave(p), Some(PlayerLeave(p)), []);
      Broadcast(PlayerLeft(p));
    }

    method HandlePlayerLeave(p: PlayerId) returns (ghost heir: PlayerId)
      requires script.Valid()
      modifies this`players, this`ownerID, this`hub, this`hooks, script, script.engine
      ensures Became(HandleLeave(old(View()), p, heir))
    {
      hide Play, Heir, Departed;
      heir := p;
      if p !in players {
        return;
      }
      Depart(p);
      if ownerID == p && |players| > 0 {
        heir := HandOver();
      }
      if |players| == 0 && !isPlaying {
        Broadcast(Status(StatusClosed));
      }
    }

    /** Some remaining member, whichever the map iteration yields, becomes the owner. */
    method HandOver() returns (ghost heir: PlayerId)
      requires |players| > 0
      modifies this`ownerID, this`hub
      ensures heir in players && ownerID == heir
      ensures hub == old(hub) + [OwnerChange(heir)]
    {
      assert players.Keys != {};
      var pid := AnyOf(players.Keys);
      ownerID := pid;
      heir := pid;
      Broadcast(OwnerChange(pid));
    }

    method HandlePlayerReady(p: PlayerId)
      modifies this
      ensures View() == HandleReady(old(View()), p)
    {
      if p !in players {
        return;
      }
      players := players[p := players[p].(isReady := true)];
      Broadcast(PlayerReady(p));
      var allReady, rest := true, players.Keys;
      while allReady && rest != {}
        invariant rest <= players.Keys
        invariant allReady ==> forall q :: q in players && q !in rest ==> players[q].isReady
        invariant !allReady ==> exists q :: q in players && !players[q].isReady
        modifies {}
        decreases rest, allReady
      {
        var q := AnyOf(rest);
        allReady := players[q].isReady;
        rest := rest - {q};
      }
      if allReady {
        Broadcast(AllReady(|players|));
      }
    }

    method HandlePlayerAction(p: PlayerId, action: Action)
      requires script.Valid()
      modifies this, script, script.engine
      ensures Became(HandleAction(old(View()), p, action))
    {
      hide Play;
      if !isPlaying {
        Broadcast(Error(p, 46001));
        return;
      }
      if p !in players {
        return;
      }
      var err := TriggerHook(OnPlayerAction(p, action), Some(PlayerAction(p, action)), []);
      if err {
        Broadcast(Error(p, 47001));
      }
    }

    method HandleGameStart(clock: seq<int>)
      requires script.Valid()
      modifies this, script, script.engine
      ensures Became(HandleStart(old(View()), clock))
    {
      hide Play;
      if isPlaying {
        return;
      }
      isPlaying := true;
      Broadcast(Status(StatusPlaying));
      var _ := TriggerHook(OnGameStart, Some(GameStart(clock)), clock);
      Broadcast(GameStarted);
    }

    method HandleShutdown()
      requires script.Valid()
      modifies this, script, script.engine
      ensures Became(Spec.HandleShutdown(old(View())))
    {
      hide Play;
      if isPlaying {
        var _ := TriggerHook(OnGameEnd, None, []);
        isPlaying := false;
      }
      script.engine.Destroy();
      script.drawPending := false;
      destroyed := true;
      Broadcast(Status(StatusClosed));
    }

    /** The dispatch; returns whether the handler failed, and whom a leave handed the room to. */
    method HandleMessage(msg: Message) returns (failed: bool, ghost heir: PlayerId)
      requires script.Valid()
      modifies this, script, script.engine
      ensures Became(Handle(old(View()), if msg.MsgPlayerLeave? then msg.(heir := heir) else msg))
      ensures failed <==> HandlerFails(old(View()), msg)
    {
      hide Play, HandleJoin, HandleLeave, HandleReady, HandleAction, HandleStart, Spec.HandleShutdown;
      failed, heir := false, EMPTY_ID;
      match msg
      case MsgPlayerJoin(p, info) => failed := HandlePlayerJoin(p, info);
      case MsgPlayerLeave(p, _) => heir := HandlePlayerLeave(p);
      case MsgPlayerReady(p) => HandlePlayerReady(p);
      case MsgPlayerAction(p, action) => HandlePlayerAction(p, action);
      case MsgGameStart(clock) => HandleGameStart(clock);
      case MsgGameTick =>
        if isPlaying {
          tickCount := tickCount + 1;
          var _ := TriggerHook(OnTick, None, []);
        }
      case MsgTimer(hasData) =>
        if hasData {
          var _ := TriggerHook(OnTimer, None, []);
        }
      case MsgRestore => var _ := TriggerHook(OnRestore, None, []);
      case MsgShutdown => HandleShutdown();
      case MsgOther => failed := true;
    }

    /** The dealer's timer fires. */
    method TimerFired()
      requires script.Valid()
      modifies script, script.engine
      ensures Became(Next(old(View()), TimerFires))
    {
      hide Blackjack.Draw;
      if !destroyed && script.drawPending && !script.crashed {
        script.Draw();
      }
    }
  }
}
